/** The `CreateResume` wizard: a parent component that keeps its own page
    index, the personal-information form and an ordered list of drafted
    personal links, and hands four handlers to a three-page `Wizard`.

    `CreateResume` and `PersonalLinksPage` are classes over the components'
    state. The pure part below them gives the schemas, the list operations,
    the stamping of drafts with a resume id, and a model of the Wizard and
    its parent working together (`Flow`), over which the behaviour of the
    whole form is proved. */
module CreateResume {
  import opened Common
  import W = Wizard
  import C = Combobox

  /** The parent mounts the Wizard on page 0 with three pages. */
  const NumPages: int := 3

  /** The link types, in the order of the link form's enum and of the
      options offered in the type picker. */
  const LinkTypeOptions: seq<string> :=
    ["github", "linkedin", "twitter", "facebook", "instagram",
     "youtube", "twitch", "discord", "website", "other"]

  /** The option list names each of the ten types exactly once. */
  lemma LinkTypeOptionsAreTheTypes()
    ensures |LinkTypeOptions| == 10
    ensures forall t :: LinkTypeName(t) in LinkTypeOptions
    ensures forall s :: s in LinkTypeOptions ==> ParseLinkType(s).Some?
    ensures forall i, j :: 0 <= i < j < |LinkTypeOptions| ==> LinkTypeOptions[i] != LinkTypeOptions[j]
  {
  }

  /** A drafted personal link, which is also the link form's values. */
  datatype RawPersonalLink = RawPersonalLink(linkLabel: string, url: string, linkType: LinkType)

  /** The link form's values on mount and after each added link. */
  const DefaultLinkForm: RawPersonalLink := RawPersonalLink("", "", Other)

  /** The personal-information form's values on mount and after a resume is created. */
  const EmptyPersonalInfo: PersonalInfo := PersonalInfo("", "", Some(""))

  /** The paths the link schema rejects. */
  function LinkIssues(fmt: Formats, l: RawPersonalLink): seq<Path> {
    (if |l.linkLabel| >= 1 then [] else [[Field("label")]])
    + (if fmt.isUrl(l.url) then [] else [[Field("url")]])
    + (if LinkTypeName(l.linkType) in LinkTypeOptions then [] else [[Field("type")]])
  }

  predicate LinkValid(fmt: Formats, l: RawPersonalLink) {
    LinkIssues(fmt, l) == []
  }

  /** A link is valid exactly when its label is present and its URL well
      formed; every type the form can hold is one the enum accepts. */
  lemma LinkSchema(fmt: Formats, l: RawPersonalLink)
    ensures LinkValid(fmt, l) <==> l.linkLabel != "" && fmt.isUrl(l.url)
  {
    LinkTypeOptionsAreTheTypes();
  }

  /** Adding a link pushes the form's values without running the schema:
      the freshly reset form pushes a link the schema rejects. */
  lemma AddedLinksAreUnchecked(fmt: Formats)
    ensures !LinkValid(fmt, DefaultLinkForm)
  {
  }

  /** With an email check that rejects the empty string, as any email format
      does, the form's initial empty email makes it invalid whatever names
      are typed: the optional email only accepts a missing value, and the
      form always holds a string. */
  lemma EmptyEmailBlocksForm(fmt: Formats, firstName: string, lastName: string)
    requires !fmt.isEmail("")
    ensures !PersonalInfoValid(fmt, PersonalInfo(firstName, lastName, Some("")))
  {
    assert [Field("email")] in PersonalInfoIssues(fmt, PersonalInfo(firstName, lastName, Some("")));
  }

  /** A draft link stamped with the id of the resume just created. */
  datatype StampedLink = StampedLink(linkLabel: string, url: string, linkType: LinkType, resumeId: string)

  function Unstamp(s: StampedLink): RawPersonalLink {
    RawPersonalLink(s.linkLabel, s.url, s.linkType)
  }

  /** `links.map(link => ({...link, resumeId}))`: the same drafts, in the same
      order, each carrying the resume id. */
  function Stamp(links: seq<RawPersonalLink>, resumeId: string): (r: seq<StampedLink>)
    ensures |r| == |links|
    ensures forall i :: 0 <= i < |r| ==> Unstamp(r[i]) == links[i] && r[i].resumeId == resumeId
  {
    seq(|links|, i requires 0 <= i < |links| =>
      StampedLink(links[i].linkLabel, links[i].url, links[i].linkType, resumeId))
  }

  /** `filter((_, i) => i !== index)` walked as written; `offset` is the
      position of `s[0]` in the whole list. */
  function FilterOutIndex(s: seq<RawPersonalLink>, index: int, offset: int): seq<RawPersonalLink>
  {
    if s == [] then []
    else (if offset != index then [s[0]] else []) + FilterOutIndex(s[1..], index, offset + 1)
  }

  function WithoutIndex(links: seq<RawPersonalLink>, index: int): seq<RawPersonalLink> {
    FilterOutIndex(links, index, 0)
  }

  lemma {:induction false} FilterOutIndexSlices(s: seq<RawPersonalLink>, index: int, offset: int)
    ensures FilterOutIndex(s, index, offset)
            == if offset <= index < offset + |s|
               then s[..index - offset] + s[index - offset + 1..]
               else s
  {
    if s != [] {
      FilterOutIndexSlices(s[1..], index, offset + 1);
      if offset == index {
        assert s[..0] + s[1..] == s[1..];
      } else if offset < index < offset + |s| {
        assert [s[0]] + (s[1..][..index - offset - 1] + s[1..][index - offset..])
               == s[..index - offset] + s[index - offset + 1..];
      } else {
        assert [s[0]] + s[1..] == s;
      }
    }
  }

  /** Removing by index drops exactly the entry at that index and keeps the
      rest in order; an index outside the list changes nothing. */
  lemma RemoveByIndex(links: seq<RawPersonalLink>, index: int)
    ensures 0 <= index < |links| ==> WithoutIndex(links, index) == links[..index] + links[index + 1..]
    ensures 0 <= index < |links| ==> |WithoutIndex(links, index)| == |links| - 1
    ensures !(0 <= index < |links|) ==> WithoutIndex(links, index) == links
  {
    FilterOutIndexSlices(links, index, 0);
  }

  /** Removing the entry just pushed restores the list. */
  lemma PushThenRemove(links: seq<RawPersonalLink>, l: RawPersonalLink)
    ensures WithoutIndex(links + [l], |links|) == links
  {
    FilterOutIndexSlices(links + [l], |links|, 0);
    assert (links + [l])[..|links|] == links;
  }

  /** What the parent renders inside the Wizard, by the parent's own page:
      page 0 the personal information, page 1 the links, any other page nothing. */
  datatype Content = PersonalInformation | PersonalLinks | Blank

  function PageContent(page: int): (c: Content)
    ensures c == PersonalInformation <==> page == 0
    ensures c == PersonalLinks <==> page == 1
  {
    if page == 0 then PersonalInformation else if page == 1 then PersonalLinks else Blank
  }

  /** What a handler returned and the parent page it left behind. */
  datatype Guarded = Guarded(result: bool, page: int)

  /** The parent's `onNext`, given the page the Wizard passes it. Only the
      Wizard's first page is guarded, by the form's validity, and only there
      does the parent page move. */
  function OnNextAsWritten(page: int, wizardPage: int, formValid: bool): (g: Guarded)
    ensures wizardPage == 0 ==> (g.result <==> formValid)
    ensures wizardPage == 0 && formValid ==> g.page == 1
    ensures wizardPage != 0 ==> g == Guarded(true, page)
    ensures !g.result ==> g.page == page
  {
    if wizardPage == 0 then
      if formValid then Guarded(true, wizardPage + 1) else Guarded(false, page)
    else Guarded(true, page)
  }

  /** `onNext` as the page layout needs it: the same guard, and the parent
      page follows the Wizard forward on every page. */
  function OnNextSynced(page: int, wizardPage: int, formValid: bool): (g: Guarded)
    ensures g.result <==> wizardPage != 0 || formValid
    ensures g.result ==> g.page == wizardPage + 1
    ensures !g.result ==> g.page == page
  {
    if wizardPage == 0 && !formValid then Guarded(false, page) else Guarded(true, wizardPage + 1)
  }

  /** The parent's `onBack`: always agrees, and steps its own page back. */
  function BackGuard(page: int): Guarded {
    Guarded(true, page - 1)
  }

  /** Which `onNext` the parent uses, and whether the Wizard clears its
      loading flag once a back press has been handled. */
  datatype Variant = Variant(syncParentPage: bool, releaseLoading: bool)

  const AsWritten: Variant := Variant(false, false)
  const Corrected: Variant := Variant(true, true)

  /** The Wizard's state together with the parent's page. */
  datatype Flow = Flow(wizard: W.State, page: int)

  /** A press of the primary button, with the form's validity at that moment,
      or of the back/cancel button. */
  datatype Press = Primary(formValid: bool) | Secondary

  function FlowInitial(): Flow {
    Flow(W.Initial(Some(0)), 0)
  }

  function FlowPrimary(v: Variant, f: Flow, formValid: bool): Flow {
    if W.IsLastPage(f.wizard, NumPages) then
      // onSubmit logs, returns true and changes nothing
      Flow(W.AfterPrimaryPress(f.wizard, NumPages, W.Outcome(true, None)), f.page)
    else
      var g := if v.syncParentPage then OnNextSynced(f.page, f.wizard.page, formValid)
               else OnNextAsWritten(f.page, f.wizard.page, formValid);
      Flow(W.AfterPrimaryPress(f.wizard, NumPages, W.Outcome(g.result, None)), g.page)
  }

  function FlowSecondary(v: Variant, f: Flow): Flow {
    if W.SecondaryDisabled(f.wizard) then f
    else
      var g := BackGuard(f.page);
      var o := W.Outcome(g.result, None);
      var w := if v.releaseLoading then W.AfterSecondaryPressReleasing(f.wizard, o)
               else W.AfterSecondaryPress(f.wizard, o);
      Flow(w, g.page)
  }

  function FlowStep(v: Variant, f: Flow, p: Press): Flow {
    match p
    case Primary(valid) => FlowPrimary(v, f, valid)
    case Secondary => FlowSecondary(v, f)
  }

  function FlowRun(v: Variant, f: Flow, ps: seq<Press>): Flow
    decreases |ps|
  {
    if ps == [] then f else FlowRun(v, FlowStep(v, f, ps[0]), ps[1..])
  }

  /** What the user sees inside the Wizard: a spinner while it is loading,
      otherwise the content of the parent's page. */
  datatype View = Spinner | Shows(content: Content)

  function Rendered(f: Flow): View {
    if W.ShowsChildren(f.wizard) then Shows(PageContent(f.page)) else Spinner
  }

  /** The form leaves the Wizard's first page only through a primary press
      made while the personal information is valid. */
  lemma LeavesFirstPageOnlyWhenValid(f: Flow, p: Press)
    requires f.wizard.page == 0
    requires FlowStep(AsWritten, f, p).wizard.page != 0
    ensures p == Primary(true)
  {
  }

  ghost predicate AsWrittenInvariant(f: Flow) {
    0 <= f.wizard.page <= NumPages - 1 && f.page <= f.wizard.page
  }

  lemma {:induction false} AsWrittenInvariantKept(f: Flow, ps: seq<Press>)
    requires AsWrittenInvariant(f)
    ensures AsWrittenInvariant(FlowRun(AsWritten, f, ps))
    decreases |ps|
  {
    if ps != [] {
      AsWrittenInvariantKept(FlowStep(AsWritten, f, ps[0]), ps[1..]);
    }
  }

  /** As written, the Wizard stays on its three pages and the parent's page
      never runs ahead of the Wizard's, though it may fall behind. */
  lemma ParentNeverAhead(ps: seq<Press>)
    ensures var f := FlowRun(AsWritten, FlowInitial(), ps);
            0 <= f.wizard.page <= NumPages - 1 && f.page <= f.wizard.page
  {
    AsWrittenInvariantKept(FlowInitial(), ps);
  }

  lemma {:induction false} FlowLoadingSticks(f: Flow, ps: seq<Press>)
    requires f.wizard.isLoading
    ensures FlowRun(AsWritten, f, ps).wizard.isLoading
    decreases |ps|
  {
    if ps != [] {
      FlowLoadingSticks(FlowStep(AsWritten, f, ps[0]), ps[1..]);
    }
  }

  /** As written, one valid Next followed by Back replaces the form with the
      spinner, and no later press brings it back: none of the parent's
      handlers clears the flag the back button set. */
  lemma BackLeavesSpinner(ps: seq<Press>)
    ensures Rendered(FlowRun(AsWritten, FlowInitial(), [Primary(true), Secondary] + ps)) == Spinner
  {
    var f1 := FlowStep(AsWritten, FlowInitial(), Primary(true));
    var f2 := FlowStep(AsWritten, f1, Secondary);
    assert f2.wizard.isLoading;
    assert FlowRun(AsWritten, FlowInitial(), [Primary(true), Secondary] + ps)
           == FlowRun(AsWritten, f2, ps) by {
      var t := [Primary(true), Secondary] + ps;
      assert t[0] == Primary(true) && t[1..][0] == Secondary && t[1..][1..] == ps;
    }
    FlowLoadingSticks(f2, ps);
  }

  /** As written, the parent's page drifts from the Wizard's: Next, Next,
      Back, Back returns the Wizard to its first page with the parent on page
      -1, which has no content. The spinner left by the first Back hides it. */
  lemma ParentPageDrifts(valid: bool)
    ensures FlowRun(AsWritten, FlowInitial(), [Primary(true), Primary(valid), Secondary, Secondary])
            == Flow(W.State(0, true), -1)
    ensures PageContent(-1) == Blank
  {
    var t := [Primary(true), Primary(valid), Secondary, Secondary];
    var f1 := FlowStep(AsWritten, FlowInitial(), t[0]);
    assert f1 == Flow(W.State(1, false), 1);
    var f2 := FlowStep(AsWritten, f1, t[1]);
    assert f2 == Flow(W.State(2, false), 1);
    var f3 := FlowStep(AsWritten, f2, t[2]);
    assert f3 == Flow(W.State(1, true), 0);
    var f4 := FlowStep(AsWritten, f3, t[3]);
    assert f4 == Flow(W.State(0, true), -1);
    assert t[1..][1..][1..][1..] == [];
    calc {
      FlowRun(AsWritten, FlowInitial(), t);
      FlowRun(AsWritten, f1, t[1..]);
      FlowRun(AsWritten, f2, t[1..][1..]);
      FlowRun(AsWritten, f3, t[1..][1..][1..]);
      FlowRun(AsWritten, f4, t[1..][1..][1..][1..]);
      f4;
    }
  }

  /** The drift the user can see. As written, Next (valid) then Next leaves
      the links on screen while the Wizard is on its last, "Submit", page.
      With the loading flag cleared after back but `onNext` still as written,
      Next (valid), Next, Back shows the personal information while the
      Wizard is on page 1. */
  lemma ParentPageLagsVisibly(valid: bool)
    ensures var f := FlowRun(AsWritten, FlowInitial(), [Primary(true), Primary(valid)]);
            f.wizard == W.State(2, false) && W.PrimaryLabel(f.wizard, NumPages) == "Submit"
            && Rendered(f) == Shows(PersonalLinks)
    ensures var f := FlowRun(Variant(false, true), FlowInitial(), [Primary(true), Primary(valid), Secondary]);
            f.wizard == W.State(1, false) && Rendered(f) == Shows(PersonalInformation)
  {
    var t := [Primary(true), Primary(valid)];
    var f1 := FlowStep(AsWritten, FlowInitial(), t[0]);
    assert f1 == Flow(W.State(1, false), 1);
    var f2 := FlowStep(AsWritten, f1, t[1]);
    assert f2 == Flow(W.State(2, false), 1);
    assert t[1..][1..] == [];
    calc {
      FlowRun(AsWritten, FlowInitial(), t);
      FlowRun(AsWritten, f1, t[1..]);
      FlowRun(AsWritten, f2, t[1..][1..]);
      f2;
    }

    var v := Variant(false, true);
    var u := [Primary(true), Primary(valid), Secondary];
    var g1 := FlowStep(v, FlowInitial(), u[0]);
    assert g1 == Flow(W.State(1, false), 1);
    var g2 := FlowStep(v, g1, u[1]);
    assert g2 == Flow(W.State(2, false), 1);
    var g3 := FlowStep(v, g2, u[2]);
    assert g3 == Flow(W.State(1, false), 0);
    assert u[1..][1..][1..] == [];
    calc {
      FlowRun(v, FlowInitial(), u);
      FlowRun(v, g1, u[1..]);
      FlowRun(v, g2, u[1..][1..]);
      FlowRun(v, g3, u[1..][1..][1..]);
      g3;
    }
  }

  ghost predicate CorrectedInvariant(f: Flow) {
    0 <= f.wizard.page <= NumPages - 1 && f.page == f.wizard.page && !f.wizard.isLoading
  }

  lemma {:induction false} CorrectedInvariantKept(f: Flow, ps: seq<Press>)
    requires CorrectedInvariant(f)
    ensures CorrectedInvariant(FlowRun(Corrected, f, ps))
    decreases |ps|
  {
    if ps != [] {
      CorrectedInvariantKept(FlowStep(Corrected, f, ps[0]), ps[1..]);
    }
  }

  /** With the parent page following the Wizard and the loading flag cleared
      after back, every press sequence leaves the content of the Wizard's own
      page on screen. */
  lemma CorrectedShowsWizardPage(ps: seq<Press>)
    ensures var f := FlowRun(Corrected, FlowInitial(), ps);
            0 <= f.wizard.page <= NumPages - 1 && Rendered(f) == Shows(PageContent(f.wizard.page))
  {
    CorrectedInvariantKept(FlowInitial(), ps);
  }

  /** The parent component's state. */
  class CreateResume {
    var page: int
    var personalLinks: seq<RawPersonalLink>
    var resumeForm: PersonalInfo

    constructor ()
      ensures page == 0 && personalLinks == [] && resumeForm == EmptyPersonalInfo
    {
      page := 0;
      personalLinks := [];
      resumeForm := EmptyPersonalInfo;
    }

    /** Typing into the personal-information form. */
    method EditResumeForm(v: PersonalInfo)
      modifies this`resumeForm
      ensures resumeForm == v
    {
      resumeForm := v;
    }

    /** The list setter handed to the links page. */
    method SetPersonalLinks(links: seq<RawPersonalLink>)
      modifies this`personalLinks
      ensures personalLinks == links
    {
      personalLinks := links;
    }

    /** `onCancel` agrees and changes nothing. */
    method OnCancel() returns (r: bool)
      ensures r
    {
      r := true;
    }

    method OnBack() returns (r: bool)
      modifies this`page
      ensures Guarded(r, page) == BackGuard(old(page))
    {
      page := page - 1;
      r := true;
    }

    method OnNext(fmt: Formats, wizardPage: int) returns (r: bool)
      modifies this`page
      ensures Guarded(r, page) == OnNextAsWritten(old(page), wizardPage, PersonalInfoValid(fmt, resumeForm))
    {
      if wizardPage == 0 {
        if PersonalInfoValid(fmt, resumeForm) {
          page := wizardPage + 1;
          return true;
        }
        return false;
      }
      return true;
    }

    /** `onSubmit` agrees and changes nothing; it starts no mutation. */
    method OnSubmit() returns (r: bool)
      ensures r
    {
      r := true;
    }

    /** The success handler of the resume mutation: the personal-information
        fields are emptied, and when there are drafts, the batch sent to
        create them is returned. The drafts themselves stay. */
    method OnResumeCreated(resumeId: string) returns (batch: Option<seq<StampedLink>>)
      modifies this`resumeForm
      ensures resumeForm == EmptyPersonalInfo
      ensures batch == (if personalLinks == [] then None else Some(Stamp(personalLinks, resumeId)))
    {
      resumeForm := resumeForm.(firstName := "");
      resumeForm := resumeForm.(lastName := "");
      resumeForm := resumeForm.(email := Some(""));
      if |personalLinks| > 0 {
        batch := Some(Stamp(personalLinks, resumeId));
      } else {
        batch := None;
      }
    }
  }

  /** The links page: its own copy of the drafts, the link form and the type
      picker. It writes every new list to itself and to the parent. */
  class PersonalLinksPage {
    const parent: CreateResume
    const typePicker: C.Combobox
    var personalLinks: seq<RawPersonalLink>
    var linkForm: RawPersonalLink

    /** Mounting copies the parent's list and sets up the picker on "other". */
    constructor (parent: CreateResume)
      ensures this.parent == parent && personalLinks == parent.personalLinks
      ensures linkForm == DefaultLinkForm
      ensures fresh(typePicker) && typePicker.options == LinkTypeOptions
      ensures typePicker.value == "other" && !typePicker.open
    {
      this.parent := parent;
      personalLinks := parent.personalLinks;
      linkForm := DefaultLinkForm;
      typePicker := new C.Combobox(LinkTypeOptions, Some("Select a type"), Some(LinkTypeName(Other)));
    }

    ghost predicate OnlyOtherTypes()
      reads this
    {
      linkForm.linkType == Other && forall l :: l in personalLinks ==> l.linkType == Other
    }

    method PushPersonalLink(link: RawPersonalLink)
      modifies this`personalLinks, parent`personalLinks
      ensures personalLinks == old(personalLinks) + [link]
      ensures parent.personalLinks == personalLinks
    {
      var newLinks := personalLinks + [link];
      personalLinks := newLinks;
      parent.SetPersonalLinks(newLinks);
    }

    method RemovePersonalLink(index: int)
      modifies this`personalLinks, parent`personalLinks
      ensures personalLinks == WithoutIndex(old(personalLinks), index)
      ensures parent.personalLinks == personalLinks
      ensures old(OnlyOtherTypes()) ==> OnlyOtherTypes()
    {
      var newLinks := WithoutIndex(personalLinks, index);
      RemoveByIndex(personalLinks, index);
      personalLinks := newLinks;
      parent.SetPersonalLinks(newLinks);
    }

    method EditLabel(text: string)
      modifies this`linkForm
      ensures linkForm == old(linkForm).(linkLabel := text)
      ensures old(OnlyOtherTypes()) ==> OnlyOtherTypes()
    {
      linkForm := linkForm.(linkLabel := text);
    }

    method EditUrl(text: string)
      modifies this`linkForm
      ensures linkForm == old(linkForm).(url := text)
      ensures old(OnlyOtherTypes()) ==> OnlyOtherTypes()
    {
      linkForm := linkForm.(url := text);
    }

    /** Choosing a type changes only the picker: the form's type stays. */
    method PickType(option: string)
      modifies typePicker
      ensures typePicker.value == C.Toggle(old(typePicker.value), option) && !typePicker.open
    {
      typePicker.OnSelect(option);
    }

    /** Adding a link: the form's values are pushed unvalidated, then the
        form is reset. Since the picker never reports a choice, every link
        added this way has type "other". */
    method SubmitLinkForm()
      modifies this`personalLinks, this`linkForm, parent`personalLinks
      ensures personalLinks == old(personalLinks) + [old(linkForm)]
      ensures parent.personalLinks == personalLinks
      ensures linkForm == DefaultLinkForm
      ensures old(OnlyOtherTypes()) ==> OnlyOtherTypes()
    {
      PushPersonalLink(linkForm);
      linkForm := linkForm.(linkLabel := "");
      linkForm := linkForm.(url := "");
      linkForm := linkForm.(linkType := Other);
    }
  }

  /** A press of the Wizard's primary button with this parent's handlers. */
  method PressPrimary(w: W.Wizard, c: CreateResume, fmt: Formats)
    requires w.numPages == NumPages
    modifies w, c`page
    ensures Flow(w.Snapshot(), c.page)
            == FlowPrimary(AsWritten, Flow(old(w.Snapshot()), old(c.page)), PersonalInfoValid(fmt, c.resumeForm))
  {
    if w.page == w.numPages - 1 {
      var r := c.OnSubmit();
      w.OnSubmit(W.Outcome(r, None));
    } else {
      var r := c.OnNext(fmt, w.page);
      w.OnNext(W.Outcome(r, None));
    }
  }

  /** A press of the Wizard's back/cancel button with this parent's handlers. */
  method PressSecondary(w: W.Wizard, c: CreateResume)
    modifies w, c`page
    ensures Flow(w.Snapshot(), c.page) == FlowSecondary(AsWritten, Flow(old(w.Snapshot()), old(c.page)))
  {
    if w.page != 0 {
      var r := c.OnBack();
      w.ClickSecondary(W.Outcome(r, None));
    }
  }
}
