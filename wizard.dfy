/** The multi-page `Wizard` component: a page index and a loading flag,
    changed by four caller-supplied handlers (cancel, back, next, submit)
    that two buttons and a child shortcut reach.

    The pure functions below say what one step does to the state; the class
    `Wizard` holds the component's state in fields and its methods are proved
    to take exactly those steps. */
module Wizard {
  import opened Common

  /** What a caller-supplied handler did when the Wizard awaited it: the
      boolean it resolved to, and the last value it passed to the
      `setIsLoading` it was handed (None when it never called it). */
  datatype Outcome = Outcome(result: bool, setLoading: Option<bool>)

  datatype State = State(page: int, isLoading: bool)

  /** The caller's handler that a button press invokes. */
  datatype Handler = NoHandler | CancelHandler | BackHandler | NextHandler | SubmitHandler

  /** The two buttons, each pressed with the outcome of the handler it reaches. */
  datatype Press = Secondary(o: Outcome) | Primary(o: Outcome)

  /** The state on mount: the page the caller passes, 0 without one; not loading. */
  function Initial(propsPage: Option<int>): (s: State)
    ensures !s.isLoading
    ensures s.page == (if propsPage.Some? then propsPage.value else 0)
  {
    State(propsPage.GetOr(0), false)
  }

  /** The loading flag after a handler ran, starting from `loading`. */
  function LoadingAfter(loading: bool, o: Outcome): bool {
    o.setLoading.GetOr(loading)
  }

  function AfterCancel(s: State, o: Outcome): (r: State)
    ensures o.result ==> r.page == 0
    ensures !o.result ==> r.page == s.page
    ensures r.isLoading == LoadingAfter(s.isLoading, o)
  {
    State(if o.result then 0 else s.page, LoadingAfter(s.isLoading, o))
  }

  function AfterBack(s: State, o: Outcome): (r: State)
    ensures r.page == s.page - 1 <==> o.result
    ensures !o.result ==> r.page == s.page
    ensures r.isLoading == LoadingAfter(s.isLoading, o)
  {
    State(if o.result then s.page - 1 else s.page, LoadingAfter(s.isLoading, o))
  }

  function AfterNext(s: State, o: Outcome): (r: State)
    ensures r.page == s.page + 1 <==> o.result
    ensures !o.result ==> r.page == s.page
    ensures r.isLoading == LoadingAfter(s.isLoading, o)
  {
    State(if o.result then s.page + 1 else s.page, LoadingAfter(s.isLoading, o))
  }

  /** Submitting awaits the handler and ignores what it resolved to. */
  function AfterSubmit(s: State, o: Outcome): (r: State)
    ensures r.page == s.page
    ensures r.isLoading == LoadingAfter(s.isLoading, o)
  {
    State(s.page, LoadingAfter(s.isLoading, o))
  }

  predicate IsLastPage(s: State, numPages: int) {
    s.page == numPages - 1
  }

  /** The back/cancel button is disabled on the first page. */
  predicate SecondaryDisabled(s: State) {
    s.page == 0
  }

  function SecondaryLabel(s: State): string {
    if s.page == 0 then "Cancel" else "Back"
  }

  function PrimaryLabel(s: State, numPages: int): string {
    if IsLastPage(s, numPages) then "Submit" else "Next"
  }

  /** The handler the back/cancel button's click handler calls. */
  function SecondaryClickHandler(s: State): Handler {
    if s.page == 0 then CancelHandler else BackHandler
  }

  /** The handler a press of the back/cancel button reaches: since the button
      is disabled exactly where its click handler would cancel, cancel is
      never reached from the buttons. */
  function SecondaryPressHandler(s: State): (h: Handler)
    ensures h != CancelHandler
    ensures h == BackHandler <==> s.page != 0
    ensures h == NoHandler <==> s.page == 0
  {
    if SecondaryDisabled(s) then NoHandler else SecondaryClickHandler(s)
  }

  /** The handler a press of the primary button reaches. */
  function PrimaryPressHandler(s: State, numPages: int): (h: Handler)
    ensures h == SubmitHandler <==> IsLastPage(s, numPages)
    ensures h == NextHandler <==> !IsLastPage(s, numPages)
  {
    if IsLastPage(s, numPages) then SubmitHandler else NextHandler
  }

  /** The back/cancel click handler as written: it turns loading on, then
      awaits cancel on the first page and back elsewhere. */
  function SecondaryClick(s: State, o: Outcome): State {
    var busy := State(s.page, true);
    if s.page == 0 then AfterCancel(busy, o) else AfterBack(busy, o)
  }

  /** A press of the back/cancel button. Nothing happens while it is
      disabled; otherwise back runs with loading turned on first, and the
      Wizard never turns loading off itself. */
  function AfterSecondaryPress(s: State, o: Outcome): (r: State)
    ensures SecondaryDisabled(s) ==> r == s
    ensures !SecondaryDisabled(s) ==> r.isLoading == o.setLoading.GetOr(true)
    ensures !SecondaryDisabled(s) ==> (r.page == s.page - 1 <==> o.result)
    ensures r.page == s.page || r.page == s.page - 1
  {
    if SecondaryDisabled(s) then s else SecondaryClick(s, o)
  }

  /** The back/cancel press as a busy flag needs it: the flag is cleared
      once the handler has resolved, so the content comes back. */
  function AfterSecondaryPressReleasing(s: State, o: Outcome): (r: State)
    ensures SecondaryDisabled(s) ==> r == s
    ensures !SecondaryDisabled(s) ==> !r.isLoading && ShowsChildren(r)
    ensures r.page == AfterSecondaryPress(s, o).page
  {
    if SecondaryDisabled(s) then s else AfterSecondaryPress(s, o).(isLoading := false)
  }

  /** Each button's label names what pressing it does: the primary button
      reads "Submit" exactly where it reaches submit and "Next" where it
      reaches next; the other reads "Cancel" exactly where it is disabled
      and "Back" exactly where it reaches back. */
  lemma ButtonLabels(s: State, numPages: int)
    ensures PrimaryLabel(s, numPages) == "Submit" <==> PrimaryPressHandler(s, numPages) == SubmitHandler
    ensures PrimaryLabel(s, numPages) == "Next" <==> PrimaryPressHandler(s, numPages) == NextHandler
    ensures SecondaryLabel(s) == "Cancel" <==> SecondaryPressHandler(s) == NoHandler
    ensures SecondaryLabel(s) == "Back" <==> SecondaryPressHandler(s) == BackHandler
  {
  }

  /** A press of the primary button: submit on the last page, which never
      moves the page; next elsewhere, which moves one page forward exactly
      when the handler resolved to true. The flag changes only through the
      handler's own `setIsLoading`. */
  function AfterPrimaryPress(s: State, numPages: int, o: Outcome): (r: State)
    ensures IsLastPage(s, numPages) ==> r.page == s.page
    ensures !IsLastPage(s, numPages) ==> (r.page == s.page + 1 <==> o.result)
    ensures r.page == s.page || r.page == s.page + 1
    ensures r.isLoading == LoadingAfter(s.isLoading, o)
  {
    if IsLastPage(s, numPages) then AfterSubmit(s, o) else AfterNext(s, o)
  }

  /** The `next()` handed to the child: one page forward, with no handler
      and no check against the number of pages. */
  function AfterChildNext(s: State): State {
    State(s.page + 1, s.isLoading)
  }

  /** While loading, a spinner replaces the child content. */
  predicate ShowsChildren(s: State) {
    !s.isLoading
  }

  function Step(s: State, numPages: int, p: Press): State {
    match p
    case Secondary(o) => AfterSecondaryPress(s, o)
    case Primary(o) => AfterPrimaryPress(s, numPages, o)
  }

  /** The state after a sequence of button presses. */
  function Run(s: State, numPages: int, ps: seq<Press>): State
    decreases |ps|
  {
    if ps == [] then s else Run(Step(s, numPages, ps[0]), numPages, ps[1..])
  }

  predicate InRange(s: State, numPages: int) {
    0 <= s.page <= numPages - 1
  }

  /** Button presses alone keep the page within `0 .. numPages-1`. */
  lemma {:induction false} ButtonsKeepRange(s: State, numPages: int, ps: seq<Press>)
    requires InRange(s, numPages)
    ensures InRange(Run(s, numPages, ps), numPages)
    decreases |ps|
  {
    if ps != [] {
      ButtonsKeepRange(Step(s, numPages, ps[0]), numPages, ps[1..]);
    }
  }

  /** Handlers that never call `setIsLoading` can never clear the flag:
      once loading, the Wizard stays loading whatever is pressed. */
  lemma {:induction false} LoadingSticks(s: State, numPages: int, ps: seq<Press>)
    requires s.isLoading
    requires forall k :: 0 <= k < |ps| ==> ps[k].o.setLoading.None?
    ensures Run(s, numPages, ps).isLoading
    decreases |ps|
  {
    if ps != [] {
      LoadingSticks(Step(s, numPages, ps[0]), numPages, ps[1..]);
    }
  }

  /** The child shortcut ignores the page count: k calls from any page move
      k pages forward, past the last page once k is large enough. */
  function ChildNextTimes(s: State, k: nat): State {
    if k == 0 then s else AfterChildNext(ChildNextTimes(s, k - 1))
  }

  lemma {:induction false} ChildNextUnbounded(s: State, numPages: int, k: nat)
    ensures ChildNextTimes(s, k) == State(s.page + k, s.isLoading)
    ensures s.page + k > numPages - 1 ==> !InRange(ChildNextTimes(s, k), numPages)
  {
    if k > 0 {
      ChildNextUnbounded(s, numPages, k - 1);
    }
  }

  /** One dot per page; dot `i` is marked passed when `i < page`. */
  function ProgressDots(s: State, numPages: int): (dots: seq<bool>)
    ensures |dots| == (if numPages < 0 then 0 else numPages)
    ensures forall i :: 0 <= i < |dots| ==> (dots[i] <==> i < s.page)
  {
    seq(if numPages < 0 then 0 else numPages, i => i < s.page)
  }

  function CountPassed(dots: seq<bool>): nat {
    if dots == [] then 0
    else CountPassed(dots[..|dots| - 1]) + (if dots[|dots| - 1] then 1 else 0)
  }

  /** The number of passed dots is the page clamped to `0 .. numPages`. */
  lemma {:induction false} PassedDotsCount(s: State, numPages: nat)
    ensures CountPassed(ProgressDots(s, numPages))
            == if s.page <= 0 then 0 else if s.page < numPages then s.page else numPages
  {
    if numPages > 0 {
      var dots := ProgressDots(s, numPages);
      PassedDotsCount(s, numPages - 1);
      assert dots[..numPages - 1] == ProgressDots(s, numPages - 1);
    }
  }

  /** The component's state. `numPages` is fixed by the caller; `page` and
      `isLoading` are the two state hooks. */
  class Wizard {
    const numPages: int
    var page: int
    var isLoading: bool

    function Snapshot(): State
      reads this
    {
      State(page, isLoading)
    }

    constructor (propsPage: Option<int>, numPages: int)
      ensures this.numPages == numPages
      ensures Snapshot() == Initial(propsPage)
    {
      this.numPages := numPages;
      page := propsPage.GetOr(0);
      isLoading := false;
    }

    /** The handler's own `setIsLoading` calls, as far as they reach the flag. */
    method ApplyLoading(o: Outcome)
      modifies this`isLoading
      ensures isLoading == LoadingAfter(old(isLoading), o)
    {
      if o.setLoading.Some? {
        isLoading := o.setLoading.value;
      }
    }

    method OnCancel(o: Outcome)
      modifies this
      ensures Snapshot() == AfterCancel(old(Snapshot()), o)
    {
      ApplyLoading(o);
      if o.result {
        page := 0;
      }
    }

    method OnBack(o: Outcome)
      modifies this
      ensures Snapshot() == AfterBack(old(Snapshot()), o)
    {
      ApplyLoading(o);
      if o.result {
        page := page - 1;
      }
    }

    method OnNext(o: Outcome)
      modifies this
      ensures Snapshot() == AfterNext(old(Snapshot()), o)
    {
      ApplyLoading(o);
      if o.result {
        page := page + 1;
      }
    }

    method OnSubmit(o: Outcome)
      modifies this
      ensures Snapshot() == AfterSubmit(old(Snapshot()), o)
    {
      ApplyLoading(o);
    }

    /** The back/cancel button's click handler. */
    method ClickSecondary(o: Outcome)
      modifies this
      ensures Snapshot() == SecondaryClick(old(Snapshot()), o)
    {
      isLoading := true;
      if page == 0 {
        OnCancel(o);
      } else {
        OnBack(o);
      }
    }

    /** A press of the back/cancel button, which is disabled on page 0. */
    method PressSecondary(o: Outcome)
      modifies this
      ensures Snapshot() == AfterSecondaryPress(old(Snapshot()), o)
    {
      if page != 0 {
        ClickSecondary(o);
      }
    }

    /** A press of the primary button. */
    method PressPrimary(o: Outcome)
      modifies this
      ensures Snapshot() == AfterPrimaryPress(old(Snapshot()), numPages, o)
    {
      if page == numPages - 1 {
        OnSubmit(o);
      } else {
        OnNext(o);
      }
    }

    /** The `next()` the child receives. */
    method Next()
      modifies this
      ensures Snapshot() == AfterChildNext(old(Snapshot()))
    {
      page := page + 1;
    }
  }
}
