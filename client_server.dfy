/** How the resume wizard's drafts meet the personal-link router: the two
    type lists, and the batch the wizard's resume-created handler sends. */
module ClientServer {
  import opened Common
  import CR = CreateResume
  import PL = PersonalLinkRouter

  /** The wizard and the router accept the same ten type names, listed in
      different orders. */
  lemma TypeListsAgree()
    ensures forall s :: s in CR.LinkTypeOptions <==> s in PL.AcceptedTypes
    ensures CR.LinkTypeOptions != PL.AcceptedTypes
  {
    assert CR.LinkTypeOptions[7] != PL.AcceptedTypes[7];
  }

  /** Every type a draft can carry is one the router accepts. */
  lemma DraftTypesAccepted(t: LinkType)
    ensures LinkTypeName(t) in PL.AcceptedTypes
  {
    CR.LinkTypeOptionsAreTheTypes();
    TypeListsAgree();
  }

  /** The object `{...link, resumeId}` that the wizard builds for a draft,
      seen through the keys the router reads: it has no `name` key, since
      the draft's text travels under `label`. */
  function AsLinkRequest(s: CR.StampedLink): (q: PL.LinkRequest)
    ensures q.name.None?
  {
    PL.LinkRequest(Some(s.resumeId), None, Some(s.url), Some(LinkTypeName(s.linkType)))
  }

  /** No stamped draft passes the router's `create` schema, whatever its
      contents, and the router has no `createMany` for the batch at all. */
  lemma StampedDraftsRejected(fmt: Formats, links: seq<CR.RawPersonalLink>, resumeId: string)
    ensures forall s :: s in CR.Stamp(links, resumeId) ==> PL.ParseLinkRequest(fmt, AsLinkRequest(s)).Err?
    ensures "createMany" !in PL.Procedures
  {
  }
}
