/** The personal-link router: `create` and `getLinksFor`, and nothing else.
    Inputs are modelled as the objects a client sends, one optional string
    per key, so that a missing key can be told from an empty one. */
module PersonalLinkRouter {
  import opened Common
  import opened Store

  /** The procedures the router defines. */
  const Procedures: set<string> := {"create", "getLinksFor"}

  /** The types `create` accepts, in the order its enum lists them. */
  const AcceptedTypes: seq<string> :=
    ["github", "linkedin", "twitter", "facebook", "instagram",
     "youtube", "twitch", "website", "discord", "other"]

  /** The object sent to `create`; None is a key the object lacks. */
  datatype LinkRequest = LinkRequest(
    resumeId: Option<string>,
    name: Option<string>,
    url: Option<string>,
    linkType: Option<string>)

  /** The input once the schema has accepted it. */
  datatype LinkInput = LinkInput(resumeId: string, name: string, url: string, linkType: string)

  /** A required, non-empty string key. */
  function NonEmptyIssues(key: string, v: Option<string>): seq<Path> {
    if v.Some? && |v.value| >= 1 then [] else [[Field(key)]]
  }

  /** The paths `create`'s schema rejects: every key is required; resumeId
      and name must be non-empty; url must be a URL and non-empty (each
      failure reported); type must be one of the ten names. */
  function LinkRequestIssues(fmt: Formats, q: LinkRequest): seq<Path> {
    NonEmptyIssues("resumeId", q.resumeId)
    + NonEmptyIssues("name", q.name)
    + (if q.url.None? then [[Field("url")]]
       else (if fmt.isUrl(q.url.value) then [] else [[Field("url")]])
            + (if |q.url.value| >= 1 then [] else [[Field("url")]]))
    + (if q.linkType.Some? && q.linkType.value in AcceptedTypes then [] else [[Field("type")]])
  }

  /** Parsing the object: accepted exactly when every key is present, the
      strings are non-empty, the URL is well formed and the type is one of
      the accepted names; the accepted input carries the object's values. */
  function ParseLinkRequest(fmt: Formats, q: LinkRequest): (r: Result<LinkInput>)
    ensures r.Ok? <==> q.resumeId.Some? && q.resumeId.value != ""
                       && q.name.Some? && q.name.value != ""
                       && q.url.Some? && q.url.value != "" && fmt.isUrl(q.url.value)
                       && q.linkType.Some? && q.linkType.value in AcceptedTypes
    ensures r.Ok? ==> q == LinkRequest(Some(r.value.resumeId), Some(r.value.name),
                                       Some(r.value.url), Some(r.value.linkType))
    ensures r.Err? ==> r.error == Invalid(LinkRequestIssues(fmt, q))
    ensures q.name.None? ==> r.Err? && [Field("name")] in r.error.issues
  {
    var issues := LinkRequestIssues(fmt, q);
    if issues == [] then Ok(LinkInput(q.resumeId.value, q.name.value, q.url.value, q.linkType.value))
    else Err(Invalid(issues))
  }

  /** `create`: the stored link copies exactly the four input fields, under
      the id the store picked. */
  function Create(fmt: Formats, db: Db, newId: string, q: LinkRequest): (r: Result<(Db, PersonalLink)>)
    ensures r.Ok? <==> ParseLinkRequest(fmt, q).Ok?
    ensures r.Ok? ==> var i := ParseLinkRequest(fmt, q).value;
      r.value.1 == PersonalLink(newId, i.resumeId, i.name, i.url, i.linkType)
    ensures r.Ok? ==> r.value.0 == db.(links := db.links + [r.value.1])
  {
    match ParseLinkRequest(fmt, q)
    case Err(e) => Err(e)
    case Ok(i) =>
      var row := PersonalLink(newId, i.resumeId, i.name, i.url, i.linkType);
      Ok((db.(links := db.links + [row]), row))
  }

  /** `getLinksFor`: an empty resume id is refused; otherwise exactly the
      links of that resume, in store order. */
  function GetLinksFor(db: Db, resumeId: string): (r: Result<seq<PersonalLink>>)
    ensures r.Err? <==> resumeId == ""
    ensures r.Ok? ==> forall l :: l in r.value <==> l in db.links && l.resumeId == resumeId
  {
    if |resumeId| >= 1 then Ok(LinksOf(db.links, resumeId)) else Err(Invalid([[Field("resumeId")]]))
  }

  /** A link `create` stores can be read back through `getLinksFor`. */
  lemma CreatedLinkIsListed(fmt: Formats, db: Db, newId: string, q: LinkRequest)
    requires Create(fmt, db, newId, q).Ok?
    ensures var (db', row) := Create(fmt, db, newId, q).value;
            GetLinksFor(db', row.resumeId).Ok? && row in GetLinksFor(db', row.resumeId).value
  {
  }
}
