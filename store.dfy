/** The relational store behind the routers, as two sequences of rows.
    Row identities are assigned by the store; the routers only read them. */
module Store {
  import opened Common

  datatype Resume = Resume(
    id: string,
    firstName: string,
    lastName: string,
    email: Option<string>,
    userId: string)

  /** A stored personal link. Its type is kept as the string the router accepted. */
  datatype PersonalLink = PersonalLink(
    id: string,
    resumeId: string,
    name: string,
    url: string,
    linkType: string)

  datatype Db = Db(resumes: seq<Resume>, links: seq<PersonalLink>)

  function ResumeIds(rs: seq<Resume>): set<string> {
    set r | r in rs :: r.id
  }

  predicate HasResume(db: Db, id: string) {
    id in ResumeIds(db.resumes)
  }

  /** The store's uniqueness constraint on resume ids. */
  predicate UniqueIds(rs: seq<Resume>) {
    forall i, j :: 0 <= i < j < |rs| ==> rs[i].id != rs[j].id
  }

  /** The first stored resume with this id. */
  function FindResume(rs: seq<Resume>, id: string): (r: Option<Resume>)
    ensures r.Some? <==> id in ResumeIds(rs)
    ensures r.Some? ==> r.value in rs && r.value.id == id
  {
    if rs == [] then None
    else if rs[0].id == id then Some(rs[0])
    else FindResume(rs[1..], id)
  }

  /** The links that belong to one resume, in store order. */
  function LinksOf(links: seq<PersonalLink>, resumeId: string): (r: seq<PersonalLink>)
    ensures forall l :: l in r <==> l in links && l.resumeId == resumeId
  {
    Filter(links, (l: PersonalLink) => l.resumeId == resumeId)
  }
}
