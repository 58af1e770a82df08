/** The resume routers: `resumeRouter` (`create`, `getMyResumes`) and the
    admin router (`getOne`, `update`, `create`, `deleteOne`, `getList`,
    `getMany`, `createMany`, `deleteMany`). Each procedure is a function from
    the store, the signed-in user's id and the input to a result and, for
    mutations, the new store. The store assigns new row ids; they arrive
    here as parameters. */
module ResumeRouter {
  import opened Common
  import opened Store

  /** The row `create` and `createMany` write before the store adds an id. */
  datatype ResumeData = ResumeData(firstName: string, lastName: string, email: Option<string>, userId: string)

  function InputOf(d: ResumeData): PersonalInfo {
    PersonalInfo(d.firstName, d.lastName, d.email)
  }

  /** What a query selects of a resume: everything but the owner, plus its links. */
  datatype ResumeView = ResumeView(
    id: string,
    firstName: string,
    lastName: string,
    email: Option<string>,
    personalLinks: seq<PersonalLink>)

  function ViewOf(db: Db, r: Resume): (v: ResumeView)
    ensures v.id == r.id
    ensures v.firstName == r.firstName && v.lastName == r.lastName && v.email == r.email
    ensures forall l :: l in v.personalLinks <==> l in db.links && l.resumeId == r.id
  {
    ResumeView(r.id, r.firstName, r.lastName, r.email, LinksOf(db.links, r.id))
  }

  function Views(db: Db, rs: seq<Resume>): seq<ResumeView> {
    seq(|rs|, i requires 0 <= i < |rs| => ViewOf(db, rs[i]))
  }

  /** Validation and record shape of `create` (the admin router's `create`
      has the same schema and body): the row copies the three fields and is
      owned by the caller. */
  function CreateData(fmt: Formats, userId: string, input: PersonalInfo): (r: Result<ResumeData>)
    ensures r.Ok? <==> PersonalInfoValid(fmt, input)
    ensures r.Err? ==> r.error == Invalid(PersonalInfoIssues(fmt, input))
    ensures r.Ok? ==> InputOf(r.value) == input && r.value.userId == userId
  {
    if PersonalInfoValid(fmt, input)
    then Ok(ResumeData(input.firstName, input.lastName, input.email, userId))
    else Err(Invalid(PersonalInfoIssues(fmt, input)))
  }

  function WithId(id: string, d: ResumeData): Resume {
    Resume(id, d.firstName, d.lastName, d.email, d.userId)
  }

  /** `create`: validate, then append the new row under the id the store picked. */
  function Create(fmt: Formats, db: Db, userId: string, newId: string, input: PersonalInfo)
    : (r: Result<(Db, Resume)>)
    ensures r.Ok? <==> PersonalInfoValid(fmt, input)
    ensures r.Ok? ==> r.value.1 == Resume(newId, input.firstName, input.lastName, input.email, userId)
    ensures r.Ok? ==> r.value.0 == db.(resumes := db.resumes + [r.value.1])
  {
    match CreateData(fmt, userId, input)
    case Err(e) => Err(e)
    case Ok(d) => Ok((db.(resumes := db.resumes + [WithId(newId, d)]), WithId(newId, d)))
  }

  /** A new row under an unused id keeps resume ids unique. */
  lemma CreateKeepsIdsUnique(fmt: Formats, db: Db, userId: string, newId: string, input: PersonalInfo)
    requires UniqueIds(db.resumes) && !HasResume(db, newId)
    requires PersonalInfoValid(fmt, input)
    ensures UniqueIds(Create(fmt, db, userId, newId, input).value.0.resumes)
  {
    var rs := Create(fmt, db, userId, newId, input).value.0.resumes;
    forall i, j | 0 <= i < j < |rs| ensures rs[i].id != rs[j].id {
      if j == |rs| - 1 {
        assert rs[i] in db.resumes;
      }
    }
  }

  /** The rows a `where: { userId }` filter keeps. */
  function OwnedBy(db: Db, userId: string): (rs: seq<Resume>)
    ensures forall r :: r in rs <==> r in db.resumes && r.userId == userId
  {
    Filter(db.resumes, (r: Resume) => r.userId == userId)
  }

  /** `getMyResumes`: a view of exactly the caller's own resumes. */
  function GetMyResumes(db: Db, userId: string): (vs: seq<ResumeView>)
    ensures forall r :: r in db.resumes && r.userId == userId ==> ViewOf(db, r) in vs
    ensures forall i :: 0 <= i < |vs| ==> exists r :: r in db.resumes && r.userId == userId && vs[i] == ViewOf(db, r)
  {
    var mine := OwnedBy(db, userId);
    var vs := Views(db, mine);
    assert forall i :: 0 <= i < |vs| ==> mine[i] in mine && vs[i] == ViewOf(db, mine[i]);
    assert forall r :: r in mine ==> exists i :: 0 <= i < |mine| && mine[i] == r && vs[i] == ViewOf(db, r);
    vs
  }

  /** `getList`: a view of every stored resume, in store order, whoever owns it. */
  function GetList(db: Db): (vs: seq<ResumeView>)
    ensures |vs| == |db.resumes|
    ensures forall i :: 0 <= i < |vs| ==> vs[i] == ViewOf(db, db.resumes[i])
  {
    Views(db, db.resumes)
  }

  /** Every user's own resumes are among those `getList` returns. */
  lemma GetListCoversEveryOwner(db: Db, userId: string)
    ensures forall v :: v in GetMyResumes(db, userId) ==> v in GetList(db)
  {
    var all := GetList(db);
    forall v | v in GetMyResumes(db, userId) ensures v in all {
      var i :| 0 <= i < |GetMyResumes(db, userId)| && GetMyResumes(db, userId)[i] == v;
      var r :| r in db.resumes && r.userId == userId && v == ViewOf(db, r);
      var k :| 0 <= k < |db.resumes| && db.resumes[k] == r;
      assert all[k] == v;
    }
  }

  /** `getOne`: the resume with this id, or nothing. */
  function GetOne(db: Db, id: string): (r: Option<ResumeView>)
    ensures r.Some? <==> HasResume(db, id)
    ensures r.Some? ==> r.value.id == id
    ensures r.Some? ==> exists row :: row in db.resumes && row.id == id && r.value == ViewOf(db, row)
  {
    match FindResume(db.resumes, id)
    case None => None
    case Some(row) => Some(ViewOf(db, row))
  }

  /** The rows a `where: { id: { in: ids } }` filter keeps. */
  function WithIds(db: Db, ids: seq<string>): (rs: seq<Resume>)
    ensures forall r :: r in rs <==> r in db.resumes && r.id in ids
  {
    Filter(db.resumes, (r: Resume) => r.id in ids)
  }

  /** `getMany`: views of exactly the resumes whose id is listed, one per
      selected row, in store order. */
  function GetMany(db: Db, ids: seq<string>): (vs: seq<ResumeView>)
    ensures |vs| == |WithIds(db, ids)|
    ensures forall i :: 0 <= i < |vs| ==> vs[i] == ViewOf(db, WithIds(db, ids)[i])
    ensures forall r :: r in db.resumes && r.id in ids ==> ViewOf(db, r) in vs
    ensures forall i :: 0 <= i < |vs| ==> exists r :: r in db.resumes && r.id in ids && vs[i] == ViewOf(db, r)
  {
    var rs := WithIds(db, ids);
    var vs := Views(db, rs);
    assert forall i :: 0 <= i < |rs| ==> rs[i] in rs && vs[i] == ViewOf(db, rs[i]);
    assert forall r :: r in rs ==> exists i :: 0 <= i < |rs| && rs[i] == r && vs[i] == ViewOf(db, r);
    vs
  }

  /** `deleteMany`: drop exactly the listed resumes and report how many went. */
  function DeleteMany(db: Db, ids: seq<string>): (r: (Db, nat))
    ensures forall x :: x in r.0.resumes <==> x in db.resumes && x.id !in ids
    ensures r.0.links == db.links
    ensures r.1 + |r.0.resumes| == |db.resumes|
  {
    var kept := Filter(db.resumes, (x: Resume) => x.id !in ids);
    FilterSplit(db.resumes, (x: Resume) => x.id in ids, (x: Resume) => x.id !in ids);
    (db.(resumes := kept), |db.resumes| - |kept|)
  }

  /** What `getMany` selects and what `deleteMany` keeps split the store:
      every resume is in exactly one of the two, as often as it was stored. */
  lemma GetManyDeleteManySplit(db: Db, ids: seq<string>)
    ensures multiset(WithIds(db, ids)) + multiset(DeleteMany(db, ids).0.resumes) == multiset(db.resumes)
    ensures DeleteMany(db, ids).1 == |WithIds(db, ids)|
  {
    FilterSplit(db.resumes, (x: Resume) => x.id in ids, (x: Resume) => x.id !in ids);
  }

  /** `deleteOne`: the store refuses an id it does not hold; otherwise the
      row goes and is returned. */
  function DeleteOne(db: Db, id: string): (r: Result<(Db, Resume)>)
    ensures r.Err? <==> !HasResume(db, id)
    ensures r.Err? ==> r.error == NotFound(id)
    ensures r.Ok? ==> r.value.1 in db.resumes && r.value.1.id == id
    ensures r.Ok? ==> forall x :: x in r.value.0.resumes <==> x in db.resumes && x.id != id
    ensures r.Ok? ==> r.value.0.links == db.links
    ensures r.Ok? ==> multiset(r.value.0.resumes) + multiset(WithIds(db, [id])) == multiset(db.resumes)
  {
    match FindResume(db.resumes, id)
    case None => Err(NotFound(id))
    case Some(row) =>
      FilterSplit(db.resumes, (x: Resume) => x.id in [id], (x: Resume) => x.id != id);
      Ok((db.(resumes := Filter(db.resumes, (x: Resume) => x.id != id)), row))
  }

  /** The input of `update`: the id (any string) and the three fields. */
  datatype UpdateInput = UpdateInput(id: string, fields: PersonalInfo)

  /** The new values for one row. An absent email leaves the stored one as
      it is: the store treats an undefined field as "do not change". */
  function Patch(r: Resume, v: PersonalInfo): Resume {
    r.(firstName := v.firstName, lastName := v.lastName,
       email := if v.email.Some? then v.email else r.email)
  }

  /** `update`: validate, refuse an unknown id, then patch the row with that
      id. Ids, owners and every other row stay as they were. */
  function Update(fmt: Formats, db: Db, input: UpdateInput): (r: Result<(Db, Resume)>)
    ensures !PersonalInfoValid(fmt, input.fields) ==> r == Err(Invalid(PersonalInfoIssues(fmt, input.fields)))
    ensures PersonalInfoValid(fmt, input.fields) && !HasResume(db, input.id) ==> r == Err(NotFound(input.id))
    ensures r.Ok? <==> PersonalInfoValid(fmt, input.fields) && HasResume(db, input.id)
    ensures r.Ok? ==> var rs := r.value.0.resumes;
      && |rs| == |db.resumes|
      && r.value.0.links == db.links
      && (forall i :: 0 <= i < |rs| ==> rs[i].id == db.resumes[i].id && rs[i].userId == db.resumes[i].userId)
      && (forall i :: 0 <= i < |rs| && db.resumes[i].id != input.id ==> rs[i] == db.resumes[i])
      && (forall i :: 0 <= i < |rs| && db.resumes[i].id == input.id ==> rs[i] == Patch(db.resumes[i], input.fields))
    ensures r.Ok? ==> (r.value.1.id == input.id
                       && r.value.1.firstName == input.fields.firstName
                       && r.value.1.lastName == input.fields.lastName)
    ensures r.Ok? ==> exists i :: 0 <= i < |db.resumes| && db.resumes[i].id == input.id
                                 && r.value.1 == Patch(db.resumes[i], input.fields)
    ensures r.Ok? ==> r.value.1 in r.value.0.resumes
  {
    if !PersonalInfoValid(fmt, input.fields) then Err(Invalid(PersonalInfoIssues(fmt, input.fields)))
    else match FindResume(db.resumes, input.id)
      case None => Err(NotFound(input.id))
      case Some(row) =>
        var rs := seq(|db.resumes|, i requires 0 <= i < |db.resumes| =>
          if db.resumes[i].id == input.id then Patch(db.resumes[i], input.fields) else db.resumes[i]);
        Ok((db.(resumes := rs), Patch(row, input.fields)))
  }

  /** `createMany`: every entry is validated (issues carry the entry's index)
      and either all rows are written or none. */
  function CreateManyIssues(fmt: Formats, inputs: seq<PersonalInfo>): seq<Path>
    decreases |inputs|
  {
    if inputs == [] then []
    else
      var k := |inputs| - 1;
      CreateManyIssues(fmt, inputs[..k])
      + seq(|PersonalInfoIssues(fmt, inputs[k])|, j requires 0 <= j < |PersonalInfoIssues(fmt, inputs[k])| =>
              [Field("resumes"), Index(k)] + PersonalInfoIssues(fmt, inputs[k])[j])
  }

  lemma {:induction false} CreateManyIssuesEmpty(fmt: Formats, inputs: seq<PersonalInfo>)
    ensures CreateManyIssues(fmt, inputs) == [] <==> forall i :: 0 <= i < |inputs| ==> PersonalInfoValid(fmt, inputs[i])
    decreases |inputs|
  {
    if inputs != [] {
      var k := |inputs| - 1;
      CreateManyIssuesEmpty(fmt, inputs[..k]);
      assert forall i :: 0 <= i < k ==> inputs[..k][i] == inputs[i];
    }
  }

  /** The rows `createMany` writes: one per entry, in order, each owned by
      the caller. */
  function CreateManyData(fmt: Formats, userId: string, inputs: seq<PersonalInfo>): (r: Result<seq<ResumeData>>)
    ensures r.Ok? <==> forall i :: 0 <= i < |inputs| ==> PersonalInfoValid(fmt, inputs[i])
    ensures r.Ok? ==> |r.value| == |inputs|
    ensures r.Ok? ==> forall i :: 0 <= i < |inputs| ==> InputOf(r.value[i]) == inputs[i] && r.value[i].userId == userId
  {
    CreateManyIssuesEmpty(fmt, inputs);
    if CreateManyIssues(fmt, inputs) != [] then Err(Invalid(CreateManyIssues(fmt, inputs)))
    else Ok(seq(|inputs|, i requires 0 <= i < |inputs| =>
      ResumeData(inputs[i].firstName, inputs[i].lastName, inputs[i].email, userId)))
  }

  /** `createMany` on the store: the rows are appended under the ids the
      store picked, and the count is returned. */
  function CreateMany(fmt: Formats, db: Db, userId: string, newIds: seq<string>, inputs: seq<PersonalInfo>)
    : (r: Result<(Db, nat)>)
    requires |newIds| == |inputs|
    ensures r.Ok? <==> forall i :: 0 <= i < |inputs| ==> PersonalInfoValid(fmt, inputs[i])
    ensures r.Ok? ==> r.value.1 == |inputs|
    ensures r.Ok? ==> r.value.0.links == db.links
    ensures r.Ok? ==> var rs := r.value.0.resumes;
      && |rs| == |db.resumes| + |inputs|
      && rs[..|db.resumes|] == db.resumes
      && forall i :: 0 <= i < |inputs| ==>
           rs[|db.resumes| + i] == Resume(newIds[i], inputs[i].firstName, inputs[i].lastName, inputs[i].email, userId)
  {
    match CreateManyData(fmt, userId, inputs)
    case Err(e) => Err(e)
    case Ok(data) =>
      var added := seq(|data|, i requires 0 <= i < |data| => WithId(newIds[i], data[i]));
      Ok((db.(resumes := db.resumes + added), |data|))
  }
}
