/** Vocabulary shared by the client components and the server routers:
    optional values, results that carry validation issues, the abstract
    string-format checks of the validation library, the personal-link type
    enumeration, and the personal-information schema. */
module Common {

  datatype Option<+T> = None | Some(value: T) {
    function GetOr(default: T): T {
      if Some? then value else default
    }
  }

  /** One step of a validation issue's path: an object key or an array index. */
  datatype Key = Field(name: string) | Index(i: nat)

  type Path = seq<Key>

  datatype Error =
    | Invalid(issues: seq<Path>)  // the input schema rejected these paths
    | NotFound(id: string)        // the store holds no row with this id

  datatype Result<+T> = Ok(value: T) | Err(error: Error)

  /** The validation library's `email()` and `url()` string checks. Their
      regular expressions belong to the library, so they stay abstract. */
  datatype Formats = Formats(isEmail: string -> bool, isUrl: string -> bool)

  /** The ten personal-link types. */
  datatype LinkType =
    | Github | Linkedin | Twitter | Facebook | Instagram
    | Youtube | Twitch | Discord | Website | Other

  function LinkTypeName(t: LinkType): string {
    match t
    case Github => "github"
    case Linkedin => "linkedin"
    case Twitter => "twitter"
    case Facebook => "facebook"
    case Instagram => "instagram"
    case Youtube => "youtube"
    case Twitch => "twitch"
    case Discord => "discord"
    case Website => "website"
    case Other => "other"
  }

  function ParseLinkType(s: string): (r: Option<LinkType>)
    ensures r.Some? ==> LinkTypeName(r.value) == s
  {
    if s == "github" then Some(Github)
    else if s == "linkedin" then Some(Linkedin)
    else if s == "twitter" then Some(Twitter)
    else if s == "facebook" then Some(Facebook)
    else if s == "instagram" then Some(Instagram)
    else if s == "youtube" then Some(Youtube)
    else if s == "twitch" then Some(Twitch)
    else if s == "discord" then Some(Discord)
    else if s == "website" then Some(Website)
    else if s == "other" then Some(Other)
    else None
  }

  /** Every type name parses back to its type: the names are distinct. */
  lemma ParseLinkTypeName(t: LinkType)
    ensures ParseLinkType(LinkTypeName(t)) == Some(t)
  {
  }

  /** The elements of `s` that satisfy `p`, in their original order. */
  function Filter<T(!new)>(s: seq<T>, p: T -> bool): (r: seq<T>)
    ensures |r| <= |s|
    ensures forall x :: x in r <==> x in s && p(x)
  {
    if s == [] then [] else (if p(s[0]) then [s[0]] else []) + Filter(s[1..], p)
  }

  /** Filtering by a predicate and by its negation splits a sequence in two. */
  lemma {:induction false} FilterSplit<T(!new)>(s: seq<T>, p: T -> bool, q: T -> bool)
    requires forall x :: q(x) <==> !p(x)
    ensures |Filter(s, p)| + |Filter(s, q)| == |s|
    ensures multiset(Filter(s, p)) + multiset(Filter(s, q)) == multiset(s)
  {
    if s != [] {
      FilterSplit(s[1..], p, q);
      assert s == [s[0]] + s[1..];
    }
  }

  /** The values a personal-information form holds, which are also the input
      of the resume router's `create`: both sides use the same schema. */
  datatype PersonalInfo = PersonalInfo(firstName: string, lastName: string, email: Option<string>)

  /** The paths the schema rejects: both names must be non-empty; the email
      may be absent, but a present one must pass the email check. */
  function PersonalInfoIssues(fmt: Formats, v: PersonalInfo): seq<Path> {
    (if |v.firstName| >= 1 then [] else [[Field("firstName")]])
    + (if |v.lastName| >= 1 then [] else [[Field("lastName")]])
    + (if v.email.None? || fmt.isEmail(v.email.value) then [] else [[Field("email")]])
  }

  predicate PersonalInfoValid(fmt: Formats, v: PersonalInfo) {
    PersonalInfoIssues(fmt, v) == []
  }

  /** Valid exactly when both names are present and any email is well formed;
      a missing name is reported at its own path. */
  lemma PersonalInfoSchema(fmt: Formats, v: PersonalInfo)
    ensures PersonalInfoValid(fmt, v)
            <==> v.firstName != "" && v.lastName != ""
                 && (v.email.Some? ==> fmt.isEmail(v.email.value))
    ensures v.firstName == "" ==> [Field("firstName")] in PersonalInfoIssues(fmt, v)
    ensures v.lastName == "" ==> [Field("lastName")] in PersonalInfoIssues(fmt, v)
  {
  }
}
