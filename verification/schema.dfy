/** The profile document of `server/models/Profile.js`: one datatype per
    sub-schema, the closed enums for skill level, skill category and project
    status, their defaults, and the casting the schema applies when a
    document is stored (`trim`, `lowercase`, `required`, `enum`, `min`/`max`). */
module Schema {
  import opened Wrappers
  import opened Text

  datatype Level = Beginner | Intermediate | Advanced | Expert
  datatype Category = Frontend | Backend | Database | DevOps | Mobile | Other
  datatype Status = Completed | InProgress | Planned

  /** A stored `Date`, carried opaquely: nothing in the model computes on it. */
  datatype Date = Date(epochMillis: int)

  datatype Skill = Skill(name: String, level: Level, category: Category)

  datatype Project = Project(
    title: String,
    description: String,
    links: seq<String>,
    skills: seq<String>,
    startDate: Option<Date>,
    endDate: Option<Date>,
    status: Status)

  datatype Work = Work(
    company: String,
    position: String,
    description: Option<String>,
    startDate: Date,
    endDate: Option<Date>,
    current: bool,
    skills: seq<String>)

  /** `gpa` is a JavaScript number; it is carried as a `real` and only
      compared against its bounds. */
  datatype Education = Education(
    institution: String,
    degree: String,
    field: Option<String>,
    startDate: Option<Date>,
    endDate: Option<Date>,
    gpa: Option<real>)

  datatype Links = Links(
    github: Option<String>,
    linkedin: Option<String>,
    portfolio: Option<String>,
    resume: Option<String>,
    twitter: Option<String>)

  datatype Profile = Profile(
    name: String,
    email: String,
    title: Option<String>,
    bio: Option<String>,
    location: Option<String>,
    phone: Option<String>,
    education: seq<Education>,
    skills: seq<Skill>,
    projects: seq<Project>,
    work: seq<Work>,
    links: Option<Links>,
    isActive: bool)

  // ---------------------------------------------------------------------
  // Enum spellings

  function LevelName(l: Level): String {
    match l
    case Beginner => "beginner"
    case Intermediate => "intermediate"
    case Advanced => "advanced"
    case Expert => "expert"
  }

  function CategoryName(c: Category): String {
    match c
    case Frontend => "frontend"
    case Backend => "backend"
    case Database => "database"
    case DevOps => "devops"
    case Mobile => "mobile"
    case Other => "other"
  }

  function StatusName(s: Status): String {
    match s
    case Completed => "completed"
    case InProgress => "in-progress"
    case Planned => "planned"
  }

  /** The enum check of the `level` path: exactly the four spellings are
      accepted, case-sensitively. */
  function ParseLevel(s: String): (r: Option<Level>)
    ensures r.Some? ==> LevelName(r.value) == s
    ensures r.None? ==> forall l: Level :: LevelName(l) != s
  {
    if s == "beginner" then Some(Beginner)
    else if s == "intermediate" then Some(Intermediate)
    else if s == "advanced" then Some(Advanced)
    else if s == "expert" then Some(Expert)
    else None
  }

  function ParseCategory(s: String): (r: Option<Category>)
    ensures r.Some? ==> CategoryName(r.value) == s
    ensures r.None? ==> forall c: Category :: CategoryName(c) != s
  {
    if s == "frontend" then Some(Frontend)
    else if s == "backend" then Some(Backend)
    else if s == "database" then Some(Database)
    else if s == "devops" then Some(DevOps)
    else if s == "mobile" then Some(Mobile)
    else if s == "other" then Some(Other)
    else None
  }

  function ParseStatus(s: String): (r: Option<Status>)
    ensures r.Some? ==> StatusName(r.value) == s
    ensures r.None? ==> forall st: Status :: StatusName(st) != s
  {
    if s == "completed" then Some(Completed)
    else if s == "in-progress" then Some(InProgress)
    else if s == "planned" then Some(Planned)
    else None
  }

  /** Every enum value is spelled by exactly one string, and parsing that
      string gives the value back. */
  lemma EnumRoundTrip(l: Level, c: Category, st: Status)
    ensures ParseLevel(LevelName(l)) == Some(l)
    ensures ParseCategory(CategoryName(c)) == Some(c)
    ensures ParseStatus(StatusName(st)) == Some(st)
  {
  }

  /** The rank used to order skills by proficiency: expert 4 down to
      beginner 1. */
  function Weight(l: Level): (w: int)
    ensures 1 <= w <= 4
    ensures w == 4 <==> l == Expert
    ensures w == 3 <==> l == Advanced
    ensures w == 2 <==> l == Intermediate
    ensures w == 1 <==> l == Beginner
  {
    match l
    case Beginner => 1
    case Intermediate => 2
    case Advanced => 3
    case Expert => 4
  }

  /** Ranks are distinct: the weight determines the level. */
  lemma WeightInjective(a: Level, b: Level)
    ensures Weight(a) == Weight(b) <==> a == b
  {
  }

  // ---------------------------------------------------------------------
  // Stored form

  /** A value of a `trim: true, lowercase: true` path as stored. */
  predicate IsStoredLower(s: String) {
    Normalize(s) == s
  }

  predicate GpaInRange(g: Option<real>) {
    g.Some? ==> 0.0 <= g.value <= 10.0
  }

  predicate WellFormedSkill(s: Skill) {
    IsStoredLower(s.name) && |s.name| > 0
  }

  predicate WellFormedProject(p: Project) {
    && Trimmed(p.title) && |p.title| > 0
    && Trimmed(p.description) && |p.description| > 0
    && (forall i :: 0 <= i < |p.links| ==> Trimmed(p.links[i]))
    && (forall i :: 0 <= i < |p.skills| ==> IsStoredLower(p.skills[i]))
  }

  predicate WellFormedWork(w: Work) {
    && Trimmed(w.company) && |w.company| > 0
    && Trimmed(w.position) && |w.position| > 0
    && (w.description.Some? ==> Trimmed(w.description.value))
    && (forall i :: 0 <= i < |w.skills| ==> IsStoredLower(w.skills[i]))
  }

  predicate WellFormedEducation(e: Education) {
    && Trimmed(e.institution) && |e.institution| > 0
    && Trimmed(e.degree) && |e.degree| > 0
    && (e.field.Some? ==> Trimmed(e.field.value))
    && GpaInRange(e.gpa)
  }

  /** Every document the schema lets through satisfies this. */
  /** The `links` sub-document as stored: every present field trimmed. */
  predicate WellFormedLinks(l: Links) {
    && (l.github.Some? ==> Trimmed(l.github.value))
    && (l.linkedin.Some? ==> Trimmed(l.linkedin.value))
    && (l.portfolio.Some? ==> Trimmed(l.portfolio.value))
    && (l.resume.Some? ==> Trimmed(l.resume.value))
    && (l.twitter.Some? ==> Trimmed(l.twitter.value))
  }

  predicate WellFormed(p: Profile) {
    && Trimmed(p.name) && |p.name| > 0
    && (p.links.Some? ==> WellFormedLinks(p.links.value))
    && IsStoredLower(p.email) && |p.email| > 0
    && (forall i :: 0 <= i < |p.skills| ==> WellFormedSkill(p.skills[i]))
    && (forall i :: 0 <= i < |p.projects| ==> WellFormedProject(p.projects[i]))
    && (forall i :: 0 <= i < |p.work| ==> WellFormedWork(p.work[i]))
    && (forall i :: 0 <= i < |p.education| ==> WellFormedEducation(p.education[i]))
  }

  lemma StoredLowerIsNormalized(s: String)
    ensures IsStoredLower(Normalize(s))
  {
    NormalizeIdempotent(s);
  }

  /** A value that is stored lower-case is unchanged by `toLowerCase`, so the
      engine's lower-casing of stored skill strings is a no-op on them. */
  lemma StoredLowerIsLower(s: String)
    requires IsStoredLower(s)
    ensures Lower(s) == s
  {
    LowerOfLower(s);
  }

  // ---------------------------------------------------------------------
  // Casting: what saving a document does to one incoming value

  /** A validation failure names the paths that failed, as mongoose's
      `ValidationError` does. */
  type Errors = seq<String>

  /** A present value of a `trim: true` path, trimmed. */
  function TrimOpt(o: Option<String>): (r: Option<String>)
    ensures r.Some? <==> o.Some?
    ensures r.Some? ==> Trimmed(r.value)
  {
    match o
    case None => None
    case Some(s) => Some(Trim(s))
  }

  /** `stored` is what a `trim: true` path keeps of `given`: present exactly
      when `given` is, and then its trim. */
  predicate TrimmedFrom(stored: Option<String>, given: Option<String>) {
    && (stored.Some? <==> given.Some?)
    && (stored.Some? ==> stored.value == Trim(given.value))
  }

  /** The `links` sub-document, as stored: each of its five `trim: true`
      paths is trimmed when present. */
  function TrimLinks(o: Option<Links>): (r: Option<Links>)
    ensures r.Some? <==> o.Some?
    ensures r.Some? ==> WellFormedLinks(r.value)
    ensures r.Some? ==> && TrimmedFrom(r.value.github, o.value.github)
                        && TrimmedFrom(r.value.linkedin, o.value.linkedin)
                        && TrimmedFrom(r.value.portfolio, o.value.portfolio)
                        && TrimmedFrom(r.value.resume, o.value.resume)
                        && TrimmedFrom(r.value.twitter, o.value.twitter)
  {
    match o
    case None => None
    case Some(l) =>
      Some(Links(TrimOpt(l.github), TrimOpt(l.linkedin), TrimOpt(l.portfolio),
                 TrimOpt(l.resume), TrimOpt(l.twitter)))
  }

  /** Stored links are stored again unchanged, and casting twice is casting
      once. */
  lemma TrimLinksStored(o: Option<Links>)
    ensures o.Some? && WellFormedLinks(o.value) ==> TrimLinks(o) == o
    ensures TrimLinks(TrimLinks(o)) == TrimLinks(o)
  {
    if o.Some? {
      var l := o.value;
      TrimOptStored(l.github);
      TrimOptStored(l.linkedin);
      TrimOptStored(l.portfolio);
      TrimOptStored(l.resume);
      TrimOptStored(l.twitter);
      var t := TrimLinks(o).value;
      TrimOptStored(t.github);
      TrimOptStored(t.linkedin);
      TrimOptStored(t.portfolio);
      TrimOptStored(t.resume);
      TrimOptStored(t.twitter);
    }
  }

  /** A present, already trimmed value is its own cast. */
  lemma TrimOptStored(o: Option<String>)
    ensures o.Some? && Trimmed(o.value) ==> TrimOpt(o) == o
  {
    if o.Some? && Trimmed(o.value) {
      TrimOfTrimmed(o.value);
    }
  }

  /** An array of `trim: true` strings, as stored. */
  function TrimAll(xs: seq<String>): (r: seq<String>)
    ensures |r| == |xs|
    ensures forall i :: 0 <= i < |xs| ==> r[i] == Trim(xs[i]) && Trimmed(r[i])
  {
    seq(|xs|, i requires 0 <= i < |xs| => Trim(xs[i]))
  }

  /** An array of `trim: true, lowercase: true` strings, as stored. */
  function NormalizeAll(xs: seq<String>): (r: seq<String>)
    ensures |r| == |xs|
    ensures forall i :: 0 <= i < |xs| ==> r[i] == Normalize(xs[i]) && IsStoredLower(r[i])
  {
    var r := seq(|xs|, i requires 0 <= i < |xs| => Normalize(xs[i]));
    forall i | 0 <= i < |xs| ensures IsStoredLower(r[i]) {
      StoredLowerIsNormalized(xs[i]);
    }
    r
  }

  /** A `required: true, trim: true` path fails when absent or blank once
      trimmed. */
  predicate MissingRequired(o: Option<String>) {
    o.None? || |Trim(o.value)| == 0
  }

  /** Path `path` when `failed`, nothing otherwise. */
  function ErrorIf(failed: bool, path: String): (r: Errors)
    ensures path in r <==> failed
    ensures |r| <= 1
  {
    if failed then [path] else []
  }

  /** The `level` path: absent means the default `intermediate`. */
  function CastLevel(o: Option<String>): (r: Option<Level>)
    ensures o.None? ==> r == Some(Intermediate)
    ensures o.Some? ==> r == ParseLevel(o.value)
  {
    match o
    case None => Some(Intermediate)
    case Some(s) => ParseLevel(s)
  }

  /** The `category` path: absent means the default `other`. */
  function CastCategory(o: Option<String>): (r: Option<Category>)
    ensures o.None? ==> r == Some(Other)
    ensures o.Some? ==> r == ParseCategory(o.value)
  {
    match o
    case None => Some(Other)
    case Some(s) => ParseCategory(s)
  }

  /** The `status` path: absent means the default `completed`. */
  function CastStatus(o: Option<String>): (r: Option<Status>)
    ensures o.None? ==> r == Some(Completed)
    ensures o.Some? ==> r == ParseStatus(o.value)
  {
    match o
    case None => Some(Completed)
    case Some(s) => ParseStatus(s)
  }

  /** One element of the profile's `skills` array. */
  function CastSkill(name: Option<String>, level: Option<String>, category: Option<String>): (r: Result<Skill, Errors>)
    ensures r.Success? <==> !MissingRequired(name) && CastLevel(level).Some? && CastCategory(category).Some?
    ensures r.Failure? ==> ("name" in r.error <==> MissingRequired(name))
    ensures r.Failure? ==> ("level" in r.error <==> CastLevel(level).None?)
    ensures r.Failure? ==> ("category" in r.error <==> CastCategory(category).None?)
    ensures r.Success? ==> WellFormedSkill(r.value) && r.value.name == Normalize(name.value)
    ensures r.Success? && level.None? ==> r.value.level == Intermediate
    ensures r.Success? && level.Some? ==> Some(r.value.level) == ParseLevel(level.value)
    ensures r.Success? && category.None? ==> r.value.category == Other
    ensures r.Success? && category.Some? ==> Some(r.value.category) == ParseCategory(category.value)
  {
    var errs := ErrorIf(MissingRequired(name), "name")
              + ErrorIf(CastLevel(level).None?, "level")
              + ErrorIf(CastCategory(category).None?, "category");
    if |errs| > 0 then Failure(errs)
    else
      var n := Normalize(name.value);
      assert |n| == |Trim(name.value)|;
      StoredLowerIsNormalized(name.value);
      Success(Skill(n, CastLevel(level).value, CastCategory(category).value))
  }

  /** One element of `projects`. Dates are taken as already cast. */
  function CastProject(title: Option<String>, description: Option<String>, links: seq<String>,
                       skills: seq<String>, startDate: Option<Date>, endDate: Option<Date>,
                       status: Option<String>): (r: Result<Project, Errors>)
    ensures r.Success? <==> !MissingRequired(title) && !MissingRequired(description) && CastStatus(status).Some?
    ensures r.Failure? ==> ("title" in r.error <==> MissingRequired(title))
    ensures r.Failure? ==> ("description" in r.error <==> MissingRequired(description))
    ensures r.Failure? ==> ("status" in r.error <==> CastStatus(status).None?)
    ensures r.Success? ==> WellFormedProject(r.value)
    ensures r.Success? ==> |r.value.skills| == |skills|
                           && forall i :: 0 <= i < |skills| ==> r.value.skills[i] == Normalize(skills[i])
    ensures r.Success? ==> r.value.title == Trim(title.value) && r.value.description == Trim(description.value)
    ensures r.Success? ==> |r.value.links| == |links|
                           && forall i :: 0 <= i < |links| ==> r.value.links[i] == Trim(links[i])
    ensures r.Success? ==> r.value.startDate == startDate && r.value.endDate == endDate
    ensures r.Success? && status.None? ==> r.value.status == Completed
    ensures r.Success? && status.Some? ==> Some(r.value.status) == ParseStatus(status.value)
  {
    var errs := ErrorIf(MissingRequired(title), "title")
              + ErrorIf(MissingRequired(description), "description")
              + ErrorIf(CastStatus(status).None?, "status");
    if |errs| > 0 then Failure(errs)
    else
      Success(Project(Trim(title.value), Trim(description.value), TrimAll(links),
                      NormalizeAll(skills), startDate, endDate, CastStatus(status).value))
  }

  /** One element of `work`; `current` defaults to false. */
  function CastWork(company: Option<String>, position: Option<String>, description: Option<String>,
                    startDate: Option<Date>, endDate: Option<Date>, current: Option<bool>,
                    skills: seq<String>): (r: Result<Work, Errors>)
    ensures r.Success? <==> !MissingRequired(company) && !MissingRequired(position) && startDate.Some?
    ensures r.Failure? ==> ("company" in r.error <==> MissingRequired(company))
    ensures r.Failure? ==> ("position" in r.error <==> MissingRequired(position))
    ensures r.Failure? ==> ("startDate" in r.error <==> startDate.None?)
    ensures r.Success? ==> WellFormedWork(r.value)
    ensures r.Success? ==> |r.value.skills| == |skills|
                           && forall i :: 0 <= i < |skills| ==> r.value.skills[i] == Normalize(skills[i])
    ensures r.Success? ==> r.value.company == Trim(company.value) && r.value.position == Trim(position.value)
    ensures r.Success? ==> r.value.description == TrimOpt(description)
    ensures r.Success? ==> r.value.startDate == startDate.value && r.value.endDate == endDate
    ensures r.Success? && current.None? ==> !r.value.current
    ensures r.Success? && current.Some? ==> r.value.current == current.value
  {
    var errs := ErrorIf(MissingRequired(company), "company")
              + ErrorIf(MissingRequired(position), "position")
              + ErrorIf(startDate.None?, "startDate");
    if |errs| > 0 then Failure(errs)
    else
      Success(Work(Trim(company.value), Trim(position.value), TrimOpt(description),
                   startDate.value, endDate, current.GetOr(false), NormalizeAll(skills)))
  }

  /** One element of `education`; `gpa` must lie in 0..10. */
  function CastEducation(institution: Option<String>, degree: Option<String>, field: Option<String>,
                         startDate: Option<Date>, endDate: Option<Date>, gpa: Option<real>): (r: Result<Education, Errors>)
    ensures r.Success? <==> !MissingRequired(institution) && !MissingRequired(degree) && GpaInRange(gpa)
    ensures r.Failure? ==> ("institution" in r.error <==> MissingRequired(institution))
    ensures r.Failure? ==> ("degree" in r.error <==> MissingRequired(degree))
    ensures r.Failure? ==> ("gpa" in r.error <==> !GpaInRange(gpa))
    ensures r.Success? ==> WellFormedEducation(r.value) && r.value.gpa == gpa
    ensures r.Success? ==> r.value.institution == Trim(institution.value) && r.value.degree == Trim(degree.value)
    ensures r.Success? ==> r.value.field == TrimOpt(field)
    ensures r.Success? ==> r.value.startDate == startDate && r.value.endDate == endDate
  {
    var errs := ErrorIf(MissingRequired(institution), "institution")
              + ErrorIf(MissingRequired(degree), "degree")
              + ErrorIf(!GpaInRange(gpa), "gpa");
    if |errs| > 0 then Failure(errs)
    else Success(Education(Trim(institution.value), Trim(degree.value), TrimOpt(field), startDate, endDate, gpa))
  }

  /** The document `CastProfile` stores once its required paths are present. */
  function StoreProfile(name: String, email: String, title: Option<String>,
                        bio: Option<String>, location: Option<String>, phone: Option<String>,
                        education: seq<Education>, skills: seq<Skill>, projects: seq<Project>,
                        work: seq<Work>, links: Option<Links>, isActive: bool): (p: Profile)
    requires |Trim(name)| > 0 && |Trim(email)| > 0
    requires forall i :: 0 <= i < |skills| ==> WellFormedSkill(skills[i])
    requires forall i :: 0 <= i < |projects| ==> WellFormedProject(projects[i])
    requires forall i :: 0 <= i < |work| ==> WellFormedWork(work[i])
    requires forall i :: 0 <= i < |education| ==> WellFormedEducation(education[i])
    ensures WellFormed(p) && p.email == Normalize(email) && p.isActive == isActive
    ensures p.skills == skills && p.projects == projects && p.work == work && p.education == education
    ensures p.name == Trim(name) && p.title == TrimOpt(title) && p.bio == TrimOpt(bio)
    ensures p.location == TrimOpt(location) && p.phone == TrimOpt(phone) && p.links == TrimLinks(links)
  {
    var e := Normalize(email);
    assert |e| == |Trim(email)|;
    StoredLowerIsNormalized(email);
    Profile(Trim(name), e, TrimOpt(title), TrimOpt(bio), TrimOpt(location),
            TrimOpt(phone), education, skills, projects, work, TrimLinks(links), isActive)
  }

  /** The top-level document from its scalar paths and already-cast
      sub-documents; `isActive` defaults to true. */
  function CastProfile(name: Option<String>, email: Option<String>, title: Option<String>,
                       bio: Option<String>, location: Option<String>, phone: Option<String>,
                       education: seq<Education>, skills: seq<Skill>, projects: seq<Project>,
                       work: seq<Work>, links: Option<Links>, isActive: Option<bool>): (r: Result<Profile, Errors>)
    requires forall i :: 0 <= i < |skills| ==> WellFormedSkill(skills[i])
    requires forall i :: 0 <= i < |projects| ==> WellFormedProject(projects[i])
    requires forall i :: 0 <= i < |work| ==> WellFormedWork(work[i])
    requires forall i :: 0 <= i < |education| ==> WellFormedEducation(education[i])
    ensures r.Success? <==> !MissingRequired(name) && !MissingRequired(email)
    ensures r.Failure? ==> ("name" in r.error <==> MissingRequired(name))
    ensures r.Failure? ==> ("email" in r.error <==> MissingRequired(email))
    ensures r.Success? ==> WellFormed(r.value) && r.value.email == Normalize(email.value)
    ensures r.Success? ==> r.value.skills == skills && r.value.projects == projects
                           && r.value.work == work && r.value.education == education
    ensures r.Success? ==> r.value.name == Trim(name.value) && r.value.title == TrimOpt(title) && r.value.bio == TrimOpt(bio)
    ensures r.Success? ==> r.value.location == TrimOpt(location) && r.value.phone == TrimOpt(phone)
    ensures r.Success? ==> r.value.links == TrimLinks(links)
    ensures r.Success? && isActive.None? ==> r.value.isActive
    ensures r.Success? && isActive.Some? ==> r.value.isActive == isActive.value
  {
    if MissingRequired(name) || MissingRequired(email) then
      Failure(ErrorIf(MissingRequired(name), "name") + ErrorIf(MissingRequired(email), "email"))
    else
      Success(StoreProfile(name.value, email.value, title, bio, location, phone,
                           education, skills, projects, work, links, isActive.GetOr(true)))
  }
}
