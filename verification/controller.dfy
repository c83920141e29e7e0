/** The read-side request handlers of `server/controllers/profileController.js`
    once the active profile has been loaded: `getProjects` (skill filter and
    pagination), `searchProfile` (case-insensitive substring search) and
    `getSkillsByCategory` (flat list or grouping by category). The database
    lookup and the JSON envelope are not part of the model. */
module Controller {
  import opened Wrappers
  import opened Text
  import opened Seqs
  import opened Schema
  import opened ProfileMethods
  import opened Grouping

  // ---------------------------------------------------------------------
  // Matching

  /** `field.toLowerCase().includes(term)`, for a term already lower-cased. */
  predicate Mentions(field: String, term: String) {
    Includes(Lower(field), term)
  }

  /** `field?.toLowerCase().includes(term)`: an absent field never matches. */
  predicate MentionsOpt(field: Option<String>, term: String) {
    field.Some? && Mentions(field.value, term)
  }

  /** `list.some(s => s.toLowerCase().includes(term))`. */
  predicate AnyMentions(list: seq<String>, term: String) {
    exists i :: 0 <= i < |list| && Mentions(list[i], term)
  }

  /** A shorter term is found wherever a longer term containing it is. */
  lemma MentionsWeaken(field: String, t1: String, t2: String)
    requires Mentions(field, t1) && Includes(t1, t2)
    ensures Mentions(field, t2)
  {
    IncludesTrans(Lower(field), t1, t2);
  }

  // ---------------------------------------------------------------------
  // getProjects

  /** The project test of `getProjects`: one of its skills contains `term`. */
  function UsesSkill(term: String): Project -> bool {
    (pr: Project) => AnyMentions(pr.skills, term)
  }

  /** The projects `getProjects` paginates: all of them when `skill` is
      absent or empty, otherwise those with a skill string containing the
      lower-cased filter. */
  function ProjectCandidates(projects: seq<Project>, skill: Option<String>): (r: seq<Project>)
    ensures IsSubseq(r, projects)
    ensures skill.None? || skill.value == "" ==> r == projects
    ensures skill.Some? && skill.value != "" ==>
              forall pr :: pr in r <==> pr in projects && AnyMentions(pr.skills, Lower(skill.value))
    ensures skill.Some? && skill.value != "" ==>
              forall pr :: multiset(r)[pr] ==
                if AnyMentions(pr.skills, Lower(skill.value)) then multiset(projects)[pr] else 0
  {
    if skill.None? || skill.value == "" then
      SubseqRefl(projects);
      projects
    else
      FilterCounts(projects, UsesSkill(Lower(skill.value)));
      Filter(projects, UsesSkill(Lower(skill.value)))
  }

  /** `Math.ceil(total / limit)`: the fewest pages of `limit` items that
      hold `total` items. */
  function PageCount(total: nat, limit: int): (pages: nat)
    requires limit >= 1
    ensures pages * limit >= total
    ensures pages > 0 ==> (pages - 1) * limit < total
    ensures pages == 0 <==> total == 0
  {
    CeilingDivision(total, limit, total / limit, total % limit);
    if total % limit == 0 then total / limit else total / limit + 1
  }

  /** The arithmetic behind `PageCount`, one fact at a time. */
  lemma CeilingDivision(total: nat, limit: int, q: int, m: int)
    requires limit >= 1 && total == q * limit + m && 0 <= m < limit
    ensures q >= 0
    ensures var pages := if m == 0 then q else q + 1;
            && pages * limit >= total
            && (pages > 0 ==> (pages - 1) * limit < total)
            && (pages == 0 <==> total == 0)
  {
    assert (q + 1) * limit == q * limit + limit;
    if q >= 1 {
      assert q * limit >= limit;
      assert (q - 1) * limit == q * limit - limit;
    }
  }

  datatype Pagination = Pagination(page: int, limit: int, total: nat, pages: nat)

  datatype ProjectPage = ProjectPage(data: seq<Project>, pagination: Pagination)

  /** The items before page `page`: `limit` for each earlier page. */
  function Skip(page: int, limit: int): (skip: nat)
    requires page >= 1 && limit >= 1
    ensures skip >= page - 1
    decreases page
  {
    if page == 1 then 0 else Skip(page - 1, limit) + limit
  }

  /** `Skip` is the handler's `(page - 1) * limit`. */
  lemma {:induction false} SkipIsProduct(page: int, limit: int)
    requires page >= 1 && limit >= 1
    ensures Skip(page, limit) == (page - 1) * limit
    decreases page
  {
    if page > 1 {
      SkipIsProduct(page - 1, limit);
      assert (page - 1) * limit == (page - 2) * limit + limit;
    }
  }

  /** Skips grow with the page number. */
  lemma {:induction false} SkipMono(a: int, b: int, limit: int)
    requires 1 <= a <= b && limit >= 1
    ensures Skip(a, limit) <= Skip(b, limit)
    decreases b - a
  {
    if a < b {
      SkipMono(a, b - 1, limit);
    }
  }

  /** `items.slice(skip, skip + limit)` for page `page`. */
  function PageOf<T>(items: seq<T>, page: int, limit: int): (d: seq<T>)
    requires page >= 1 && limit >= 1
    ensures var lo := Skip(page, limit);
            && |d| == (if |items| <= lo then 0 else if |items| - lo < limit then |items| - lo else limit)
            && forall i :: 0 <= i < |d| ==> d[i] == items[lo + i]
  {
    JsSlice(items, Skip(page, limit), Skip(page, limit) + limit)
  }

  /** The handler's `skip` for any page number: `Skip` for pages from 1
      on, and a negative offset for page 0 and below, which no validation
      on this route rules out. */
  function Offset(page: int, limit: int): int
    requires limit >= 1
  {
    if page >= 1 then Skip(page, limit) else -(Skip(2 - page, limit) as int)
  }

  /** `Offset` is `(page - 1) * limit` on every page number. */
  lemma OffsetIsProduct(page: int, limit: int)
    requires limit >= 1
    ensures Offset(page, limit) == (page - 1) * limit
  {
    if page >= 1 {
      SkipIsProduct(page, limit);
    } else {
      SkipIsProduct(2 - page, limit);
    }
  }

  /** `getProjects` for `?skill=…&page=…&limit=…`: the candidates, the
      requested page of them, and the pagination block. */
  function GetProjects(p: Profile, skill: Option<String>, page: int, limit: int): (r: ProjectPage)
    requires limit >= 1
    ensures var c := ProjectCandidates(p.projects, skill);
            r.pagination == Pagination(page, limit, |c|, PageCount(|c|, limit))
    ensures page >= 1 ==> r.data == PageOf(ProjectCandidates(p.projects, skill), page, limit)
    ensures page == 0 ==> r.data == []
    ensures IsSubseq(r.data, p.projects)
  {
    var c := ProjectCandidates(p.projects, skill);
    var off := Offset(page, limit);
    var d := JsSlice(c, off, off + limit);
    JsSliceIsSubseq(c, off, off + limit);
    assert Skip(1, limit) == 0 && Skip(2, limit) == limit;
    SubseqTrans(d, c, p.projects);
    ProjectPage(d, Pagination(page, limit, |c|, PageCount(|c|, limit)))
  }

  /** A negative page number makes `slice` count from the end: the page is
      the window `limit` long that ends `(-page) * limit` items before the
      end of the candidates, cut off at the front. */
  lemma NegativePageCountsFromEnd(p: Profile, skill: Option<String>, page: int, limit: int)
    requires page < 0 && limit >= 1
    ensures var c := ProjectCandidates(p.projects, skill);
            var start := |c| - (1 - page) * limit;
            GetProjects(p, skill, page, limit).data
              == c[(if start < 0 then 0 else start)..(if start + limit < 0 then 0 else start + limit)]
  {
    OffsetIsProduct(page, limit);
    assert (1 - page) * limit >= 2 * limit;
  }

  /** A page past the last is empty, and reports the same total. */
  lemma PagePastEnd(p: Profile, skill: Option<String>, page: int, limit: int)
    requires page >= 1 && limit >= 1
    requires page > GetProjects(p, skill, 1, limit).pagination.pages
    ensures GetProjects(p, skill, page, limit).data == []
    ensures GetProjects(p, skill, page, limit).pagination.total == GetProjects(p, skill, 1, limit).pagination.total
  {
    var c := ProjectCandidates(p.projects, skill);
    var n := PageCount(|c|, limit);
    SkipMono(n + 1, page, limit);
    SkipIsProduct(n + 1, limit);
    assert Skip(page, limit) >= |c|;
    assert |PageOf(c, page, limit)| == 0;
  }

  /** Page `page` is one contiguous run of `items`. */
  lemma PageIsSlice<T>(items: seq<T>, page: int, limit: int)
    requires page >= 1 && limit >= 1
    ensures PageOf(items, page, limit) == items[Min(Skip(page, limit), |items|)..Min(Skip(page, limit) + limit, |items|)]
  {
    JsSliceNonNegative(items, Skip(page, limit), Skip(page, limit) + limit);
  }

  /** Pages 1..k of `items`, concatenated in page order. */
  function PagesUpTo<T>(items: seq<T>, limit: int, k: nat): seq<T>
    requires limit >= 1
  {
    if k == 0 then [] else PagesUpTo(items, limit, k - 1) + PageOf(items, k, limit)
  }

  function Min(a: int, b: int): int {
    if a < b then a else b
  }

  lemma PrefixSplit<T>(s: seq<T>, a: int, b: int)
    requires 0 <= a <= b <= |s|
    ensures s[..b] == s[..a] + s[a..b]
  {
  }

  lemma {:induction false} PagesUpToPrefix<T>(items: seq<T>, limit: int, k: nat)
    requires limit >= 1
    ensures PagesUpTo(items, limit, k) == items[..Min(Skip(k + 1, limit), |items|)]
  {
    if k > 0 {
      PagesUpToPrefix(items, limit, k - 1);
      var lo := Skip(k, limit);
      var a, b := Min(lo, |items|), Min(lo + limit, |items|);
      PageIsSlice(items, k, limit);
      PrefixSplit(items, a, b);
      assert PagesUpTo(items, limit, k) == items[..a] + items[a..b];
    } else {
      assert Skip(1, limit) == 0;
      assert PagesUpTo(items, limit, 0) == [];
    }
  }

  /** Reading pages 1 to `pagination.pages` in order yields every candidate
      exactly once, in candidate order. */
  lemma PagesCoverCandidates(p: Profile, skill: Option<String>, limit: int)
    requires limit >= 1
    ensures var c := ProjectCandidates(p.projects, skill);
            var pages := GetProjects(p, skill, 1, limit).pagination.pages;
            && PagesUpTo(c, limit, pages) == c
            && forall k :: 1 <= k <= pages ==> GetProjects(p, skill, k, limit).data == PageOf(c, k, limit)
  {
    var c := ProjectCandidates(p.projects, skill);
    var n := PageCount(|c|, limit);
    PagesUpToPrefix(c, limit, n);
    SkipIsProduct(n + 1, limit);
    assert Min(Skip(n + 1, limit), |c|) == |c|;
    assert c[..|c|] == c;
    forall k | 1 <= k <= n ensures GetProjects(p, skill, k, limit).data == PageOf(c, k, limit) {
    }
  }

  // ---------------------------------------------------------------------
  // searchProfile

  const QueryRequired: String := "Search query is required"

  datatype ProfileSummary = ProfileSummary(name: String, title: Option<String>, bio: Option<String>, email: String)

  /** A search response: the echoed `query` and the matches, which the
      handler sends side by side as `query` and `data`. */
  datatype SearchResult = SearchResult(
    query: String,
    profile: Option<ProfileSummary>,
    projects: seq<Project>,
    skills: seq<Skill>,
    work: seq<Work>,
    education: seq<Education>)

  predicate HeaderMatches(p: Profile, t: String) {
    Mentions(p.name, t) || MentionsOpt(p.bio, t) || MentionsOpt(p.title, t)
  }

  predicate ProjectMatches(pr: Project, t: String) {
    Mentions(pr.title, t) || Mentions(pr.description, t) || AnyMentions(pr.skills, t)
  }

  predicate SkillMatches(s: Skill, t: String) {
    Mentions(s.name, t) || Mentions(CategoryName(s.category), t)
  }

  predicate WorkMatches(w: Work, t: String) {
    Mentions(w.company, t) || Mentions(w.position, t) || MentionsOpt(w.description, t) || AnyMentions(w.skills, t)
  }

  predicate EducationMatches(e: Education, t: String) {
    Mentions(e.institution, t) || Mentions(e.degree, t) || MentionsOpt(e.field, t)
  }

  /** The search proper, for a lower-cased term. */
  function SearchTerm(p: Profile, q: String, t: String): (res: SearchResult)
    ensures res.query == q
    ensures res.profile.Some? <==> HeaderMatches(p, t)
    ensures res.profile.Some? ==> res.profile.value == ProfileSummary(p.name, p.title, p.bio, p.email)
    ensures IsSubseq(res.projects, p.projects)
    ensures forall x :: x in res.projects <==> x in p.projects && ProjectMatches(x, t)
    ensures IsSubseq(res.skills, p.skills)
    ensures forall x :: x in res.skills <==> x in p.skills && SkillMatches(x, t)
    ensures IsSubseq(res.work, p.work)
    ensures forall x :: x in res.work <==> x in p.work && WorkMatches(x, t)
    ensures IsSubseq(res.education, p.education)
    ensures forall x :: x in res.education <==> x in p.education && EducationMatches(x, t)
    ensures forall x :: multiset(res.projects)[x] == if ProjectMatches(x, t) then multiset(p.projects)[x] else 0
    ensures forall x :: multiset(res.skills)[x] == if SkillMatches(x, t) then multiset(p.skills)[x] else 0
    ensures forall x :: multiset(res.work)[x] == if WorkMatches(x, t) then multiset(p.work)[x] else 0
    ensures forall x :: multiset(res.education)[x] == if EducationMatches(x, t) then multiset(p.education)[x] else 0
  {
    FilterCounts(p.projects, (x: Project) => ProjectMatches(x, t));
    FilterCounts(p.skills, (x: Skill) => SkillMatches(x, t));
    FilterCounts(p.work, (x: Work) => WorkMatches(x, t));
    FilterCounts(p.education, (x: Education) => EducationMatches(x, t));
    SearchResult(
      q,
      if HeaderMatches(p, t) then Some(ProfileSummary(p.name, p.title, p.bio, p.email)) else None,
      Filter(p.projects, (x: Project) => ProjectMatches(x, t)),
      Filter(p.skills, (x: Skill) => SkillMatches(x, t)),
      Filter(p.work, (x: Work) => WorkMatches(x, t)),
      Filter(p.education, (x: Education) => EducationMatches(x, t)))
  }

  /** `searchProfile` for `?q=…`: a missing or empty `q` is rejected. */
  function SearchProfile(p: Profile, q: Option<String>): (r: Result<SearchResult, String>)
    ensures r.Failure? <==> q.None? || q.value == ""
    ensures r.Failure? ==> r.error == QueryRequired
    ensures r.Success? ==> r.value == SearchTerm(p, q.value, Lower(q.value))
  {
    if q.None? || q.value == "" then Failure(QueryRequired)
    else Success(SearchTerm(p, q.value, Lower(q.value)))
  }

  /** Nothing in the profile mentions `t`. */
  predicate NothingMatches(p: Profile, t: String) {
    && !HeaderMatches(p, t)
    && (forall x :: x in p.projects ==> !ProjectMatches(x, t))
    && (forall x :: x in p.skills ==> !SkillMatches(x, t))
    && (forall x :: x in p.work ==> !WorkMatches(x, t))
    && (forall x :: x in p.education ==> !EducationMatches(x, t))
  }

  /** An empty search result is not an error: it happens exactly when no
      searched field mentions the query. */
  lemma SearchEmptyIff(p: Profile, q: String)
    requires q != ""
    ensures var res := SearchProfile(p, Some(q)).value;
            (res.profile.None? && res.projects == [] && res.skills == [] && res.work == [] && res.education == [])
            <==> NothingMatches(p, Lower(q))
  {
    var t := Lower(q);
    var res := SearchTerm(p, q, t);
    if NothingMatches(p, t) {
      NoMemberEmpty(res.projects);
      NoMemberEmpty(res.skills);
      NoMemberEmpty(res.work);
      NoMemberEmpty(res.education);
    }
  }

  /** Lengthening the query narrows every result list to a subsequence of
      the shorter query's list: a query containing `q2` finds nothing `q2`
      does not. */
  lemma SearchNarrows(p: Profile, q1: String, q2: String)
    requires q2 != "" && Includes(q1, q2)
    ensures var r1, r2 := SearchProfile(p, Some(q1)).value, SearchProfile(p, Some(q2)).value;
            && (r1.profile.Some? ==> r2.profile.Some?)
            && IsSubseq(r1.projects, r2.projects)
            && IsSubseq(r1.skills, r2.skills)
            && IsSubseq(r1.work, r2.work)
            && IsSubseq(r1.education, r2.education)
  {
    assert q1 != "" by {
      IncludesIff(q1, q2);
    }
    var t1, t2 := Lower(q1), Lower(q2);
    IncludesLower(q1, q2);
    forall f: String | Mentions(f, t1) ensures Mentions(f, t2) {
      MentionsWeaken(f, t1, t2);
    }
    forall l: seq<String> | AnyMentions(l, t1) ensures AnyMentions(l, t2) {
      var i :| 0 <= i < |l| && Mentions(l[i], t1);
      MentionsWeaken(l[i], t1, t2);
    }
    FilterMono(p.projects, (x: Project) => ProjectMatches(x, t1), (x: Project) => ProjectMatches(x, t2));
    FilterMono(p.skills, (x: Skill) => SkillMatches(x, t1), (x: Skill) => SkillMatches(x, t2));
    FilterMono(p.work, (x: Work) => WorkMatches(x, t1), (x: Work) => WorkMatches(x, t2));
    FilterMono(p.education, (x: Education) => EducationMatches(x, t1), (x: Education) => EducationMatches(x, t2));
  }

  /** Every project the skill filter of `getProjects` keeps is also found,
      in the same order, by searching for the same text. */
  lemma SkillFilterWithinSearch(p: Profile, skill: String)
    requires skill != ""
    ensures IsSubseq(ProjectCandidates(p.projects, Some(skill)), SearchProfile(p, Some(skill)).value.projects)
  {
    var t := Lower(skill);
    FilterMono(p.projects, UsesSkill(t), (x: Project) => ProjectMatches(x, t));
  }

  // ---------------------------------------------------------------- skills

  /** The `data` of a `getSkillsByCategory` response: the flat list of one
      category's skills, or every skill grouped by category. */
  datatype SkillsView = Flat(skills: seq<Skill>) | Grouped(groups: Groups)

  /** `getSkillsByCategory`: a non-empty `category` selects that category's
      skills (none when the spelling is unknown); otherwise all skills are
      grouped by category. */
  function GetSkillsByCategory(p: Profile, category: Option<String>): (r: SkillsView)
    ensures r.Flat? <==> category.Some? && category.value != []
    ensures r.Flat? ==> IsSubseq(r.skills, p.skills)
    ensures r.Flat? ==> forall x :: x in r.skills <==> x in p.skills && CategoryName(x.category) == category.value
    ensures r.Flat? ==>
              forall x :: multiset(r.skills)[x] ==
                if CategoryName(x.category) == category.value then multiset(p.skills)[x] else 0
    ensures r.Grouped? ==> forall c :: BucketOf(r.groups, c) == SkillsInCategory(p.skills, CategoryName(c))
    ensures r.Grouped? ==> forall c :: c in Keys(r.groups) <==> c in Categories(p.skills)
    ensures r.Grouped? ==> KeysFirstSeen(p.skills, Keys(r.groups))
    ensures r.Grouped? ==> TotalSize(r.groups) == |p.skills|
  {
    if category.Some? && category.value != [] then
      Flat(SkillsInCategory(p.skills, category.value))
    else
      GroupedBuckets(p.skills);
      GroupedKeys(p.skills);
      Grouped(GroupByCategory(p.skills))
  }

  /** Asking for one category gives exactly that category's bucket of the
      grouped answer. */
  lemma GroupedAgreesWithFlat(p: Profile, c: Category)
    ensures GetSkillsByCategory(p, Some(CategoryName(c))).skills
         == BucketOf(GetSkillsByCategory(p, None).groups, c)
  {
  }
}
