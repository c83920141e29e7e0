/** The skill-list logic of the Skills page (`client/src/pages/Skills.js`):
    the level bar, the tab list, and the filter-and-sort applied to the
    grouped skills the server sends. The React rendering is not modelled. */
module SkillsPage {
  import opened Wrappers
  import opened Text
  import opened Seqs
  import opened Schema
  import opened SkillOrder
  import opened ProfileMethods
  import opened Grouping

  /** `getSkillLevel`: the width of a skill's progress bar, in percent. */
  function SkillLevel(level: String): (pct: int)
    ensures 0 <= pct <= 100
    ensures pct == 0 <==> ParseLevel(level).None?
    ensures pct == 100 <==> level == "expert"
    ensures pct == 75 <==> level == "advanced"
    ensures pct == 50 <==> level == "intermediate"
    ensures pct == 25 <==> level == "beginner"
  {
    match ParseLevel(level)
    case Some(l) => 25 * Weight(l)
    case None => 0
  }

  /** The bar grows with the level's rank. */
  lemma SkillLevelFollowsWeight(a: Level, b: Level)
    ensures SkillLevel(LevelName(a)) <= SkillLevel(LevelName(b)) <==> Weight(a) <= Weight(b)
    ensures SkillLevel(LevelName(a)) == SkillLevel(LevelName(b)) <==> a == b
  {
    EnumRoundTrip(a, Other, Completed);
    EnumRoundTrip(b, Other, Completed);
    WeightInjective(a, b);
  }

  /** A tab: "all", or one category. */
  datatype Tab = All | Named(category: Category)

  function TabValue(t: Tab): String {
    match t
    case All => "all"
    case Named(c) => CategoryName(c)
  }

  /** The tabs, in display order; devops and mobile have no tab. */
  const Tabs: seq<Tab> := [All, Named(Frontend), Named(Backend), Named(Database), Named(Other)]

  /** Devops and mobile skills have no tab of their own. */
  lemma NoDevOpsOrMobileTab(i: nat)
    requires i < |Tabs|
    ensures Tabs[i] == All <==> i == 0
    ensures Tabs[i] != Named(DevOps) && Tabs[i] != Named(Mobile)
    ensures TabValue(Tabs[i]) == "all" <==> i == 0
  {
  }

  /** What `filterSkills` is given and returns: nothing yet, an array, or
      the grouped object. */
  datatype SkillSource = Missing | Listing(skills: seq<Skill>) | ByCategory(groups: Groups)

  /** The comparator `sortBy` selects: "level" sorts by rank, anything else
      by name. */
  function KeyFor(sortBy: String): SortKey {
    if sortBy == "level" then ByLevel else ByName
  }

  /** The search box's test on one skill: its lowercased name contains the
      lowercased term. */
  function NameHas(term: String): Skill -> bool {
    (x: Skill) => Includes(Lower(x.name), Lower(term))
  }

  /** The search step of `filterSkills`: a non-empty term keeps the
      skills whose name contains it; an empty term keeps everything. */
  function Kept(list: seq<Skill>, term: String): (k: seq<Skill>)
    ensures IsSubseq(k, list)
    ensures forall x :: x in k <==> x in list && (term == [] || NameHas(term)(x))
    ensures multiset(k) <= multiset(list)
    ensures forall x :: multiset(k)[x] == if term == [] || NameHas(term)(x) then multiset(list)[x] else 0
    ensures term == [] ==> k == list
  {
    if term == [] then
      SubseqRefl(list);
      list
    else
      FilterCounts(list, NameHas(term));
      Filter(list, NameHas(term))
  }

  /** The array branch of `filterSkills`: search, then sort stably by the
      chosen key. */
  function Refine(list: seq<Skill>, term: String, sortBy: String): (r: seq<Skill>)
    ensures Sorted(KeyFor(sortBy), r)
    ensures forall x :: x in r <==> x in list && (term == [] || NameHas(term)(x))
    ensures multiset(r) <= multiset(list)
    ensures term == [] ==> multiset(r) == multiset(list)
    ensures forall x :: multiset(r)[x] == if term == [] || NameHas(term)(x) then multiset(list)[x] else 0
    ensures StableReorder(KeyFor(sortBy), Kept(list, term), r)
  {
    var k := Kept(list, term);
    var r := StableSort(KeyFor(sortBy), k);
    PermutationMembers(r, k);
    r
  }

  /** The array `filterSkills` works on for a tab value: the given array
      under "all", the object's bucket under a category, and otherwise
      nothing. */
  function Working(src: SkillSource, category: String): (w: seq<Skill>)
    ensures src.Listing? && category == "all" ==> w == src.skills
    ensures src.ByCategory? ==> w == match ParseCategory(category)
                                     case Some(c) => BucketOf(src.groups, c)
                                     case None => []
    ensures (src.Missing? || (src.Listing? && category != "all")) ==> w == []
  {
    match src
    case Missing => []
    case Listing(s) => if category == "all" then s else []
    case ByCategory(g) =>
      match ParseCategory(category)
      case Some(c) => BucketOf(g, c)
      case None => []
  }

  /** `filterSkills(skills, category)`. */
  function FilterSkills(src: SkillSource, category: String, term: String, sortBy: String): (r: SkillSource)
    ensures src.Missing? ==> r == Listing([])
    ensures src.ByCategory? && category == "all" ==> r == src
    ensures !(src.ByCategory? && category == "all") ==> r.Listing?
    ensures r.Listing? ==> Sorted(KeyFor(sortBy), r.skills)
    ensures r.Listing? ==> multiset(r.skills) <= multiset(Working(src, category))
    ensures r.Listing? && term == [] ==> multiset(r.skills) == multiset(Working(src, category))
    ensures r.Listing? ==>
              forall x :: x in r.skills <==> x in Working(src, category) && (term == [] || NameHas(term)(x))
    ensures r.Listing? ==>
              forall x :: multiset(r.skills)[x] ==
                if term == [] || NameHas(term)(x) then multiset(Working(src, category))[x] else 0
    ensures r.Listing? ==> StableReorder(KeyFor(sortBy), Kept(Working(src, category), term), r.skills)
  {
    if src.Missing? then Listing([])
    else if src.ByCategory? && category == "all" then src
    else Listing(Refine(Working(src, category), term, sortBy))
  }

  /** `Object.values(data)` spread into one array, or nothing while the
      data is missing. */
  function AllSkills(data: Option<Groups>): (all: seq<Skill>)
    ensures data.None? ==> all == []
    ensures data.Some? ==> |all| == TotalSize(data.value)
    ensures data.Some? ==> BucketsInPlace(data.value, all)
  {
    match data
    case None => []
    case Some(g) => Flatten(g)
  }

  /** The skills a tab draws from: every skill under "all", the tab's
      bucket otherwise. */
  function Shown(data: Option<Groups>, tab: Tab): seq<Skill> {
    if tab.All? then AllSkills(data)
    else if data.Some? then BucketOf(data.value, tab.category)
    else []
  }

  /** For every tab, `filterSkills` reaches the skills the tab draws from. */
  lemma TabReachesShown(data: Option<Groups>, tab: Tab)
    ensures tab.All? ==> Working(Listing(AllSkills(data)), TabValue(tab)) == Shown(data, tab)
    ensures tab.Named? && data.Some? ==> Working(ByCategory(data.value), TabValue(tab)) == Shown(data, tab)
  {
    if tab.Named? {
      EnumRoundTrip(Beginner, tab.category, Completed);
    }
  }

  /** `getCurrentSkills`: the list shown under tab `activeTab`. */
  function CurrentSkills(data: Option<Groups>, activeTab: nat, term: String, sortBy: String): (r: seq<Skill>)
    requires activeTab < |Tabs|
    ensures Sorted(KeyFor(sortBy), r)
    ensures forall x :: x in r <==> x in Shown(data, Tabs[activeTab]) && (term == [] || NameHas(term)(x))
    ensures multiset(r) <= multiset(Shown(data, Tabs[activeTab]))
    ensures term == [] ==> multiset(r) == multiset(Shown(data, Tabs[activeTab]))
    ensures forall x :: multiset(r)[x] ==
              if term == [] || NameHas(term)(x) then multiset(Shown(data, Tabs[activeTab]))[x] else 0
    ensures StableReorder(KeyFor(sortBy), Kept(Shown(data, Tabs[activeTab]), term), r)
  {
    var tab := Tabs[activeTab];
    TabReachesShown(data, tab);
    if tab == All then
      FilterSkills(Listing(AllSkills(data)), "all", term, sortBy).skills
    else
      var src := if data.Some? then ByCategory(data.value) else Missing;
      FilterSkills(src, TabValue(tab), term, sortBy).skills
  }

  /** Under "all" with an empty search, the page lists every skill the
      server grouped, each as often as it occurs. */
  lemma AllTabListsEverySkill(skills: seq<Skill>, sortBy: String)
    ensures multiset(CurrentSkills(Some(GroupByCategory(skills)), 0, "", sortBy)) == multiset(skills)
    ensures |CurrentSkills(Some(GroupByCategory(skills)), 0, "", sortBy)| == |skills|
  {
    FlattenGrouped(skills);
    var r := CurrentSkills(Some(GroupByCategory(skills)), 0, "", sortBy);
    assert |r| == |multiset(r)|;
    assert |skills| == |multiset(skills)|;
  }

  /** A category tab lists only that category's skills, so devops and
      mobile skills appear only under "all". */
  lemma NamedTabShowsItsCategory(skills: seq<Skill>, i: nat, term: String, sortBy: String)
    requires 0 < i < |Tabs|
    ensures forall x :: x in CurrentSkills(Some(GroupByCategory(skills)), i, term, sortBy) ==>
              Tabs[i] == Named(x.category) && x.category != DevOps && x.category != Mobile
  {
    var c := Tabs[i].category;
    var r := CurrentSkills(Some(GroupByCategory(skills)), i, term, sortBy);
    GroupedBuckets(skills);
    assert Shown(Some(GroupByCategory(skills)), Tabs[i]) == SkillsInCategory(skills, CategoryName(c));
    forall x | x in r ensures Tabs[i] == Named(x.category) {
      assert CategoryName(x.category) == CategoryName(c);
      EnumRoundTrip(Beginner, x.category, Completed);
      EnumRoundTrip(Beginner, c, Completed);
    }
  }

  /** With an empty search, a category tab lists every skill of that
      category. */
  lemma NamedTabListsWholeCategory(skills: seq<Skill>, i: nat, sortBy: String)
    requires 0 < i < |Tabs|
    ensures multiset(CurrentSkills(Some(GroupByCategory(skills)), i, "", sortBy))
         == multiset(SkillsInCategory(skills, CategoryName(Tabs[i].category)))
  {
    var data := Some(GroupByCategory(skills));
    var r := CurrentSkills(data, i, "", sortBy);
    var tab := Tabs[i];
    NoDevOpsOrMobileTab(i);
    assert multiset(r) == multiset(Shown(data, tab));
    assert Shown(data, tab) == BucketOf(GroupByCategory(skills), tab.category);
    GroupedBucket(skills, tab.category);
  }
}
