/** The two document methods of `server/models/Profile.js` that the
    controller calls: `getSkillsByCategory` and `getTopSkills`. */
module ProfileMethods {
  import opened Wrappers
  import opened Text
  import opened Seqs
  import opened Schema
  import opened SkillOrder

  /** The skill test of `getSkillsByCategory`: `skill.category === category`. */
  function InCategory(category: String): Skill -> bool {
    (x: Skill) => CategoryName(x.category) == category
  }

  /** `profile.getSkillsByCategory(category)`: the skills whose category is
      spelled exactly `category`, in document order. */
  function SkillsInCategory(skills: seq<Skill>, category: String): (r: seq<Skill>)
    ensures IsSubseq(r, skills)
    ensures forall x :: x in r <==> x in skills && CategoryName(x.category) == category
    ensures forall x :: multiset(r)[x] == if CategoryName(x.category) == category then multiset(skills)[x] else 0
  {
    FilterCounts(skills, InCategory(category));
    Filter(skills, InCategory(category))
  }

  /** For a spelling of a category the comparison is equality of categories;
      any other string (a different case, an unknown name) selects nothing. */
  lemma SkillsInCategoryExact(skills: seq<Skill>, category: String)
    ensures ParseCategory(category).None? ==> SkillsInCategory(skills, category) == []
    ensures ParseCategory(category).Some? ==>
              forall x :: x in SkillsInCategory(skills, category) <==> x in skills && Some(x.category) == ParseCategory(category)
  {
    if ParseCategory(category).Some? {
      forall x: Skill ensures CategoryName(x.category) == category <==> Some(x.category) == ParseCategory(category) {
        EnumRoundTrip(Beginner, x.category, Completed);
      }
    }
  }

  const DefaultTopLimit: int := 10

  /** What `getTopSkills` leaves behind: it sorts `this.skills` in place,
      so the document changes, and it returns a prefix of the sorted array. */
  datatype TopSkills = TopSkills(profile: Profile, top: seq<Skill>)

  /** `profile.getTopSkills(limit)`; an absent `limit` is 10. A negative
      limit is an end index counted from the back, as `slice` reads it. */
  function GetTopSkills(p: Profile, limit: Option<int>): (r: TopSkills)
    ensures r.profile == p.(skills := r.profile.skills)
    ensures Sorted(ByLevel, r.profile.skills)
    ensures StableReorder(ByLevel, p.skills, r.profile.skills)
    ensures multiset(r.profile.skills) == multiset(p.skills)
    ensures |r.top| <= |r.profile.skills| && r.top == r.profile.skills[..|r.top|]
    ensures var n := limit.GetOr(10);
            |r.top| == if 0 <= n then (if n < |p.skills| then n else |p.skills|)
                       else (if |p.skills| + n < 0 then 0 else |p.skills| + n)
  {
    var sorted := StableSort(ByLevel, p.skills);
    var top := JsSlice(sorted, 0, limit.GetOr(DefaultTopLimit));
    assert top == sorted[..|top|];
    TopSkills(p.(skills := sorted), top)
  }

  /** The first skill returned has the highest level in the profile, and
      every returned skill outranks or ties every skill left out. */
  lemma TopSkillsAreTop(p: Profile, limit: Option<int>)
    ensures var r := GetTopSkills(p, limit);
            (|r.top| > 0 ==> forall x :: x in p.skills ==> Weight(x.level) <= Weight(r.top[0].level))
            && forall i, j :: 0 <= i < |r.top| <= j < |r.profile.skills| ==>
                 Weight(r.profile.skills[j].level) <= Weight(r.top[i].level)
  {
    var r := GetTopSkills(p, limit);
    var s := r.profile.skills;
    if |r.top| > 0 {
      forall x | x in p.skills ensures Weight(x.level) <= Weight(r.top[0].level) {
        assert x in multiset(s);
        var j :| 0 <= j < |s| && s[j] == x;
        if j > 0 {
          assert Leq(ByLevel, s[0], s[j]);
        }
      }
    }
  }

  /** Skills of the same level come back in the order they had in the
      document. */
  lemma TopSkillsKeepTieOrder(p: Profile, limit: Option<int>, l: Level)
    ensures var s := GetTopSkills(p, limit).profile.skills;
            Filter(s, (y: Skill) => y.level == l) == Filter(p.skills, (y: Skill) => y.level == l)
  {
    var s := GetTopSkills(p, limit).profile.skills;
    var x := Skill([], l, Other);
    assert TieClass(ByLevel, s, x) == TieClass(ByLevel, p.skills, x);
    forall y ensures Tied(ByLevel, x, y) == (y.level == l) {
      TiedMeaning(ByLevel, x, y);
    }
    FilterExt(s, (y: Skill) => Tied(ByLevel, x, y), (y: Skill) => y.level == l);
    FilterExt(p.skills, (y: Skill) => Tied(ByLevel, x, y), (y: Skill) => y.level == l);
  }
}
