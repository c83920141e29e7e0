/** The grouping `getSkillsByCategory` builds when no category is given:
    `skills.reduce` into an object keyed by category. A JavaScript object
    lists its (non-numeric) keys in insertion order, so the object is
    modelled as an ordered list of buckets. */
module Grouping {
  import opened Wrappers
  import opened Seqs
  import opened Schema
  import opened ProfileMethods

  datatype Bucket = Bucket(category: Category, skills: seq<Skill>)

  /** The grouped object: buckets in key insertion order. */
  type Groups = seq<Bucket>

  /** The object's keys, in order. */
  function Keys(g: Groups): (ks: seq<Category>)
    ensures |ks| == |g|
    ensures forall i :: 0 <= i < |g| ==> ks[i] == g[i].category
  {
    if |g| == 0 then [] else [g[0].category] + Keys(g[1..])
  }

  /** `groups[c]`: the first bucket with key `c`, if any. */
  function Lookup(g: Groups, c: Category): (r: Option<seq<Skill>>)
    ensures r.Some? <==> c in Keys(g)
  {
    if |g| == 0 then None
    else if g[0].category == c then Some(g[0].skills)
    else
      assert Keys(g) == [g[0].category] + Keys(g[1..]);
      Lookup(g[1..], c)
  }

  /** `groups[c] || []`. */
  function BucketOf(g: Groups, c: Category): seq<Skill> {
    Lookup(g, c).GetOr([])
  }

  /** The number of skills over all buckets. */
  function TotalSize(g: Groups): nat {
    if |g| == 0 then 0 else |g[0].skills| + TotalSize(g[1..])
  }

  /** One step of the reduce: create the bucket on first sight of the
      category, then push the skill onto it. */
  function AddSkill(g: Groups, x: Skill): (r: Groups)
    ensures Keys(r) == if x.category in Keys(g) then Keys(g) else Keys(g) + [x.category]
    ensures TotalSize(r) == TotalSize(g) + 1
  {
    if |g| == 0 then [Bucket(x.category, [x])]
    else if g[0].category == x.category then
      var r := [Bucket(x.category, g[0].skills + [x])] + g[1..];
      assert r[1..] == g[1..];
      r
    else
      var rest := AddSkill(g[1..], x);
      var r := [g[0]] + rest;
      assert r[1..] == rest;
      assert Keys(g) == [g[0].category] + Keys(g[1..]);
      r
  }

  /** The skill goes into its own category's bucket, at the end, and every
      other bucket is left as it was. */
  lemma {:induction false} AddSkillBucket(g: Groups, x: Skill, c: Category)
    ensures BucketOf(AddSkill(g, x), c) == if c == x.category then BucketOf(g, c) + [x] else BucketOf(g, c)
  {
    if |g| > 0 && g[0].category != x.category {
      AddSkillBucket(g[1..], x, c);
      assert AddSkill(g, x)[1..] == AddSkill(g[1..], x);
    }
  }

  /** The index of the first skill of category `c`, or `|s|` if none. */
  function FirstSeen(s: seq<Skill>, c: Category): (k: nat)
    ensures k <= |s|
    ensures k < |s| ==> s[k].category == c
    ensures forall i :: 0 <= i < k ==> s[i].category != c
  {
    if |s| == 0 then 0
    else if s[0].category == c then 0
    else 1 + FirstSeen(s[1..], c)
  }

  lemma FirstSeenSnoc(s: seq<Skill>, x: Skill, c: Category)
    ensures FirstSeen(s + [x], c) == if FirstSeen(s, c) < |s| then FirstSeen(s, c)
                                     else if x.category == c then |s| else |s| + 1
  {
    var t := s + [x];
    var k := FirstSeen(t, c);
    if FirstSeen(s, c) < |s| {
      assert t[FirstSeen(s, c)].category == c;
    } else if x.category == c {
      assert t[|s|].category == c;
    }
  }

  /** The categories of `s`, skill by skill. */
  function Categories(s: seq<Skill>): (cs: seq<Category>)
    ensures |cs| == |s|
    ensures forall i :: 0 <= i < |s| ==> cs[i] == s[i].category
  {
    seq(|s|, i requires 0 <= i < |s| => s[i].category)
  }

  /** A category is seen before the end exactly when it occurs. */
  lemma FirstSeenIn(s: seq<Skill>, c: Category)
    ensures FirstSeen(s, c) < |s| <==> c in Categories(s)
  {
    if FirstSeen(s, c) < |s| {
      assert Categories(s)[FirstSeen(s, c)] == c;
    }
  }

  /** Keys come in the order their categories first occur in `s`, and each
      key is a category that occurs. */
  predicate KeysFirstSeen(s: seq<Skill>, ks: seq<Category>) {
    && (forall i :: 0 <= i < |ks| ==> FirstSeen(s, ks[i]) < |s|)
    && (forall i, j :: 0 <= i < j < |ks| ==> FirstSeen(s, ks[i]) < FirstSeen(s, ks[j]))
  }

  /** The reduce of `getSkillsByCategory` over `skills`: one bucket per
      category present, keyed in first-seen order, holding exactly that
      category's skills in document order. */
  function GroupByCategory(skills: seq<Skill>): (g: Groups)
    ensures TotalSize(g) == |skills|
    decreases |skills|
  {
    if |skills| == 0 then []
    else AddSkill(GroupByCategory(skills[..|skills| - 1]), skills[|skills| - 1])
  }

  /** The reduce adds the last skill to the grouping of the ones before. */
  lemma GroupByCategorySnoc(s: seq<Skill>, x: Skill)
    ensures GroupByCategory(s + [x]) == AddSkill(GroupByCategory(s), x)
  {
    assert (s + [x])[..|s|] == s;
  }

  /** Each bucket holds exactly its category's skills, in document order. */
  lemma {:induction false} GroupedBuckets(skills: seq<Skill>)
    ensures forall c :: BucketOf(GroupByCategory(skills), c) == SkillsInCategory(skills, CategoryName(c))
    decreases |skills|
  {
    if |skills| > 0 {
      var s, x := skills[..|skills| - 1], skills[|skills| - 1];
      assert skills == s + [x];
      GroupedBuckets(s);
      GroupByCategorySnoc(s, x);
      GroupStepBuckets(s, x, GroupByCategory(s));
    }
  }

  /** `GroupedBuckets` for one category. */
  lemma GroupedBucket(skills: seq<Skill>, c: Category)
    ensures BucketOf(GroupByCategory(skills), c) == SkillsInCategory(skills, CategoryName(c))
  {
    GroupedBuckets(skills);
  }

  /** The keys are exactly the categories present, in first-seen order. */
  lemma {:induction false} GroupedKeys(skills: seq<Skill>)
    ensures forall c :: c in Keys(GroupByCategory(skills)) <==> c in Categories(skills)
    ensures KeysFirstSeen(skills, Keys(GroupByCategory(skills)))
    decreases |skills|
  {
    if |skills| > 0 {
      var s, x := skills[..|skills| - 1], skills[|skills| - 1];
      assert skills == s + [x];
      var g := GroupByCategory(s);
      GroupedKeys(s);
      GroupByCategorySnoc(s, x);
      GroupStepKeys(s, x, Keys(g));
      assert Keys(GroupByCategory(skills)) == if x.category in Keys(g) then Keys(g) else Keys(g) + [x.category];
    }
  }

  lemma GroupStepBuckets(s: seq<Skill>, x: Skill, g: Groups)
    requires forall c :: BucketOf(g, c) == SkillsInCategory(s, CategoryName(c))
    ensures forall c :: BucketOf(AddSkill(g, x), c) == SkillsInCategory(s + [x], CategoryName(c))
  {
    forall c ensures BucketOf(AddSkill(g, x), c) == SkillsInCategory(s + [x], CategoryName(c)) {
      GroupStepBucket(s, x, g, c);
    }
  }

  /** `GroupStepBuckets` for one category. */
  lemma GroupStepBucket(s: seq<Skill>, x: Skill, g: Groups, c: Category)
    requires BucketOf(g, c) == SkillsInCategory(s, CategoryName(c))
    ensures BucketOf(AddSkill(g, x), c) == SkillsInCategory(s + [x], CategoryName(c))
  {
    AddSkillBucket(g, x, c);
    FilterConcat(s, [x], InCategory(CategoryName(c)));
    EnumRoundTrip(Beginner, c, Completed);
    EnumRoundTrip(Beginner, x.category, Completed);
  }

  lemma GroupStepKeys(s: seq<Skill>, x: Skill, ks: seq<Category>)
    requires forall c :: c in ks <==> c in Categories(s)
    requires KeysFirstSeen(s, ks)
    ensures var ks' := if x.category in ks then ks else ks + [x.category];
            && (forall c :: c in ks' <==> c in Categories(s + [x]))
            && KeysFirstSeen(s + [x], ks')
  {
    var t := s + [x];
    var ks' := if x.category in ks then ks else ks + [x.category];
    assert Categories(t) == Categories(s) + [x.category];
    forall i | 0 <= i < |ks'| ensures FirstSeen(t, ks'[i]) < |t| {
      FirstSeenSnoc(s, x, ks'[i]);
    }
    forall i, j | 0 <= i < j < |ks'| ensures FirstSeen(t, ks'[i]) < FirstSeen(t, ks'[j]) {
      FirstSeenSnoc(s, x, ks'[i]);
      FirstSeenSnoc(s, x, ks'[j]);
      if j == |ks| {
        assert x.category !in Categories(s);
        FirstSeenIn(s, x.category);
      }
    }
  }

  /** Each key appears once. */
  lemma GroupKeysDistinct(skills: seq<Skill>)
    ensures var ks := Keys(GroupByCategory(skills));
            forall i, j :: 0 <= i < j < |ks| ==> ks[i] != ks[j]
  {
    GroupedKeys(skills);
  }

  /** `Object.values(groups)` concatenated: every bucket in key order. */
  function Flatten(g: Groups): (r: seq<Skill>)
    ensures |r| == TotalSize(g)
    ensures BucketsInPlace(g, r)
  {
    if |g| == 0 then []
    else
      var rest := Flatten(g[1..]);
      BucketsInPlaceCons(g, rest);
      g[0].skills + rest
  }

  /** Where bucket `i` starts in the spread: the size of the buckets
      before it. */
  function Start(g: Groups, i: nat): nat
    requires i <= |g|
  {
    TotalSize(g[..i])
  }

  /** Each bucket `i` of `g` occupies `r` from `Start(g, i)` on, in order. */
  predicate BucketsInPlace(g: Groups, r: seq<Skill>) {
    forall i :: 0 <= i < |g| ==>
      && Start(g, i) + |g[i].skills| <= |r|
      && r[Start(g, i)..Start(g, i) + |g[i].skills|] == g[i].skills
  }

  /** Placing the first bucket in front of the rest's spread puts every
      bucket in place. */
  lemma BucketsInPlaceCons(g: Groups, rest: seq<Skill>)
    requires |g| > 0 && BucketsInPlace(g[1..], rest)
    ensures BucketsInPlace(g, g[0].skills + rest)
  {
    forall i | 0 <= i < |g|
      ensures && Start(g, i) + |g[i].skills| <= |g[0].skills + rest|
              && (g[0].skills + rest)[Start(g, i)..Start(g, i) + |g[i].skills|] == g[i].skills
    {
      if i == 0 {
        assert g[..0] == [];
      } else {
        BucketInPlaceCons(g, rest, i);
      }
    }
  }

  /** Past the first bucket, positions shift by its size. */
  lemma StartCons(g: Groups, i: nat)
    requires 0 < i <= |g|
    ensures Start(g, i) == |g[0].skills| + Start(g[1..], i - 1)
  {
    assert g[..i][1..] == g[1..][..i - 1];
  }

  lemma BucketInPlaceCons(g: Groups, rest: seq<Skill>, i: nat)
    requires 0 < i < |g|
    requires Start(g[1..], i - 1) + |g[i].skills| <= |rest|
    requires rest[Start(g[1..], i - 1)..Start(g[1..], i - 1) + |g[i].skills|] == g[i].skills
    ensures Start(g, i) == |g[0].skills| + Start(g[1..], i - 1)
    ensures (g[0].skills + rest)[Start(g, i)..Start(g, i) + |g[i].skills|] == g[i].skills
  {
    StartCons(g, i);
    var n, a := |g[0].skills|, Start(g[1..], i - 1);
    var r := g[0].skills + rest;
    assert r[n + a..n + a + |g[i].skills|] == rest[a..a + |g[i].skills|];
  }

  /** Dropping the first bucket's run leaves the other buckets in place. */
  lemma BucketsInPlaceTail(g: Groups, r: seq<Skill>)
    requires |g| > 0 && BucketsInPlace(g, r)
    ensures |g[0].skills| <= |r| && BucketsInPlace(g[1..], r[|g[0].skills|..])
  {
    var n := |g[0].skills|;
    assert g[..0] == [];
    var rest := r[n..];
    forall i | 0 <= i < |g| - 1
      ensures && Start(g[1..], i) + |g[1..][i].skills| <= |rest|
              && rest[Start(g[1..], i)..Start(g[1..], i) + |g[1..][i].skills|] == g[1..][i].skills
    {
      StartCons(g, i + 1);
      var a, m := Start(g[1..], i), |g[i + 1].skills|;
      assert r[n + a..n + a + m] == g[i + 1].skills;
      assert rest[a..a + m] == r[n + a..n + a + m];
    }
  }

  /** Having the right length with every bucket in place determines the
      spread: it is `Flatten`. */
  lemma {:induction false} BucketsInPlaceUnique(g: Groups, r: seq<Skill>)
    requires |r| == TotalSize(g) && BucketsInPlace(g, r)
    ensures r == Flatten(g)
    decreases |g|
  {
    if |g| > 0 {
      var n := |g[0].skills|;
      assert g[..0] == [];
      assert r[0..n] == g[0].skills;
      var rest := r[n..];
      BucketsInPlaceTail(g, r);
      BucketsInPlaceUnique(g[1..], rest);
      assert r == r[0..n] + rest;
    }
  }

  /** With distinct keys, `groups[c]` for a bucket's own key is that bucket. */
  lemma {:induction false} LookupDistinct(g: Groups, i: nat)
    requires i < |g|
    requires forall a, b :: 0 <= a < b < |g| ==> g[a].category != g[b].category
    ensures BucketOf(g, g[i].category) == g[i].skills
    decreases |g|
  {
    if i > 0 {
      assert g[0].category != g[i].category;
      LookupDistinct(g[1..], i - 1);
    }
  }

  /** The spread of the server's grouping lists the categories in first-seen
      order, run `i` holding exactly the skills of the `i`-th category seen,
      in document order. */
  lemma FlattenGroupedInOrder(skills: seq<Skill>, g: Groups, i: nat)
    requires g == GroupByCategory(skills) && i < |g|
    ensures Flatten(g)[Start(g, i)..Start(g, i) + |g[i].skills|]
            == SkillsInCategory(skills, CategoryName(g[i].category))
  {
    GroupedCategoriesDistinct(skills, g);
    GroupedBucket(skills, g[i].category);
    SpreadRun(g, i, SkillsInCategory(skills, CategoryName(g[i].category)));
  }

  /** One run of `FlattenGroupedInOrder`. */
  lemma SpreadRun(g: Groups, i: nat, expected: seq<Skill>)
    requires i < |g|
    requires forall a, b :: 0 <= a < b < |g| ==> g[a].category != g[b].category
    requires BucketOf(g, g[i].category) == expected
    ensures Flatten(g)[Start(g, i)..Start(g, i) + |g[i].skills|] == expected
  {
    LookupDistinct(g, i);
  }

  /** No two buckets of the grouping share a category. */
  lemma GroupedCategoriesDistinct(skills: seq<Skill>, g: Groups)
    requires g == GroupByCategory(skills)
    ensures forall a, b :: 0 <= a < b < |g| ==> g[a].category != g[b].category
  {
    GroupKeysDistinct(skills);
    assert forall i, j :: 0 <= i < j < |Keys(g)| ==> Keys(g)[i] != Keys(g)[j];
    DistinctCategories(g);
  }

  /** Distinct keys are distinct bucket categories. */
  lemma DistinctCategories(g: Groups)
    requires forall i, j :: 0 <= i < j < |Keys(g)| ==> Keys(g)[i] != Keys(g)[j]
    ensures forall a, b :: 0 <= a < b < |g| ==> g[a].category != g[b].category
  {
    forall a, b | 0 <= a < b < |g| ensures g[a].category != g[b].category {
      assert Keys(g)[a] == g[a].category && Keys(g)[b] == g[b].category;
    }
  }

  /** Adding a skill adds exactly that skill to the flattened groups. */
  lemma {:induction false} FlattenAddSkill(g: Groups, x: Skill)
    ensures multiset(Flatten(AddSkill(g, x))) == multiset(Flatten(g)) + multiset{x}
  {
    if |g| > 0 {
      var r := AddSkill(g, x);
      assert r[1..] == if g[0].category == x.category then g[1..] else AddSkill(g[1..], x);
      if g[0].category != x.category {
        FlattenAddSkill(g[1..], x);
      }
    }
  }

  /** Concatenating every bucket gives back the skills, up to order. */
  lemma {:induction false} FlattenGrouped(skills: seq<Skill>)
    ensures multiset(Flatten(GroupByCategory(skills))) == multiset(skills)
    decreases |skills|
  {
    if |skills| > 0 {
      var s, x := skills[..|skills| - 1], skills[|skills| - 1];
      assert skills == s + [x];
      FlattenGrouped(s);
      FlattenStep(s, x);
    }
  }

  lemma FlattenStep(s: seq<Skill>, x: Skill)
    ensures multiset(Flatten(GroupByCategory(s + [x]))) == multiset(Flatten(GroupByCategory(s))) + multiset{x}
  {
    assert (s + [x])[..|s|] == s;
    FlattenAddSkill(GroupByCategory(s), x);
  }
}
