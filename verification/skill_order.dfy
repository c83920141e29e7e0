/** The two orders skills are sorted in, and the stable sort that
    `Array.prototype.sort` performs with them (stable since ECMAScript 2019,
    section 22.1.3.27). The sort is written as an insertion sort; the lemma
    `StableSortUnique` shows that every stable sort gives the same result,
    so the engine's actual algorithm does not matter. */
module SkillOrder {
  import opened Text
  import opened Seqs
  import opened Schema

  /** `ByLevel`: the comparator `weight(b) - weight(a)`, higher ranks first.
      `ByName`: the comparator `a.name.localeCompare(b.name)`. */
  datatype SortKey = ByLevel | ByName

  /** `a` may come before `b`: the comparator does not put `b` first. */
  predicate Leq(k: SortKey, a: Skill, b: Skill) {
    match k
    case ByLevel => Weight(a.level) >= Weight(b.level)
    case ByName => NameLeq(a.name, b.name)
  }

  /** The comparator returns 0: the sort keeps such skills in input order. */
  predicate Tied(k: SortKey, a: Skill, b: Skill) {
    Leq(k, a, b) && Leq(k, b, a)
  }

  lemma LeqTotal(k: SortKey, a: Skill, b: Skill)
    ensures Leq(k, a, b) || Leq(k, b, a)
  {
    if k == ByName {
      NameLeqTotal(a.name, b.name);
    }
  }

  lemma LeqTrans(k: SortKey, a: Skill, b: Skill, c: Skill)
    requires Leq(k, a, b) && Leq(k, b, c)
    ensures Leq(k, a, c)
  {
    if k == ByName {
      NameLeqTrans(a.name, b.name, c.name);
    }
  }

  /** Ties are exactly equal weights, or equal names. */
  lemma TiedMeaning(k: SortKey, a: Skill, b: Skill)
    ensures k == ByLevel ==> (Tied(k, a, b) <==> a.level == b.level)
    ensures k == ByName ==> (Tied(k, a, b) <==> a.name == b.name)
  {
    if k == ByName {
      NameLeqRefl(a.name);
      if Tied(k, a, b) {
        NameLeqAntisym(a.name, b.name);
      }
    }
  }

  predicate Sorted(k: SortKey, s: seq<Skill>) {
    forall i, j :: 0 <= i < j < |s| ==> Leq(k, s[i], s[j])
  }

  /** The skills of `s` tied with `x`, in the order `s` has them. */
  function TieClass(k: SortKey, s: seq<Skill>, x: Skill): seq<Skill> {
    Filter(s, (y: Skill) => Tied(k, x, y))
  }

  /** `r` reorders `s` stably: each group of tied skills appears in `r` in
      exactly the order it has in `s`. This also makes `r` a permutation of
      `s` (see `StableIsPermutation`). */
  ghost predicate StableReorder(k: SortKey, s: seq<Skill>, r: seq<Skill>) {
    forall x :: TieClass(k, r, x) == TieClass(k, s, x)
  }

  lemma TieClassCons(k: SortKey, h: Skill, t: seq<Skill>, x: Skill)
    ensures TieClass(k, [h] + t, x) == if Tied(k, x, h) then [h] + TieClass(k, t, x) else TieClass(k, t, x)
  {
    assert ([h] + t)[1..] == t;
  }

  /** Inserts `x` into a sorted list before the first skill that must not
      precede it, so `x` lands ahead of the skills it is tied with. */
  function Insert(k: SortKey, x: Skill, t: seq<Skill>): (r: seq<Skill>)
    requires Sorted(k, t)
    ensures Sorted(k, r)
    ensures multiset(r) == multiset(t) + multiset{x}
    decreases |t|
  {
    if |t| == 0 then [x]
    else if Leq(k, x, t[0]) then
      InsertFront(k, x, t);
      [x] + t
    else
      var rest := Insert(k, x, t[1..]);
      InsertBehind(k, x, t, rest);
      [t[0]] + rest
  }

  lemma InsertFront(k: SortKey, x: Skill, t: seq<Skill>)
    requires Sorted(k, t) && |t| > 0 && Leq(k, x, t[0])
    ensures Sorted(k, [x] + t)
  {
    var r := [x] + t;
    forall i, j | 0 <= i < j < |r| ensures Leq(k, r[i], r[j]) {
      if i == 0 && j > 1 {
        LeqTrans(k, x, t[0], t[j - 1]);
      }
    }
  }

  lemma InsertBehind(k: SortKey, x: Skill, t: seq<Skill>, rest: seq<Skill>)
    requires Sorted(k, t) && |t| > 0 && !Leq(k, x, t[0])
    requires Sorted(k, rest) && multiset(rest) == multiset(t[1..]) + multiset{x}
    ensures Sorted(k, [t[0]] + rest)
    ensures multiset([t[0]] + rest) == multiset(t) + multiset{x}
  {
    var h := t[0];
    var r := [h] + rest;
    assert t == [h] + t[1..];
    LeqTotal(k, x, h);
    forall i, j | 0 <= i < j < |r| ensures Leq(k, r[i], r[j]) {
      if i == 0 {
        assert r[j] == rest[j - 1];
        assert rest[j - 1] in multiset(rest);
        if r[j] != x {
          assert r[j] in multiset(t[1..]);
          var m :| 0 <= m < |t[1..]| && t[1..][m] == r[j];
          assert t[m + 1] == r[j];
        }
      }
    }
  }

  /** Where the inserted skill lands among those it is tied with: first. */
  lemma {:induction false} InsertTies(k: SortKey, x: Skill, t: seq<Skill>, y: Skill)
    requires Sorted(k, t)
    ensures TieClass(k, Insert(k, x, t), y) == if Tied(k, y, x) then [x] + TieClass(k, t, y) else TieClass(k, t, y)
    decreases |t|
  {
    if |t| == 0 {
      TieClassCons(k, x, [], y);
    } else if Leq(k, x, t[0]) {
      TieClassCons(k, x, t, y);
    } else {
      var h := t[0];
      assert t == [h] + t[1..];
      InsertTies(k, x, t[1..], y);
      TieClassCons(k, h, Insert(k, x, t[1..]), y);
      TieClassCons(k, h, t[1..], y);
      LeqTotal(k, x, h);
      if Tied(k, y, x) && Tied(k, y, h) {
        LeqTrans(k, x, y, h);
      }
    }
  }

  /** Inserting the head into the sorted tail keeps every tie group in
      input order. */
  lemma SortStep(k: SortKey, s: seq<Skill>, rest: seq<Skill>)
    requires |s| > 0 && Sorted(k, rest)
    requires multiset(rest) == multiset(s[1..]) && StableReorder(k, s[1..], rest)
    ensures multiset(Insert(k, s[0], rest)) == multiset(s)
    ensures StableReorder(k, s, Insert(k, s[0], rest))
  {
    var r := Insert(k, s[0], rest);
    assert s == [s[0]] + s[1..];
    forall y ensures TieClass(k, r, y) == TieClass(k, s, y) {
      InsertTies(k, s[0], rest, y);
      TieClassCons(k, s[0], s[1..], y);
    }
  }

  /** The stable sort: ordered by the key, ties in input order. */
  function StableSort(k: SortKey, s: seq<Skill>): (r: seq<Skill>)
    ensures Sorted(k, r)
    ensures multiset(r) == multiset(s)
    ensures StableReorder(k, s, r)
    decreases |s|
  {
    if |s| == 0 then []
    else
      var rest := StableSort(k, s[1..]);
      SortStep(k, s, rest);
      Insert(k, s[0], rest)
  }

  /** A stable reordering adds and drops nothing. */
  lemma StableIsPermutation(k: SortKey, s: seq<Skill>, r: seq<Skill>)
    requires StableReorder(k, s, r)
    ensures multiset(r) == multiset(s)
  {
    forall x ensures multiset(r)[x] == multiset(s)[x] {
      LeqTotal(k, x, x);
      FilterCounts(r, (y: Skill) => Tied(k, x, y));
      FilterCounts(s, (y: Skill) => Tied(k, x, y));
      assert TieClass(k, r, x) == TieClass(k, s, x);
    }
  }

  /** The head of a non-empty list is in its own tie group. */
  lemma TieClassOfHead(k: SortKey, s: seq<Skill>)
    requires |s| > 0
    ensures |TieClass(k, s, s[0])| > 0
  {
    LeqTotal(k, s[0], s[0]);
    assert s[0] in TieClass(k, s, s[0]);
  }

  /** The empty list has no tie groups. */
  lemma TieClassOfEmpty(k: SortKey)
    ensures forall x :: TieClass(k, [], x) == []
  {
  }

  /** Two sorted lists with the same tie groups are the same list. */
  lemma {:induction false} SortedTiesDetermine(k: SortKey, r1: seq<Skill>, r2: seq<Skill>)
    requires Sorted(k, r1) && Sorted(k, r2)
    requires forall x :: TieClass(k, r1, x) == TieClass(k, r2, x)
    ensures r1 == r2
    decreases |r1|
  {
    if |r1| == 0 || |r2| == 0 {
      if |r1| != |r2| {
        TieClassOfHead(k, if |r1| > 0 then r1 else r2);
        TieClassOfEmpty(k);
      }
    } else {
      var a, b := r1[0], r2[0];
      LeqTotal(k, a, a);
      LeqTotal(k, b, b);
      assert r1 == [a] + r1[1..];
      assert r2 == [b] + r2[1..];
      assert a in TieClass(k, r1, a);
      assert a in r2;
      assert b in TieClass(k, r2, b);
      assert b in r1;
      assert Leq(k, b, a) && Leq(k, a, b);
      TieClassCons(k, a, r1[1..], a);
      TieClassCons(k, b, r2[1..], a);
      assert a == b;
      forall x ensures TieClass(k, r1[1..], x) == TieClass(k, r2[1..], x) {
        TieClassCons(k, a, r1[1..], x);
        TieClassCons(k, b, r2[1..], x);
      }
      SortedTiesDetermine(k, r1[1..], r2[1..]);
    }
  }

  /** Any ordering that is sorted by the key and keeps ties in input order
      is the one `StableSort` computes: a stable sort has a unique result. */
  lemma StableSortUnique(k: SortKey, s: seq<Skill>, r: seq<Skill>)
    requires Sorted(k, r) && StableReorder(k, s, r)
    ensures r == StableSort(k, s)
  {
    SortedTiesDetermine(k, r, StableSort(k, s));
  }
}
