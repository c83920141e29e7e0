/** Strings as the portfolio code uses them: lower-casing, substring
    containment (`String.prototype.includes`), trimming and the order used
    to sort skill names. Unicode case mapping is replaced by its ASCII part. */
module Text {

  type String = seq<char>

  predicate IsUpper(c: char) {
    'A' <= c <= 'Z'
  }

  /** The whitespace that `trim` removes, restricted to ASCII:
      space, tab, line feed, vertical tab, form feed, carriage return. */
  predicate IsSpace(c: char) {
    c == ' ' || '\t' <= c <= '\r'
  }

  /** `toLowerCase` on one ASCII code unit. */
  function LowerChar(c: char): (r: char)
    ensures !IsUpper(r)
    ensures IsSpace(r) <==> IsSpace(c)
  {
    if IsUpper(c) then (c as int + 32) as char else c
  }

  /** No upper-case ASCII letter occurs in `s`. */
  predicate IsLower(s: String) {
    forall i :: 0 <= i < |s| ==> !IsUpper(s[i])
  }

  /** `s.toLowerCase()`: maps every code unit, keeps the length. */
  function Lower(s: String): (r: String)
    ensures |r| == |s|
    ensures IsLower(r)
    ensures forall i :: 0 <= i < |s| ==> r[i] == LowerChar(s[i])
  {
    seq(|s|, i requires 0 <= i < |s| => LowerChar(s[i]))
  }

  /** Lower-casing leaves lower-case text alone, so it is idempotent. */
  lemma LowerOfLower(s: String)
    requires IsLower(s)
    ensures Lower(s) == s
  {
  }

  /** A lower-case letter occurs in `Lower(s)` only if it, or its
      upper-case form, occurs in `s`. */
  lemma LowerLacks(s: String, c: char)
    requires 'a' <= c <= 'z'
    requires c !in s && (c as int - 32) as char !in s
    ensures c !in Lower(s)
  {
    forall i | 0 <= i < |s| ensures Lower(s)[i] != c {
      assert s[i] != c && s[i] != (c as int - 32) as char;
    }
  }

  /** Lower-casing commutes with taking a slice. */
  lemma LowerSlice(s: String, i: int, j: int)
    requires 0 <= i <= j <= |s|
    ensures Lower(s)[i..j] == Lower(s[i..j])
  {
  }

  predicate StartsWith(s: String, p: String) {
    |p| <= |s| && s[..|p|] == p
  }

  /** `s.includes(t)`: `t` occurs in `s` at some position; the empty string
      occurs in every string. */
  predicate Includes(s: String, t: String)
    decreases |s|
  {
    StartsWith(s, t) || (|s| > 0 && Includes(s[1..], t))
  }

  /** The reference meaning of containment: a contiguous slice equal to `t`. */
  ghost predicate OccursAt(s: String, t: String, i: int) {
    0 <= i && i + |t| <= |s| && s[i..i + |t|] == t
  }

  lemma {:induction false} IncludesIff(s: String, t: String)
    ensures Includes(s, t) <==> exists i :: OccursAt(s, t, i)
    decreases |s|
  {
    if Includes(s, t) {
      if StartsWith(s, t) {
        assert OccursAt(s, t, 0);
      } else {
        IncludesIff(s[1..], t);
        var i :| OccursAt(s[1..], t, i);
        assert s[1..][i..i + |t|] == s[i + 1..i + 1 + |t|];
        assert OccursAt(s, t, i + 1);
      }
    }
    if exists i :: OccursAt(s, t, i) {
      var i :| OccursAt(s, t, i);
      if i == 0 {
        assert StartsWith(s, t);
      } else {
        assert s[1..][i - 1..i - 1 + |t|] == s[i..i + |t|];
        assert OccursAt(s[1..], t, i - 1);
        IncludesIff(s[1..], t);
      }
    }
  }

  /** Every character of a contained term occurs in the text. */
  lemma {:induction false} IncludesChars(s: String, t: String)
    requires Includes(s, t)
    ensures forall k :: 0 <= k < |t| ==> t[k] in s
    decreases |s|
  {
    if StartsWith(s, t) {
      forall k | 0 <= k < |t| ensures t[k] in s {
        assert s[k] == t[k];
      }
    } else {
      IncludesChars(s[1..], t);
      forall k | 0 <= k < |t| ensures t[k] in s {
        var j :| 0 <= j < |s[1..]| && s[1..][j] == t[k];
        assert s[j + 1] == t[k];
      }
    }
  }

  /** A term with a character the text lacks is not contained in it. */
  lemma MissingCharExcludes(s: String, t: String, k: int)
    requires 0 <= k < |t| && t[k] !in s
    ensures !Includes(s, t)
  {
    if Includes(s, t) {
      IncludesChars(s, t);
    }
  }

  /** Containment is transitive: a string containing `t` contains every
      substring of `t`. */
  lemma IncludesTrans(a: String, b: String, c: String)
    requires Includes(a, b) && Includes(b, c)
    ensures Includes(a, c)
  {
    IncludesIff(a, b);
    IncludesIff(b, c);
    IncludesIff(a, c);
    var i :| OccursAt(a, b, i);
    var j :| OccursAt(b, c, j);
    forall k | 0 <= k < |c|
      ensures a[i + j + k] == c[k]
    {
      assert b[j + k] == c[k];
      assert a[i + (j + k)] == b[j + k];
    }
    assert OccursAt(a, c, i + j);
  }

  /** Containment survives lower-casing both sides. */
  lemma IncludesLower(s: String, t: String)
    requires Includes(s, t)
    ensures Includes(Lower(s), Lower(t))
  {
    IncludesIff(s, t);
    var i :| OccursAt(s, t, i);
    LowerSlice(s, i, i + |t|);
    assert OccursAt(Lower(s), Lower(t), i);
    IncludesIff(Lower(s), Lower(t));
  }

  /** Every string includes itself. */
  lemma IncludesSelf(s: String)
    ensures Includes(s, s)
  {
    assert StartsWith(s, s);
  }

  /** The number of whitespace code units `trimStart` removes. */
  function LeadingSpaces(s: String): (k: nat)
    ensures k <= |s|
    ensures forall m :: 0 <= m < k ==> IsSpace(s[m])
    ensures k < |s| ==> !IsSpace(s[k])
    decreases |s|
  {
    if |s| > 0 && IsSpace(s[0]) then 1 + LeadingSpaces(s[1..]) else 0
  }

  /** The length `trimEnd` keeps. */
  function KeptByTrimEnd(s: String): (k: nat)
    ensures k <= |s|
    ensures forall m :: k <= m < |s| ==> IsSpace(s[m])
    ensures k > 0 ==> !IsSpace(s[k - 1])
    decreases |s|
  {
    if |s| > 0 && IsSpace(s[|s| - 1]) then KeptByTrimEnd(s[..|s| - 1]) else |s|
  }

  /** No whitespace at either end: the form a `trim: true` path stores. */
  predicate Trimmed(s: String) {
    |s| > 0 ==> !IsSpace(s[0]) && !IsSpace(s[|s| - 1])
  }

  /** `s.trim()` with ASCII whitespace: the schema's `trim: true` setter.
      It removes exactly the whitespace before and after the text. */
  function Trim(s: String): (r: String)
    ensures Trimmed(r)
    ensures exists i :: OccursAt(s, r, i)
                        && (forall m :: 0 <= m < i ==> IsSpace(s[m]))
                        && (forall m :: i + |r| <= m < |s| ==> IsSpace(s[m]))
  {
    var i := LeadingSpaces(s);
    var j := KeptByTrimEnd(s[i..]);
    TrimWitness(s, i, j);
    s[i..][..j]
  }

  lemma TrimWitness(s: String, i: nat, j: nat)
    requires i <= |s| && (forall m :: 0 <= m < i ==> IsSpace(s[m]))
    requires j <= |s| - i && (forall m :: j <= m < |s| - i ==> IsSpace(s[i..][m]))
    ensures OccursAt(s, s[i..][..j], i)
    ensures forall m :: 0 <= m < i ==> IsSpace(s[m])
    ensures forall m :: i + |s[i..][..j]| <= m < |s| ==> IsSpace(s[m])
  {
    assert s[i..i + j] == s[i..][..j];
    forall m | i + j <= m < |s|
      ensures IsSpace(s[m])
    {
      assert s[m] == s[i..][m - i];
    }
  }

  /** A string with no surrounding whitespace is its own trim. */
  lemma TrimOfTrimmed(s: String)
    requires Trimmed(s)
    ensures Trim(s) == s
  {
  }

  /** The stored form of a `trim: true, lowercase: true` schema path. */
  function Normalize(s: String): (r: String)
    ensures IsLower(r)
    ensures Trimmed(r)
    ensures |r| <= |s|
  {
    Lower(Trim(s))
  }

  /** Storing a stored value again changes nothing. */
  lemma NormalizeIdempotent(s: String)
    ensures Normalize(Normalize(s)) == Normalize(s)
  {
    var n := Normalize(s);
    TrimOfTrimmed(n);
    LowerOfLower(n);
  }

  /** The ordering used in place of `localeCompare` for skill names:
      lexicographic on code units, a shorter prefix first. */
  predicate NameLeq(a: String, b: String)
    decreases |a|
  {
    |a| == 0 || (|b| > 0 && (a[0] < b[0] || (a[0] == b[0] && NameLeq(a[1..], b[1..]))))
  }

  lemma {:induction false} NameLeqRefl(a: String)
    ensures NameLeq(a, a)
    decreases |a|
  {
    if |a| > 0 {
      NameLeqRefl(a[1..]);
    }
  }

  lemma {:induction false} NameLeqTotal(a: String, b: String)
    ensures NameLeq(a, b) || NameLeq(b, a)
    decreases |a|
  {
    if |a| > 0 && |b| > 0 && a[0] == b[0] {
      NameLeqTotal(a[1..], b[1..]);
    }
  }

  lemma {:induction false} NameLeqTrans(a: String, b: String, c: String)
    requires NameLeq(a, b) && NameLeq(b, c)
    ensures NameLeq(a, c)
    decreases |a|
  {
    if |a| > 0 && a[0] == b[0] && b[0] == c[0] {
      NameLeqTrans(a[1..], b[1..], c[1..]);
    }
  }

  lemma {:induction false} NameLeqAntisym(a: String, b: String)
    requires NameLeq(a, b) && NameLeq(b, a)
    ensures a == b
    decreases |a|
  {
    if |a| > 0 {
      NameLeqAntisym(a[1..], b[1..]);
      assert a == [a[0]] + a[1..];
      assert b == [b[0]] + b[1..];
    }
  }
}
