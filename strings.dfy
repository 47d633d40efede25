/**
 * The few JavaScript string operations the core relies on, on `seq<char>`:
 * `split` on one separator character, `trim`, an ASCII `toLowerCase` and
 * `includes`.
 */
module Strings {

  /** The code points JavaScript's `trim` removes: WhiteSpace and LineTerminator. */
  predicate IsSpace(c: char) {
    var u := c as int;
    u == 0x09 || u == 0x0A || u == 0x0B || u == 0x0C || u == 0x0D || u == 0x20
    || u == 0xA0 || u == 0x1680 || (0x2000 <= u <= 0x200A) || u == 0x2028
    || u == 0x2029 || u == 0x202F || u == 0x205F || u == 0x3000 || u == 0xFEFF
  }

  /** Every character of `s` is white space (vacuously true of ""). */
  predicate AllSpace(s: string) {
    forall i :: 0 <= i < |s| ==> IsSpace(s[i])
  }

  /** Neither the first nor the last character is white space. */
  predicate NoOuterSpace(s: string) {
    s == [] || (!IsSpace(s[0]) && !IsSpace(s[|s| - 1]))
  }

  /** `s` without its leading white space. */
  function TrimStart(s: string): (r: string)
    ensures |r| <= |s| && r == s[|s| - |r|..]
    ensures AllSpace(s[..|s| - |r|])
    ensures r == [] || !IsSpace(r[0])
  {
    if |s| > 0 && IsSpace(s[0]) then
      var r := TrimStart(s[1..]);
      var removed, rest := s[..|s| - |r|], s[1..][..|s| - 1 - |r|];
      assert forall k :: 0 < k < |removed| ==> removed[k] == rest[k - 1];
      r
    else s
  }

  /** `s` without its trailing white space. */
  function TrimEnd(s: string): (r: string)
    ensures |r| <= |s| && r == s[..|r|]
    ensures AllSpace(s[|r|..])
    ensures r == [] || !IsSpace(r[|r| - 1])
  {
    if |s| > 0 && IsSpace(s[|s| - 1]) then
      var r := TrimEnd(s[..|s| - 1]);
      var removed, rest := s[|r|..], s[..|s| - 1][|r|..];
      assert forall k :: 0 <= k < |rest| ==> removed[k] == rest[k];
      r
    else s
  }

  /**
   * `r` is what is left of `s` after removing white space at either end, one
   * character at a time.
   */
  predicate IsMiddlePart(r: string, s: string)
    decreases |s|
  {
    r == s
    || (|s| > 0 && IsSpace(s[0]) && IsMiddlePart(r, s[1..]))
    || (|s| > 0 && IsSpace(s[|s| - 1]) && IsMiddlePart(r, s[..|s| - 1]))
  }

  /** The white space before and after a slice, as the slice-form statement needs it. */
  predicate SliceBetweenSpace(r: string, s: string, i: int, j: int) {
    0 <= i <= j <= |s| && r == s[i..j] && AllSpace(s[..i]) && AllSpace(s[j..])
  }

  /** A slice of `s[1..]` between white space is one of `s` when `s[0]` is white space. */
  lemma SliceAfterLeadingSpace(r: string, s: string, i: int, j: int)
    requires |s| > 0 && IsSpace(s[0]) && SliceBetweenSpace(r, s[1..], i, j)
    ensures SliceBetweenSpace(r, s, i + 1, j + 1)
  {
    var t := s[1..];
    assert r == s[i + 1..j + 1];
    assert s[j + 1..] == t[j..];
    var front := s[..i + 1];
    forall k | 0 <= k < |front| ensures IsSpace(front[k]) {
      if k > 0 { assert front[k] == t[..i][k - 1]; }
    }
  }

  /** A slice of `s[..|s| - 1]` between white space is one of `s` when the last character is white space. */
  lemma SliceBeforeTrailingSpace(r: string, s: string, i: int, j: int)
    requires |s| > 0 && IsSpace(s[|s| - 1]) && SliceBetweenSpace(r, s[..|s| - 1], i, j)
    ensures SliceBetweenSpace(r, s, i, j)
  {
    var t := s[..|s| - 1];
    assert r == s[i..j];
    assert s[..i] == t[..i];
    forall k | 0 <= k < |s| - j ensures IsSpace(s[j..][k]) {
      if k < |s| - 1 - j { assert s[j..][k] == t[j..][k]; }
    }
  }

  /** A middle part is a slice of `s` with only white space before and after it. */
  lemma {:induction false} MiddlePartIsSlice(r: string, s: string)
    requires IsMiddlePart(r, s)
    ensures exists i, j :: SliceBetweenSpace(r, s, i, j)
    decreases |s|
  {
    if r == s {
      assert SliceBetweenSpace(r, s, 0, |s|) by {
        assert r == s[0..|s|] && s[..0] == [] && s[|s|..] == [];
      }
    } else if |s| > 0 && IsSpace(s[0]) && IsMiddlePart(r, s[1..]) {
      MiddlePartIsSlice(r, s[1..]);
      var i, j :| SliceBetweenSpace(r, s[1..], i, j);
      SliceAfterLeadingSpace(r, s, i, j);
    } else {
      MiddlePartIsSlice(r, s[..|s| - 1]);
      var i, j :| SliceBetweenSpace(r, s[..|s| - 1], i, j);
      SliceBeforeTrailingSpace(r, s, i, j);
    }
  }

  /** What `TrimEnd` leaves is a middle part. */
  lemma {:induction false} TrimEndIsMiddlePart(t: string)
    ensures IsMiddlePart(TrimEnd(t), t)
    decreases |t|
  {
    if |t| > 0 && IsSpace(t[|t| - 1]) {
      TrimEndIsMiddlePart(t[..|t| - 1]);
    }
  }

  /** A middle part of what `TrimStart` leaves is a middle part of the whole. */
  lemma {:induction false} MiddlePartOfTrimStart(r: string, s: string)
    requires IsMiddlePart(r, TrimStart(s))
    ensures IsMiddlePart(r, s)
    decreases |s|
  {
    if |s| > 0 && IsSpace(s[0]) {
      MiddlePartOfTrimStart(r, s[1..]);
    }
  }

  /**
   * `s.trim()`: the middle part of `s` left by removing white space at both
   * ends, with no white space at either end of its own.
   */
  function Trim(s: string): (r: string)
    ensures |r| <= |s|
    ensures IsMiddlePart(r, s)
    ensures NoOuterSpace(r)
  {
    var t := TrimStart(s);
    var r := TrimEnd(t);
    TrimEndIsMiddlePart(t);
    MiddlePartOfTrimStart(r, s);
    assert r != [] ==> r[0] == t[0];
    r
  }

  /**
   * The trimmed text is a slice `s[i..j]` of the input with only white space
   * before and after it.
   */
  lemma TrimIsSlice(s: string)
    ensures exists i, j :: 0 <= i <= j <= |s| && Trim(s) == s[i..j] && AllSpace(s[..i]) && AllSpace(s[j..])
  {
    MiddlePartIsSlice(Trim(s), s);
    var i, j :| SliceBetweenSpace(Trim(s), s, i, j);
  }

  lemma {:induction false} TrimStartEmpty(s: string)
    ensures TrimStart(s) == [] <==> AllSpace(s)
  {
    if |s| > 0 && IsSpace(s[0]) {
      TrimStartEmpty(s[1..]);
      assert AllSpace(s[1..]) ==> AllSpace(s) by {
        if AllSpace(s[1..]) {
          forall i | 0 <= i < |s| ensures IsSpace(s[i]) {
            if i > 0 { assert s[i] == s[1..][i - 1]; }
          }
        }
      }
    } else if |s| > 0 {
      assert !IsSpace(s[0]);
    }
  }

  lemma {:induction false} TrimEndEmpty(s: string)
    ensures TrimEnd(s) == [] <==> AllSpace(s)
  {
    if |s| > 0 && IsSpace(s[|s| - 1]) {
      var t := s[..|s| - 1];
      TrimEndEmpty(t);
      assert AllSpace(t) ==> AllSpace(s) by {
        if AllSpace(t) {
          forall i | 0 <= i < |s| ensures IsSpace(s[i]) {
            if i < |s| - 1 { assert s[i] == t[i]; }
          }
        }
      }
    } else if |s| > 0 {
      assert !IsSpace(s[|s| - 1]);
    }
  }

  /** `!s.trim()`: the string is empty after trimming exactly when it is all white space. */
  lemma TrimEmptyIffAllSpace(s: string)
    ensures Trim(s) == [] <==> AllSpace(s)
  {
    var t := TrimStart(s);
    TrimStartEmpty(s);
    TrimEndEmpty(t);
    if t != [] {
      assert !IsSpace(t[0]);
    }
  }

  /** A string without white space at either end is its own trim. */
  lemma TrimOfTrimmed(s: string)
    requires NoOuterSpace(s)
    ensures Trim(s) == s
  {
    assert TrimStart(s) == s;
    assert TrimEnd(s) == s;
  }

  /** A string that lacks one of the characters of `sub` does not include `sub`. */
  lemma MissingCharNotContained(s: string, sub: string, c: char)
    requires c in sub && c !in s
    ensures !Contains(s, sub)
  {
    var j :| 0 <= j < |sub| && sub[j] == c;
    forall i | 0 <= i <= |s| - |sub| ensures !OccursAt(s, sub, i) {
      assert s[i..i + |sub|][j] == s[i + j];
    }
  }

  /**
   * `s.split([sep])`: the pieces between occurrences of `sep`, in order.  Like
   * JavaScript, "" splits into [""] and a trailing separator yields a final "".
   */
  function Split(s: string, sep: char): (r: seq<string>)
    ensures |r| >= 1
    ensures forall i :: 0 <= i < |r| ==> sep !in r[i]
  {
    if s == [] then [[]]
    else
      var rest := Split(s[1..], sep);
      if s[0] == sep then [[]] + rest
      else [[s[0]] + rest[0]] + rest[1..]
  }

  /** `parts.join(sep)`. */
  function Join(parts: seq<string>, sep: char): string
  {
    if |parts| == 0 then []
    else if |parts| == 1 then parts[0]
    else parts[0] + [sep] + Join(parts[1..], sep)
  }

  /** Joining the pieces of a split gives back the original string. */
  lemma {:induction false} JoinSplit(s: string, sep: char)
    ensures Join(Split(s, sep), sep) == s
  {
    if s != [] {
      var rest := Split(s[1..], sep);
      JoinSplit(s[1..], sep);
      if s[0] == sep {
        assert Split(s, sep) == [[]] + rest;
        assert ([[]] + rest)[1..] == rest;
        assert s == [] + [sep] + s[1..];
      } else {
        var first := [s[0]] + rest[0];
        assert Split(s, sep) == [first] + rest[1..];
        if |rest| == 1 {
          assert Join(rest, sep) == rest[0];
          assert s == [s[0]] + s[1..];
        } else {
          assert ([first] + rest[1..])[1..] == rest[1..];
          assert Join(rest, sep) == rest[0] + [sep] + Join(rest[1..], sep);
          assert s == [s[0]] + s[1..];
        }
      }
    }
  }

  /** A split of a string that starts with the separator starts with an empty piece. */
  lemma SplitConsSep(t: string, sep: char)
    ensures Split([sep] + t, sep) == [[]] + Split(t, sep)
  {
    assert ([sep] + t)[1..] == t;
  }

  /** Otherwise the first character joins the first piece of the rest's split. */
  lemma SplitConsOther(c: char, t: string, sep: char)
    requires c != sep
    ensures Split([c] + t, sep) == [[c] + Split(t, sep)[0]] + Split(t, sep)[1..]
  {
    assert ([c] + t)[0] == c && ([c] + t)[1..] == t;
  }

  /** Extending the first piece of a concatenation of splits extends the first piece of the left one. */
  lemma ExtendFirstPiece(c: char, ra: seq<string>, sb: seq<string>)
    requires |ra| >= 1
    ensures [[c] + (ra + sb)[0]] + (ra + sb)[1..] == ([[c] + ra[0]] + ra[1..]) + sb
  {
    assert (ra + sb)[0] == ra[0];
    assert (ra + sb)[1..] == ra[1..] + sb;
  }

  /** One character more on the left of both sides keeps the splits in step. */
  lemma SplitConcatStep(c: char, t: string, b: string, sep: char)
    requires Split(t + [sep] + b, sep) == Split(t, sep) + Split(b, sep)
    ensures Split([c] + t + [sep] + b, sep) == Split([c] + t, sep) + Split(b, sep)
  {
    var x := t + [sep] + b;
    assert [c] + t + [sep] + b == [c] + x;
    if c == sep {
      SplitConsSep(t, sep);
      SplitConsSep(x, sep);
      assert [[]] + (Split(t, sep) + Split(b, sep)) == ([[]] + Split(t, sep)) + Split(b, sep);
    } else {
      SplitConsOther(c, t, sep);
      SplitConsOther(c, x, sep);
      ExtendFirstPiece(c, Split(t, sep), Split(b, sep));
    }
  }

  /** Splitting around a separator splits both sides independently. */
  lemma {:induction false} SplitConcat(a: string, b: string, sep: char)
    ensures Split(a + [sep] + b, sep) == Split(a, sep) + Split(b, sep)
  {
    if a == [] {
      assert a + [sep] + b == [sep] + b;
      SplitConsSep(b, sep);
    } else {
      SplitConcat(a[1..], b, sep);
      SplitConcatStep(a[0], a[1..], b, sep);
      assert [a[0]] + a[1..] == a;
    }
  }

  /** A string without the separator is a single piece. */
  lemma {:induction false} SplitNoSep(a: string, sep: char)
    requires sep !in a
    ensures Split(a, sep) == [a]
  {
    if a != [] {
      assert sep !in a[1..] by { assert forall i :: 0 <= i < |a[1..]| ==> a[1..][i] == a[i + 1]; }
      SplitNoSep(a[1..], sep);
      assert [a[0]] + a[1..] == a;
    }
  }

  /** Splitting a join of separator-free pieces gives back the pieces. */
  lemma {:induction false} SplitJoin(parts: seq<string>, sep: char)
    requires |parts| >= 1
    requires forall i :: 0 <= i < |parts| ==> sep !in parts[i]
    ensures Split(Join(parts, sep), sep) == parts
  {
    if |parts| == 1 {
      SplitNoSep(parts[0], sep);
    } else {
      var first, rest := parts[0], parts[1..];
      assert forall i :: 0 <= i < |rest| ==> sep !in rest[i] by {
        assert forall i :: 0 <= i < |rest| ==> rest[i] == parts[i + 1];
      }
      SplitJoin(rest, sep);
      var tail := Join(rest, sep);
      assert Join(parts, sep) == first + [sep] + tail;
      SplitConcat(first, tail, sep);
      SplitNoSep(first, sep);
      assert [first] + rest == parts;
    }
  }

  /** ASCII `toLowerCase` of one character. */
  function LowerChar(c: char): (d: char)
    ensures 'A' <= c <= 'Z' ==> d as int == c as int + 32
    ensures !('A' <= c <= 'Z') ==> d == c
  {
    if 'A' <= c <= 'Z' then (c as int + 32) as char else c
  }

  /** `s.toLowerCase()`, restricted to the ASCII letters. */
  function ToLower(s: string): (r: string)
    ensures |r| == |s|
    ensures forall i :: 0 <= i < |s| ==> r[i] == LowerChar(s[i])
  {
    if s == [] then [] else [LowerChar(s[0])] + ToLower(s[1..])
  }

  /** Lower-casing twice is lower-casing once. */
  lemma ToLowerIdempotent(s: string)
    ensures ToLower(ToLower(s)) == ToLower(s)
  {
    var l := ToLower(s);
    assert forall i :: 0 <= i < |l| ==> LowerChar(l[i]) == l[i];
  }

  predicate StartsWith(s: string, prefix: string) {
    |prefix| <= |s| && s[..|prefix|] == prefix
  }

  /** `sub` occurs in `s` starting at position `i`. */
  predicate OccursAt(s: string, sub: string, i: int) {
    0 <= i <= |s| - |sub| && s[i..i + |sub|] == sub
  }

  /** `s.includes(sub)`, searched from the left as JavaScript does. */
  function Contains(s: string, sub: string): (b: bool)
    ensures b <==> exists i :: OccursAt(s, sub, i)
  {
    if StartsWith(s, sub) then
      assert OccursAt(s, sub, 0);
      true
    else if s == [] then
      assert forall i :: !OccursAt(s, sub, i);
      false
    else
      var r := Contains(s[1..], sub);
      assert r ==> exists i :: OccursAt(s, sub, i) by {
        if r {
          var j :| OccursAt(s[1..], sub, j);
          assert s[j + 1..j + 1 + |sub|] == s[1..][j..j + |sub|];
          assert OccursAt(s, sub, j + 1);
        }
      }
      assert (exists i :: OccursAt(s, sub, i)) ==> r by {
        if exists i :: OccursAt(s, sub, i) {
          var i :| OccursAt(s, sub, i);
          assert i != 0;
          assert s[1..][i - 1..i - 1 + |sub|] == s[i..i + |sub|];
          assert OccursAt(s[1..], sub, i - 1);
        }
      }
      r
  }
}
