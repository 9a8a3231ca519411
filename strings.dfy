// String operations the controllers take from Go's `strings`, `slices` and
// `maps` packages: prefix and suffix tests, substring search, split and join,
// lower-casing, and the sorted list of a set of keys.
module Strings {

  predicate HasPrefix(s: string, p: string)
  {
    |p| <= |s| && s[..|p|] == p
  }

  predicate HasSuffix(s: string, p: string)
  {
    |p| <= |s| && s[|s| - |p|..] == p
  }

  /** `strings.Contains`: `sub` occurs somewhere in `s`. */
  predicate Contains(s: string, sub: string)
    decreases |s|
  {
    HasPrefix(s, sub) || (|s| > 0 && Contains(s[1..], sub))
  }

  /** `strings.IndexByte`, with `|s|` standing for "not found": the first position holding `c`. */
  function IndexOf(s: string, c: char): (i: nat)
    ensures i <= |s|
    ensures i < |s| ==> s[i] == c
    ensures forall k :: 0 <= k < i ==> s[k] != c
    decreases |s|
  {
    if |s| == 0 then 0 else if s[0] == c then 0 else 1 + IndexOf(s[1..], c)
  }

  /** A character that does not occur is not found. */
  lemma {:induction false} IndexOfAbsent(s: string, c: char)
    requires forall k :: 0 <= k < |s| ==> s[k] != c
    ensures IndexOf(s, c) == |s|
    decreases |s|
  {
    if |s| > 0 {
      IndexOfAbsent(s[1..], c);
    }
  }

  /** A character missing from `a` is found in `a + b` where it is found in `b`, shifted past `a`. */
  lemma {:induction false} IndexOfAppend(a: string, b: string, c: char)
    requires forall k :: 0 <= k < |a| ==> a[k] != c
    ensures IndexOf(a + b, c) == |a| + IndexOf(b, c)
    decreases |a|
  {
    if |a| > 0 {
      assert (a + b)[1..] == a[1..] + b;
      IndexOfAppend(a[1..], b, c);
    } else {
      assert a + b == b;
    }
  }

  // ---------------------------------------------------------------------
  // Byte length.  Go's `len` of a string counts its UTF-8 bytes: one for an
  // ASCII character, up to four for others.

  /** The number of bytes UTF-8 spends on `c`. */
  function Utf8Width(c: char): (w: nat)
    ensures 1 <= w <= 4
    ensures w == 1 <==> c as int < 0x80
  {
    if c as int < 0x80 then 1
    else if c as int < 0x800 then 2
    else if c as int < 0x1_0000 then 3
    else 4
  }

  /** `len(s)` in Go: the length of `s` in UTF-8 bytes, never less than its character count. */
  function Utf8Len(s: string): (n: nat)
    ensures |s| <= n <= 4 * |s|
  {
    if |s| == 0 then 0 else Utf8Width(s[0]) + Utf8Len(s[1..])
  }

  lemma {:induction false} Utf8LenAppend(a: string, b: string)
    ensures Utf8Len(a + b) == Utf8Len(a) + Utf8Len(b)
  {
    if |a| == 0 {
      assert a + b == b;
    } else {
      assert (a + b)[1..] == a[1..] + b;
      Utf8LenAppend(a[1..], b);
    }
  }

  lemma Utf8LenAround(a: string, c: char, b: string)
    ensures Utf8Len(a + [c] + b) == Utf8Len(a) + Utf8Width(c) + Utf8Len(b)
  {
    Utf8LenAppend(a + [c], b);
    Utf8LenAppend(a, [c]);
    assert [c][1..] == [];
  }

  /** An ASCII text has as many bytes as characters. */
  lemma {:induction false} Utf8LenAscii(s: string)
    requires forall i :: 0 <= i < |s| ==> s[i] as int < 0x80
    ensures Utf8Len(s) == |s|
  {
    if |s| > 0 {
      Utf8LenAscii(s[1..]);
    }
  }

  /** `strings.Contains` with a single-character needle: some index holds `c`. */
  lemma {:induction false} ContainsChar(s: string, c: char)
    ensures Contains(s, [c]) <==> c in s
    decreases |s|
  {
    if |s| > 0 {
      ContainsChar(s[1..], c);
      assert s == [s[0]] + s[1..];
    }
  }

  // ---------------------------------------------------------------------
  // strings.Split and strings.Join on a one-character separator

  /** `strings.Split(s, string(sep))`: the pieces between occurrences of `sep`. */
  function Split(s: string, sep: char): (parts: seq<string>)
    ensures |parts| >= 1
    ensures forall k :: 0 <= k < |parts| ==> sep !in parts[k]
    ensures |parts| == 1 <==> sep !in s
    decreases |s|
  {
    if |s| == 0 then [""]
    else
      var rest := Split(s[1..], sep);
      if s[0] == sep then [""] + rest
      else [[s[0]] + rest[0]] + rest[1..]
  }

  /** `strings.Join(parts, string(sep))`. */
  function Join(parts: seq<string>, sep: char): string
  {
    if |parts| == 0 then ""
    else if |parts| == 1 then parts[0]
    else parts[0] + [sep] + Join(parts[1..], sep)
  }

  /** Joining the pieces of a split gives the original text back. */
  lemma {:induction false} JoinSplit(s: string, sep: char)
    ensures Join(Split(s, sep), sep) == s
    decreases |s|
  {
    if |s| > 0 {
      var rest := Split(s[1..], sep);
      JoinSplit(s[1..], sep);
      if s[0] == sep {
        assert Split(s, sep) == [""] + rest;
        if |rest| == 1 {
          assert Join([""] + rest, sep) == "" + [sep] + rest[0];
        } else {
          assert ([""] + rest)[1..] == rest;
        }
      } else {
        var head := [s[0]] + rest[0];
        assert Split(s, sep) == [head] + rest[1..];
        if |rest| == 1 {
          assert Join(rest, sep) == rest[0];
        } else {
          assert ([head] + rest[1..])[1..] == rest[1..];
          assert Join(rest, sep) == rest[0] + [sep] + Join(rest[1..], sep);
        }
      }
    }
  }

  /** Splitting a join of separator-free pieces gives the pieces back. */
  lemma {:induction false} SplitJoin(parts: seq<string>, sep: char)
    requires |parts| >= 1
    requires forall k :: 0 <= k < |parts| ==> sep !in parts[k]
    ensures Split(Join(parts, sep), sep) == parts
    decreases |parts|
  {
    if |parts| == 1 {
      SplitFree(parts[0], sep);
    } else {
      SplitJoin(parts[1..], sep);
      SplitPrefix(parts[0], sep, Join(parts[1..], sep));
      assert parts == [parts[0]] + parts[1..];
    }
  }

  lemma {:induction false} SplitFree(s: string, sep: char)
    requires sep !in s
    ensures Split(s, sep) == [s]
    decreases |s|
  {
    if |s| > 0 {
      SplitFree(s[1..], sep);
      assert [s[0]] + s[1..] == s;
    }
  }

  lemma {:induction false} SplitPrefix(a: string, sep: char, b: string)
    requires sep !in a
    ensures Split(a + [sep] + b, sep) == [a] + Split(b, sep)
    decreases |a|
  {
    if |a| == 0 {
      assert a + [sep] + b == [sep] + b;
      assert ([sep] + b)[1..] == b;
    } else {
      var t := a + [sep] + b;
      assert t[0] == a[0];
      assert t[1..] == a[1..] + [sep] + b;
      SplitPrefix(a[1..], sep, b);
      assert [a[0]] + a[1..] == a;
    }
  }

  /** `strings.Join(parts, sep)` with a separator of any length. */
  function JoinWith(parts: seq<string>, sep: string): string
  {
    if |parts| == 0 then ""
    else if |parts| == 1 then parts[0]
    else parts[0] + sep + JoinWith(parts[1..], sep)
  }

  // ---------------------------------------------------------------------
  // strings.ToLower, restricted to the letters that lower to ASCII: the
  // ASCII capitals, the Kelvin sign (to 'k') and the dotted capital I (to
  // 'i').  Every other letter lowers to a non-ASCII letter, so leaving it as
  // it is cannot change whether an ASCII phrase is found.

  function LowerChar(c: char): (l: char)
    ensures 'a' <= l <= 'z' <==> 'a' <= c <= 'z' || 'A' <= c <= 'Z' || c == '\U{212A}' || c == '\U{0130}'
  {
    if 'A' <= c <= 'Z' then (c as int + 32) as char
    else if c == '\U{212A}' then 'k'
    else if c == '\U{0130}' then 'i'
    else c
  }

  function ToLower(s: string): (r: string)
    ensures |r| == |s|
    ensures forall i :: 0 <= i < |s| ==> r[i] == LowerChar(s[i])
  {
    if |s| == 0 then "" else [LowerChar(s[0])] + ToLower(s[1..])
  }

  /** `strings.Contains(strings.ToLower(s), strings.ToLower(sub))`. */
  predicate ContainsFold(s: string, sub: string)
  {
    Contains(ToLower(s), ToLower(sub))
  }

  lemma ToLowerAppend(a: string, b: string)
    ensures ToLower(a + b) == ToLower(a) + ToLower(b)
  {
    assert forall i :: 0 <= i < |a + b| ==> ToLower(a + b)[i] == (ToLower(a) + ToLower(b))[i];
  }

  /** A string contains every piece it is built around. */
  lemma {:induction false} ContainsWithin(a: string, sub: string, b: string)
    ensures Contains(a + sub + b, sub)
    decreases |a|
  {
    if |a| == 0 {
      assert a + sub + b == sub + b;
      assert (sub + b)[..|sub|] == sub;
    } else {
      ContainsWithin(a[1..], sub, b);
      assert (a + sub + b)[1..] == a[1..] + sub + b;
    }
  }

  /** A string contains, ignoring letter case, every piece it is built around, whatever that piece's case. */
  lemma ContainsFoldWithin(a: string, piece: string, b: string, sub: string)
    requires ToLower(piece) == ToLower(sub)
    ensures ContainsFold(a + piece + b, sub)
  {
    ToLowerAppend(a + piece, b);
    ToLowerAppend(a, piece);
    ContainsWithin(ToLower(a), ToLower(sub), ToLower(b));
  }

  // ---------------------------------------------------------------------
  // Go's string order: lexicographic on characters (UTF-8 byte order and
  // code-point order agree), a proper prefix first.

  predicate Less(a: string, b: string)
    decreases |a|
  {
    if |a| == 0 then |b| > 0
    else if |b| == 0 then false
    else if a[0] == b[0] then Less(a[1..], b[1..])
    else a[0] < b[0]
  }

  lemma {:induction false} LessIrreflexive(a: string)
    ensures !Less(a, a)
    decreases |a|
  {
    if |a| > 0 { LessIrreflexive(a[1..]); }
  }

  lemma {:induction false} LessTransitive(a: string, b: string, c: string)
    requires Less(a, b) && Less(b, c)
    ensures Less(a, c)
    decreases |a|
  {
    if |a| > 0 && |b| > 0 && |c| > 0 && a[0] == b[0] && b[0] == c[0] {
      LessTransitive(a[1..], b[1..], c[1..]);
    }
  }

  lemma {:induction false} LessTotal(a: string, b: string)
    ensures a == b || Less(a, b) || Less(b, a)
    decreases |a|
  {
    if |a| > 0 && |b| > 0 && a[0] == b[0] {
      LessTotal(a[1..], b[1..]);
      if a[1..] == b[1..] {
        assert a == [a[0]] + a[1..] && b == [b[0]] + b[1..];
      }
    }
  }

  lemma LessAsymmetric(a: string, b: string)
    requires Less(a, b)
    ensures !Less(b, a) && a != b
  {
    if Less(b, a) { LessTransitive(a, b, a); LessIrreflexive(a); }
    if a == b { LessIrreflexive(a); }
  }

  predicate StrictlySorted(s: seq<string>)
  {
    forall i, j :: 0 <= i < j < |s| ==> Less(s[i], s[j])
  }

  /** Every non-empty finite set of strings has a least element. */
  lemma {:induction false} HasMinimum(s: set<string>)
    requires s != {}
    ensures exists m :: m in s && forall x :: x in s && x != m ==> Less(m, x)
    decreases |s|
  {
    var y :| y in s;
    if s == {y} {
      assert forall x :: x in s && x != y ==> Less(y, x);
    } else {
      var rest := s - {y};
      HasMinimum(rest);
      var m :| m in rest && forall x :: x in rest && x != m ==> Less(m, x);
      LessTotal(m, y);
      if Less(m, y) {
        assert forall x :: x in s && x != m ==> Less(m, x);
      } else {
        forall x | x in s && x != y ensures Less(y, x) {
          if x != m { LessTransitive(y, m, x); }
        }
      }
    }
  }

  ghost function Minimum(s: set<string>): (m: string)
    requires s != {}
    ensures m in s && forall x :: x in s && x != m ==> Less(m, x)
  {
    HasMinimum(s);
    var m :| m in s && forall x :: x in s && x != m ==> Less(m, x);
    m
  }

  /** `r` lists exactly the elements of `s`, in strictly increasing order. */
  ghost predicate IsSortedOf(r: seq<string>, s: set<string>)
  {
    |r| == |s| && (forall x :: x in r <==> x in s) && StrictlySorted(r)
  }

  /** Every finite set of strings can be listed in order: the least element first, then the rest. */
  lemma {:induction false} SortedExists(s: set<string>)
    ensures exists r :: IsSortedOf(r, s)
    decreases |s|
  {
    if s == {} {
      assert IsSortedOf([], s);
    } else {
      var m := Minimum(s);
      SortedExists(s - {m});
      var rest :| IsSortedOf(rest, s - {m});
      forall j | 0 <= j < |rest| ensures Less(m, rest[j]) {
        assert rest[j] in s - {m};
      }
      assert IsSortedOf([m] + rest, s);
    }
  }

  /** `slices.Sorted(maps.Keys(m))` for a map whose key set is `s`. */
  ghost function SortedOf(s: set<string>): (r: seq<string>)
    ensures |r| == |s|
    ensures forall x :: x in r <==> x in s
    ensures StrictlySorted(r)
  {
    SortedExists(s);
    var r :| IsSortedOf(r, s);
    r
  }

  /** Computes `slices.Sorted(maps.Keys(m))`: repeatedly takes the least remaining key. */
  method SortedKeys(s: set<string>) returns (r: seq<string>)
    ensures r == SortedOf(s)
  {
    r := [];
    var rest := s;
    while rest != {}
      invariant rest <= s
      invariant StrictlySorted(r)
      invariant forall x :: x in r <==> x in s && x !in rest
      invariant forall i, y :: 0 <= i < |r| && y in rest ==> Less(r[i], y)
      decreases |rest|
    {
      HasMinimum(rest);
      var m :| m in rest && forall x :: x in rest && x != m ==> Less(m, x);
      forall i | 0 <= i < |r| ensures Less(r[i], m) {
        assert m in rest;
      }
      r := r + [m];
      rest := rest - {m};
    }
    SortedUnique(r, SortedOf(s));
  }

  lemma HeadIsMember(s: seq<string>)
    requires |s| > 0
    ensures s[0] in s
  {
  }

  lemma HeadLeast(s: seq<string>, x: string)
    requires StrictlySorted(s) && |s| > 0
    requires x in s && x != s[0]
    ensures Less(s[0], x)
  {
    var j :| 0 <= j < |s| && s[j] == x;
    assert j != 0;
  }

  /** A strictly sorted list is determined by its elements. */
  lemma {:induction false} SortedUnique(a: seq<string>, b: seq<string>)
    requires StrictlySorted(a) && StrictlySorted(b)
    requires forall x :: x in a <==> x in b
    ensures a == b
    decreases |a|
  {
    if |a| == 0 {
      if |b| > 0 {
        HeadIsMember(b);
        assert false;
      }
    } else if |b| == 0 {
      HeadIsMember(a);
      assert false;
    } else {
      if a[0] != b[0] {
        HeadLeast(a, b[0]);
        HeadLeast(b, a[0]);
        LessAsymmetric(a[0], b[0]);
        assert false;
      }
      forall x ensures x in a[1..] <==> x in b[1..] {
        if x in a[1..] {
          var i :| 1 <= i < |a| && a[i] == x;
          LessAsymmetric(a[0], a[i]);
          assert x in b;
        }
        if x in b[1..] {
          var i :| 1 <= i < |b| && b[i] == x;
          LessAsymmetric(b[0], b[i]);
          assert x in a;
        }
      }
      SortedUnique(a[1..], b[1..]);
      assert a == [a[0]] + a[1..] && b == [b[0]] + b[1..];
    }
  }

  /** A strictly sorted list holds no element twice. */
  lemma SortedDistinct(s: seq<string>, i: int, j: int)
    requires StrictlySorted(s)
    requires 0 <= i < |s| && 0 <= j < |s| && i != j
    ensures s[i] != s[j]
  {
    if i < j { LessAsymmetric(s[i], s[j]); } else { LessAsymmetric(s[j], s[i]); }
  }

  /** The decimal digits of a natural number, as `%d` prints it. */
  function NatToString(n: nat): (r: string)
    ensures |r| >= 1 && forall i :: 0 <= i < |r| ==> '0' <= r[i] <= '9'
  {
    if n < 10 then [(('0' as int) + n) as char]
    else NatToString(n / 10) + [(('0' as int) + n % 10) as char]
  }

  /** `%d` of an integer. */
  function IntToString(n: int): string
  {
    if n < 0 then "-" + NatToString(-n) else NatToString(n)
  }
}
