/** Shared vocabulary of the gateway model: optional values, results for the
    source's thrown errors, and the JavaScript string primitives the core uses
    (trim, split, join, prefix and suffix tests, number rendering). */
module Common {

  datatype Option<+T> = None | Some(value: T) {
    /** `x ?? d` in the source. */
    function GetOr(d: T): T {
      match this
      case Some(v) => v
      case None => d
    }
  }

  /** A value, or the message of the error the source throws. */
  datatype Result<+T, +E> = Success(value: T) | Failure(error: E)

  /** ECMAScript WhiteSpace and LineTerminator code points: the set removed by
      `String.prototype.trim` and matched by the regular expression `\s`. */
  predicate IsJsSpace(c: char) {
    c == '\t' || c == '\n' || c == '\U{000B}' || c == '\U{000C}' || c == '\r' || c == ' ' ||
    c == '\U{00A0}' || c == '\U{1680}' || ('\U{2000}' <= c <= '\U{200A}') ||
    c == '\U{2028}' || c == '\U{2029}' || c == '\U{202F}' || c == '\U{205F}' ||
    c == '\U{3000}' || c == '\U{FEFF}'
  }

  /** ECMAScript LineTerminator: the characters `.` does not match. */
  predicate IsLineTerminator(c: char) {
    c == '\n' || c == '\r' || c == '\U{2028}' || c == '\U{2029}'
  }

  // Small facts about sequences, proved once in a context of their own.

  lemma SliceOfSlice<T>(s: seq<T>, a: nat, b: nat)
    requires a + b <= |s|
    ensures s[a..][b..] == s[a + b..]
  {
  }

  lemma SplitAt<T>(a: seq<T>, b: seq<T>)
    ensures (a + b)[..|a|] == a && (a + b)[|a|..] == b
  {
  }

  lemma AppendAssoc<T>(a: seq<T>, b: seq<T>, c: seq<T>)
    ensures a + b + c == a + (b + c)
  {
  }

  lemma InitLast<T>(s: seq<T>)
    requires s != []
    ensures s[..|s| - 1] + [s[|s| - 1]] == s
  {
  }

  /** `s` with its leading white space removed. */
  function TrimStart(s: string): (r: string)
    ensures |r| <= |s| && r == s[|s| - |r|..]
    ensures r == [] || !IsJsSpace(r[0])
    ensures forall k :: 0 <= k < |s| - |r| ==> IsJsSpace(s[k])
  {
    if s == [] || !IsJsSpace(s[0]) then s else TrimStart(s[1..])
  }

  /** `s` with its trailing white space removed. */
  function TrimEnd(s: string): (r: string)
    ensures |r| <= |s| && r == s[..|r|]
    ensures r == [] || !IsJsSpace(r[|r| - 1])
    ensures forall k :: |r| <= k < |s| ==> IsJsSpace(s[k])
  {
    if s == [] || !IsJsSpace(s[|s| - 1]) then s else TrimEnd(s[..|s| - 1])
  }

  /** `s.trim()`. */
  function Trim(s: string): (r: string)
    ensures |r| <= |s|
    ensures r == [] || (!IsJsSpace(r[0]) && !IsJsSpace(r[|r| - 1]))
    ensures (s == [] || (!IsJsSpace(s[0]) && !IsJsSpace(s[|s| - 1]))) ==> r == s
  {
    TrimEnd(TrimStart(s))
  }

  /** True when `s` has no white space at either end, so `Trim(s) == s`. */
  predicate IsTrimmed(s: string) {
    s == [] || (!IsJsSpace(s[0]) && !IsJsSpace(s[|s| - 1]))
  }

  /** Trimming only removes characters. */
  lemma TrimKeepsChars(s: string)
    ensures forall c :: c in Trim(s) ==> c in s
  {
    var t := TrimStart(s);
    assert forall c :: c in t ==> c in s;
  }

  /** `s.trim().length > 0`: the string holds a character that is not white space. */
  predicate NonBlank(s: string) {
    Trim(s) != []
  }

  lemma NonBlankHasVisibleChar(s: string)
    ensures NonBlank(s) <==> exists k :: 0 <= k < |s| && !IsJsSpace(s[k])
  {
    var t := TrimStart(s);
    if t != [] {
      assert !IsJsSpace(s[|s| - |t|]);
    }
  }

  predicate StartsWith(s: string, prefix: string) {
    |prefix| <= |s| && s[..|prefix|] == prefix
  }

  predicate EndsWith(s: string, suffix: string) {
    |suffix| <= |s| && s[|s| - |suffix|..] == suffix
  }

  lemma PrefixOfAppend(a: string, b: string, prefix: string)
    requires StartsWith(a, prefix)
    ensures StartsWith(a + b, prefix)
  {
    assert (a + b)[..|prefix|] == a[..|prefix|];
  }

  lemma PrefixAfter(x: string, t: string, prefix: string)
    requires StartsWith(t, prefix)
    ensures StartsWith(x + t, x + prefix)
  {
    assert (x + t)[..|x| + |prefix|] == x + t[..|prefix|];
  }

  lemma SuffixOfAppend(a: string, b: string)
    ensures EndsWith(a + b, b)
  {
    assert (a + b)[|a|..] == b;
  }

  /** A `slice` bound: a negative index counts from the end, and the
      result is clamped to `[0, n]`. */
  function SliceBound(i: int, n: nat): (b: nat)
    ensures b <= n
    ensures 0 <= i <= n ==> b == i
  {
    if i < 0 then (if n + i < 0 then 0 else n + i)
    else if i > n then n
    else i
  }

  /** `s.slice(from, to)`. */
  function Slice(s: string, from: int, to: int): (r: string)
    ensures 0 <= from <= to <= |s| ==> r == s[from..to]
    ensures |r| <= |s|
  {
    var a := SliceBound(from, |s|);
    var b := SliceBound(to, |s|);
    if a >= b then [] else s[a..b]
  }

  /** `s.indexOf(c, from)` for a one-character `c`: the first index at or
      after `from` holding `c`, or -1. */
  function IndexOfChar(s: string, c: char, from: nat): (r: int)
    ensures r == -1 || (from <= r < |s| && s[r] == c)
    ensures forall k :: from <= k < |s| && (r == -1 || k < r) ==> s[k] != c
    decreases |s| - from
  {
    if from >= |s| then -1
    else if s[from] == c then from
    else IndexOfChar(s, c, from + 1)
  }

  /** `t` occurs in `s` starting at index `k`. */
  predicate OccursAt(s: string, t: string, k: int) {
    0 <= k && k + |t| <= |s| && s[k..k + |t|] == t
  }

  /** A mark followed by the rest of the text makes a suffix. */
  lemma SuffixAfterMark(s: string, c: char, ext: string, p: nat)
    requires p < |s| && s[p] == c && s[p + 1..] == ext
    ensures EndsWith(s, [c] + ext)
  {
    assert s[p..] == [c] + ext;
  }

  /** A suffix made of a mark and a mark-free `ext` puts the mark right
      before `ext`, and no mark after it. */
  lemma MarkBeforeSuffix(s: string, c: char, ext: string)
    requires c !in ext && EndsWith(s, [c] + ext)
    ensures s[|s| - |ext| - 1] == c && s[|s| - |ext|..] == ext
    ensures forall k :: |s| - |ext| - 1 < k < |s| ==> s[k] != c
  {
    var p := |s| - |ext| - 1;
    assert s[p..] == [c] + ext;
    forall k | p < k < |s| ensures s[k] != c {
      assert s[k] == ext[k - p - 1];
    }
  }

  /** `s.lastIndexOf(t)`: the start of the last occurrence, or -1. */
  function LastIndexOf(s: string, t: string): (r: int)
    ensures r == -1 || OccursAt(s, t, r)
    ensures forall k :: r < k ==> !OccursAt(s, t, k)
    decreases |s|
  {
    if |s| < |t| then -1
    else if s[|s| - |t|..] == t then |s| - |t|
    else
      var r := LastIndexOf(s[..|s| - 1], t);
      assert forall k :: OccursAt(s, t, k) && k < |s| - |t| ==> OccursAt(s[..|s| - 1], t, k) by {
        forall k | OccursAt(s, t, k) && k < |s| - |t| ensures OccursAt(s[..|s| - 1], t, k) {
          assert s[..|s| - 1][k..k + |t|] == s[k..k + |t|];
        }
      }
      r
  }

  /** `parts.join(sep)`. */
  function Join(parts: seq<string>, sep: string): (r: string)
    ensures parts == [] ==> r == []
  {
    if |parts| == 0 then ""
    else if |parts| == 1 then parts[0]
    else parts[0] + sep + Join(parts[1..], sep)
  }

  /** Each piece sits in the join between the join of the pieces before it,
      followed by the separator, and the separator followed by the join of
      the pieces after it. */
  lemma {:induction false} JoinAround(parts: seq<string>, sep: string, i: nat)
    requires i < |parts|
    ensures Join(parts, sep) ==
      (if i == 0 then [] else Join(parts[..i], sep) + sep) + parts[i] +
      (if i == |parts| - 1 then [] else sep + Join(parts[i + 1..], sep))
  {
    if i == 0 {
      if |parts| > 1 {
        AppendAssoc(parts[0], sep, Join(parts[1..], sep));
      }
    } else {
      var tail := parts[1..];
      JoinAround(tail, sep, i - 1);
      assert tail[i - 1] == parts[i] && tail[i..] == parts[i + 1..];
      var before := if i == 1 then [] else Join(tail[..i - 1], sep) + sep;
      var after := if i == |parts| - 1 then [] else sep + Join(parts[i + 1..], sep);
      if i > 1 {
        assert parts[..i][1..] == tail[..i - 1];
        AppendAssoc(parts[0] + sep, Join(tail[..i - 1], sep), sep);
      }
      assert Join(parts[..i], sep) + sep == parts[0] + sep + before;
      calc {
        Join(parts, sep);
        parts[0] + sep + Join(tail, sep);
        parts[0] + sep + (before + parts[i] + after);
        { AppendAssoc(parts[0] + sep, before + parts[i], after);
          AppendAssoc(parts[0] + sep, before, parts[i]); }
        parts[0] + sep + before + parts[i] + after;
      }
    }
  }

  /** Every character of a piece appears in the join. */
  lemma {:induction false} JoinPieceChars(parts: seq<string>, sep: string, i: nat)
    requires i < |parts|
    ensures forall c :: c in parts[i] ==> c in Join(parts, sep)
  {
    if |parts| > 1 {
      var rest := Join(parts[1..], sep);
      assert Join(parts, sep) == parts[0] + sep + rest;
      if i > 0 {
        JoinPieceChars(parts[1..], sep, i - 1);
      }
    }
  }

  /** Joining non-empty pieces keeps the first character of the first piece
      and the last character of the last one. */
  lemma {:induction false} JoinEnds(parts: seq<string>, sep: string)
    requires parts != []
    requires forall i :: 0 <= i < |parts| ==> parts[i] != []
    ensures var r := Join(parts, sep);
      r != [] && r[0] == parts[0][0] && r[|r| - 1] == parts[|parts| - 1][|parts[|parts| - 1]| - 1]
  {
    if |parts| > 1 {
      JoinEnds(parts[1..], sep);
    }
  }

  /** Joining trimmed non-empty pieces gives a trimmed text. */
  lemma JoinTrimmed(parts: seq<string>, sep: string)
    requires forall i :: 0 <= i < |parts| ==> parts[i] != [] && IsTrimmed(parts[i])
    ensures IsTrimmed(Join(parts, sep))
  {
    if parts != [] {
      JoinEnds(parts, sep);
    }
  }

  /** `s.split(sep)` for a one-character separator: always at least one piece,
      and no piece holds the separator. */
  function Split(s: string, sep: char): (r: seq<string>)
    ensures |r| >= 1
    ensures forall i :: 0 <= i < |r| ==> sep !in r[i]
  {
    if s == [] then [""]
    else
      var rest := Split(s[1..], sep);
      if s[0] == sep then [""] + rest
      else [[s[0]] + rest[0]] + rest[1..]
  }

  /** Joining the pieces of a split with the separator gives back the string. */
  lemma {:induction false} JoinSplit(s: string, sep: char)
    ensures Join(Split(s, sep), [sep]) == s
  {
    if s != [] {
      JoinSplit(s[1..], sep);
      var rest := Split(s[1..], sep);
      if s[0] == sep {
        assert Split(s, sep) == [""] + rest;
      } else {
        var r := Split(s, sep);
        assert r[0] == [s[0]] + rest[0] && r[1..] == rest[1..];
        if |rest| > 1 {
          assert Join(rest, [sep]) == rest[0] + [sep] + Join(rest[1..], [sep]);
        }
      }
    }
  }

  /** Splitting a join of separator-free pieces gives back the pieces. */
  lemma {:induction false} SplitJoin(parts: seq<string>, sep: char)
    requires |parts| >= 1
    requires forall i :: 0 <= i < |parts| ==> sep !in parts[i]
    ensures Split(Join(parts, [sep]), sep) == parts
  {
    if |parts| == 1 {
      SplitNoSeparator(parts[0], sep);
    } else {
      SplitJoin(parts[1..], sep);
      SplitAppend(parts[0], Join(parts[1..], [sep]), sep);
      assert Join(parts, [sep]) == parts[0] + [sep] + Join(parts[1..], [sep]);
      assert [parts[0]] + parts[1..] == parts;
    }
  }

  lemma {:induction false} SplitNoSeparator(s: string, sep: char)
    requires sep !in s
    ensures Split(s, sep) == [s]
  {
    if s != [] {
      assert s[0] in s;
      assert forall c :: c in s[1..] ==> c in s;
      SplitNoSeparator(s[1..], sep);
      assert [s[0]] + s[1..] == s;
    }
  }

  /** Split of `a + [sep] + b` where `a` has no separator. */
  lemma {:induction false} SplitAppend(a: string, b: string, sep: char)
    requires sep !in a
    ensures Split(a + [sep] + b, sep) == [a] + Split(b, sep)
  {
    if a == [] {
      assert a + [sep] + b == [sep] + b;
      assert ([sep] + b)[1..] == b;
    } else {
      SplitAppend(a[1..], b, sep);
      assert (a + [sep] + b)[1..] == a[1..] + [sep] + b;
      assert [a[0]] + a[1..] == a;
    }
  }

  /** The last piece of `s.split(sep)`: what follows the last separator. */
  function LastSegment(s: string, sep: char): (r: string)
    ensures sep !in r
  {
    var pieces := Split(s, sep);
    pieces[|pieces| - 1]
  }

  /** The last piece of a split is what follows the last separator: the
      whole string when there is none, otherwise the suffix that the last
      separator immediately precedes. */
  lemma {:induction false} LastSegmentIsSuffix(s: string, sep: char)
    ensures EndsWith(s, LastSegment(s, sep))
    ensures sep !in s ==> LastSegment(s, sep) == s
    ensures sep in s ==>
      |LastSegment(s, sep)| < |s| && s[|s| - |LastSegment(s, sep)| - 1] == sep
  {
    if s != [] {
      LastSegmentIsSuffix(s[1..], sep);
      var rest := Split(s[1..], sep);
      var r := LastSegment(s, sep);
      if sep !in s[1..] {
        SplitNoSeparator(s[1..], sep);
      }
      if s[0] != sep && |rest| == 1 {
        JoinSplit(s[1..], sep);
        assert r == [s[0]] + s[1..];
      } else {
        assert r == rest[|rest| - 1];
        assert s[1..][|s[1..]| - |r|..] == s[|s| - |r|..];
        if sep in s[1..] {
          assert s[1..][|s[1..]| - |r| - 1] == s[|s| - |r| - 1];
        }
      }
    }
  }

  function DigitChar(d: nat): char
    requires d < 10
  {
    "0123456789"[d]
  }

  /** `s.replace(/\/$/, '')`: one `/` at the very end is removed. */
  function StripTrailingSlash(s: string): (r: string)
    ensures EndsWith(s, "/") ==> r + "/" == s
    ensures !EndsWith(s, "/") ==> r == s
  {
    if |s| > 0 && s[|s| - 1] == '/' then s[..|s| - 1] else s
  }

  /** The decimal rendering of a natural number, as JavaScript prints it. */
  function NatToString(n: nat): (r: string)
    ensures |r| >= 1
    ensures forall k :: 0 <= k < |r| ==> '0' <= r[k] <= '9'
    decreases n
  {
    if n < 10 then [DigitChar(n)] else NatToString(n / 10) + [DigitChar(n % 10)]
  }

  /** ASCII lower-casing, the part of `toLowerCase` this model covers. */
  function ToLowerAscii(s: string): (r: string)
    ensures |r| == |s|
  {
    if s == [] then []
    else
      var c := s[0];
      [if 'A' <= c <= 'Z' then (c as int + 32) as char else c] + ToLowerAscii(s[1..])
  }

  /** `xs.filter(x => x.length > 0)`: the non-empty items, in order. */
  function NonEmpty(xs: seq<string>): (r: seq<string>)
    ensures |r| <= |xs|
    ensures forall i :: 0 <= i < |r| ==> r[i] != []
    ensures forall x :: x in r <==> x in xs && x != []
  {
    if xs == [] then []
    else (if xs[0] != [] then [xs[0]] else []) + NonEmpty(xs[1..])
  }

  /** The filter works item by item: it distributes over concatenation. */
  lemma {:induction false} NonEmptyAppend(a: seq<string>, b: seq<string>)
    ensures NonEmpty(a + b) == NonEmpty(a) + NonEmpty(b)
  {
    if a != [] {
      NonEmptyAppend(a[1..], b);
      assert (a + b)[1..] == a[1..] + b;
    } else {
      assert a + b == b;
    }
  }

  /** A list of non-empty items passes the filter whole. */
  lemma {:induction false} NonEmptyOfNonEmpty(xs: seq<string>)
    requires forall i :: 0 <= i < |xs| ==> xs[i] != []
    ensures NonEmpty(xs) == xs
  {
    if xs != [] {
      NonEmptyOfNonEmpty(xs[1..]);
      assert [xs[0]] + xs[1..] == xs;
    }
  }

  /** A list of empty items is filtered away entirely. */
  lemma {:induction false} NonEmptyOfEmpty(xs: seq<string>)
    requires forall i :: 0 <= i < |xs| ==> xs[i] == []
    ensures NonEmpty(xs) == []
  {
    if xs != [] {
      NonEmptyOfEmpty(xs[1..]);
    }
  }

  /** `xs.map(x => x.trim())`. */
  function TrimAll(xs: seq<string>): (r: seq<string>)
    ensures |r| == |xs|
    ensures forall i :: 0 <= i < |r| ==> r[i] == Trim(xs[i])
  {
    if xs == [] then [] else [Trim(xs[0])] + TrimAll(xs[1..])
  }

  predicate NoDuplicates<T(==)>(xs: seq<T>) {
    forall i, j :: 0 <= i < j < |xs| ==> xs[i] != xs[j]
  }
}
