/**
 * The JavaScript string built-ins the app relies on (`toLowerCase`, `trim`,
 * `includes`, `startsWith`, `split`, `join`, `parseInt`), over `seq<char>`.
 * Letters are ASCII; white space is the ASCII set plus NBSP and BOM, the same
 * set for `trim` and for the `\s` class.
 */
module Text {

  datatype Option<T> = None | Some(value: T)

  predicate IsDigit(c: char) { '0' <= c <= '9' }
  predicate IsUpper(c: char) { 'A' <= c <= 'Z' }
  predicate IsLower(c: char) { 'a' <= c <= 'z' }

  /** `\w` of a regular expression. */
  predicate IsWordChar(c: char) { IsDigit(c) || IsUpper(c) || IsLower(c) || c == '_' }

  /** White space as removed by `trim` and matched by `\s`. */
  predicate IsSpace(c: char)
  {
    c == ' ' || c == '\t' || c == '\n' || c == '\r' || c == '\U{000B}' || c == '\U{000C}'
    || c == '\U{00A0}' || c == '\U{FEFF}'
  }

  predicate AllDigits(s: string) { forall i :: 0 <= i < |s| ==> IsDigit(s[i]) }

  predicate IsBlank(s: string) { forall i :: 0 <= i < |s| ==> IsSpace(s[i]) }

  // ---------------------------------------------------------------- case

  function LowerChar(c: char): (r: char)
    ensures !IsUpper(r)
    ensures IsUpper(c) || r == c
    ensures IsWordChar(r) <==> IsWordChar(c)
    ensures IsSpace(r) <==> IsSpace(c)
  {
    if IsUpper(c) then (c as int + 32) as char else c
  }

  function UpperChar(c: char): (r: char)
    ensures !IsLower(r)
    ensures IsLower(c) || r == c
  {
    if IsLower(c) then (c as int - 32) as char else c
  }

  /** `toLowerCase`. */
  function Lower(s: string): (r: string)
    ensures |r| == |s|
    ensures forall i :: 0 <= i < |s| ==> r[i] == LowerChar(s[i])
  {
    if |s| == 0 then [] else [LowerChar(s[0])] + Lower(s[1..])
  }

  /** `toUpperCase`. */
  function Upper(s: string): (r: string)
    ensures |r| == |s|
    ensures forall i :: 0 <= i < |s| ==> r[i] == UpperChar(s[i])
  {
    if |s| == 0 then [] else [UpperChar(s[0])] + Upper(s[1..])
  }

  predicate HasNoUpper(s: string) { forall i :: 0 <= i < |s| ==> !IsUpper(s[i]) }
  predicate HasNoLower(s: string) { forall i :: 0 <= i < |s| ==> !IsLower(s[i]) }

  lemma LowerIdempotent(s: string)
    ensures HasNoUpper(Lower(s))
    ensures Lower(Lower(s)) == Lower(s)
  {
  }

  /** A string without lower-case letters is its own `toUpperCase`. */
  lemma UpperOfNoLower(s: string)
    requires HasNoLower(s)
    ensures Upper(s) == s
  {
  }

  // ---------------------------------------------------------------- search

  predicate StartsWith(s: string, p: string) { |p| <= |s| && s[..|p|] == p }

  predicate OccursAt(s: string, q: string, i: int)
  {
    0 <= i && i + |q| <= |s| && s[i..i + |q|] == q
  }

  /** `includes`. */
  predicate Contains(s: string, q: string)
    decreases |s|
  {
    StartsWith(s, q) || (|s| > 0 && Contains(s[1..], q))
  }

  lemma {:induction false} ContainsIffOccurs(s: string, q: string)
    ensures Contains(s, q) <==> exists i :: OccursAt(s, q, i)
    decreases |s|
  {
    if StartsWith(s, q) {
      assert OccursAt(s, q, 0);
    } else if |s| > 0 {
      ContainsIffOccurs(s[1..], q);
      if Contains(s[1..], q) {
        var i :| OccursAt(s[1..], q, i);
        assert s[1..][i..i + |q|] == s[i + 1..i + 1 + |q|];
        assert OccursAt(s, q, i + 1);
      }
      if i :| OccursAt(s, q, i) {
        assert i != 0;
        assert s[1..][i - 1..i - 1 + |q|] == s[i..i + |q|];
        assert OccursAt(s[1..], q, i - 1);
      }
    }
  }

  /** Every string contains the empty string and itself. */
  lemma ContainsTrivial(s: string)
    ensures Contains(s, "")
    ensures Contains(s, s)
  {
    assert StartsWith(s, "");
    assert StartsWith(s, s);
  }

  /** First index at or after `from` where `q` occurs. */
  function IndexOfFrom(s: string, q: string, from: nat): (r: Option<nat>)
    requires |q| > 0
    ensures r.Some? ==> from <= r.value && OccursAt(s, q, r.value)
    ensures r.Some? ==> forall j :: from <= j < r.value ==> !OccursAt(s, q, j)
    ensures r.None? ==> forall j :: from <= j ==> !OccursAt(s, q, j)
    decreases |s| - from
  {
    if from + |q| > |s| then None
    else if s[from..from + |q|] == q then Some(from)
    else IndexOfFrom(s, q, from + 1)
  }

  function IndexOf(s: string, q: string): (r: Option<nat>)
    requires |q| > 0
    ensures r.Some? ==> OccursAt(s, q, r.value) && forall j :: 0 <= j < r.value ==> !OccursAt(s, q, j)
    ensures r.None? ==> forall j :: !OccursAt(s, q, j)
  {
    IndexOfFrom(s, q, 0)
  }

  // ---------------------------------------------------------------- trim

  /** Number of leading white-space characters. */
  function LeadingSpaces(s: string): (n: nat)
    ensures n <= |s|
    ensures forall i :: 0 <= i < n ==> IsSpace(s[i])
    ensures n < |s| ==> !IsSpace(s[n])
  {
    if |s| == 0 || !IsSpace(s[0]) then 0 else 1 + LeadingSpaces(s[1..])
  }

  /** Number of trailing white-space characters. */
  function TrailingSpaces(s: string): (n: nat)
    ensures n <= |s|
    ensures forall i :: |s| - n <= i < |s| ==> IsSpace(s[i])
    ensures n < |s| ==> !IsSpace(s[|s| - n - 1])
  {
    if |s| == 0 || !IsSpace(s[|s| - 1]) then 0 else 1 + TrailingSpaces(s[..|s| - 1])
  }

  function TrimStart(s: string): string { s[LeadingSpaces(s)..] }

  /** `trim`. */
  function Trim(s: string): (r: string)
    ensures |r| <= |s|
    ensures |r| > 0 ==> !IsSpace(r[0]) && !IsSpace(r[|r| - 1])
    ensures r == "" <==> IsBlank(s)
  {
    var t := TrimStart(s);
    t[..|t| - TrailingSpaces(t)]
  }

  /** What `trim` keeps is a slice of the string. */
  lemma TrimIsSlice(s: string) returns (a: nat, b: nat)
    ensures a <= b <= |s| && Trim(s) == s[a..b]
  {
    a := LeadingSpaces(s);
    b := a + |Trim(s)|;
  }

  lemma TrimOfTrimmed(s: string)
    requires |s| == 0 || (!IsSpace(s[0]) && !IsSpace(s[|s| - 1]))
    ensures Trim(s) == s
  {
  }

  // ---------------------------------------------------------------- split / join

  /** `split(sep)` for a non-empty separator. */
  function Split(s: string, sep: string): (r: seq<string>)
    requires |sep| > 0
    ensures |r| >= 1
    decreases |s|
  {
    match IndexOf(s, sep)
    case None => [s]
    case Some(i) => [s[..i]] + Split(s[i + |sep|..], sep)
  }

  /** `join(sep)`. */
  function Join(parts: seq<string>, sep: string): string
  {
    if |parts| == 0 then ""
    else if |parts| == 1 then parts[0]
    else parts[0] + sep + Join(parts[1..], sep)
  }

  /** No occurrence of `sep` can start inside a string that lacks its first character. */
  lemma NoOccurrenceBefore(s: string, p: string, sep: string)
    requires |sep| > 0 && sep[0] !in p && StartsWith(s, p)
    ensures forall j :: 0 <= j < |p| ==> !OccursAt(s, sep, j)
  {
    forall j | 0 <= j < |p| ensures !OccursAt(s, sep, j) {
      assert s[j] == p[j] && p[j] in p;
    }
  }

  /**
   * Splitting a join gives the parts back, provided no part contains the
   * separator's first character.
   */
  lemma {:induction false} SplitJoin(parts: seq<string>, sep: string)
    requires |parts| >= 1 && |sep| > 0
    requires forall k :: 0 <= k < |parts| ==> sep[0] !in parts[k]
    ensures Split(Join(parts, sep), sep) == parts
    decreases |parts|
  {
    var s := Join(parts, sep);
    var p := parts[0];
    if |parts| == 1 {
      assert s == p;
      NoOccurrenceBefore(s, p, sep);
      assert forall j :: |p| <= j ==> !OccursAt(s, sep, j);
      assert IndexOf(s, sep).None?;
    } else {
      var rest := Join(parts[1..], sep);
      assert s == p + sep + rest;
      NoOccurrenceBefore(s, p, sep);
      assert s[|p|..|p| + |sep|] == sep;
      assert OccursAt(s, sep, |p|);
      assert IndexOf(s, sep) == Some(|p|);
      assert s[..|p|] == p;
      assert s[|p| + |sep|..] == rest;
      SplitJoin(parts[1..], sep);
    }
  }

  /** Joining the pieces of a split gives the string back. */
  lemma {:induction false} JoinSplit(s: string, sep: string)
    requires |sep| > 0
    ensures Join(Split(s, sep), sep) == s
    decreases |s|
  {
    match IndexOf(s, sep)
    case None =>
    case Some(i) =>
      var rest := s[i + |sep|..];
      var parts := [s[..i]] + Split(rest, sep);
      assert Split(s, sep) == parts;
      assert parts[1..] == Split(rest, sep);
      assert Join(parts, sep) == s[..i] + sep + Join(Split(rest, sep), sep);
      JoinSplit(rest, sep);
      assert s[i..i + |sep|] == sep;
      assert s == s[..i] + s[i..i + |sep|] + rest;
  }

  /** The pieces of a split on a single character do not contain it. */
  lemma {:induction false} SplitPartsLackSeparator(s: string, c: char)
    ensures forall k :: 0 <= k < |Split(s, [c])| ==> c !in Split(s, [c])[k]
    decreases |s|
  {
    match IndexOf(s, [c])
    case None =>
      forall j | 0 <= j < |s| ensures s[j] != c {
        assert !OccursAt(s, [c], j);
      }
    case Some(i) =>
      forall j | 0 <= j < i ensures s[j] != c {
        assert !OccursAt(s, [c], j);
      }
      SplitPartsLackSeparator(s[i + 1..], c);
  }

  /** `reverse`. */
  function Reverse<T>(s: seq<T>): (r: seq<T>)
    ensures |r| == |s|
    ensures forall i :: 0 <= i < |s| ==> r[i] == s[|s| - 1 - i]
  {
    seq(|s|, i requires 0 <= i < |s| => s[|s| - 1 - i])
  }

  lemma ReverseReverse<T>(s: seq<T>)
    ensures Reverse(Reverse(s)) == s
  {
  }

  // ---------------------------------------------------------------- numeric modifier suffix

  /** The position of the last `c` in `s`. */
  function LastIndexOf(s: string, c: char): (r: Option<nat>)
    ensures r.Some? ==> r.value < |s| && s[r.value] == c && forall j :: r.value < j < |s| ==> s[j] != c
    ensures r.None? ==> c !in s
  {
    if |s| == 0 then None
    else if s[|s| - 1] == c then Some(|s| - 1)
    else
      var r := LastIndexOf(s[..|s| - 1], c);
      assert s == s[..|s| - 1] + [s[|s| - 1]];
      r
  }

  /**
   * `replace(/-\d+$/, '')`: a dash followed by one or more digits up to the
   * end is removed. Only the last dash can start such a suffix, since a
   * suffix after an earlier dash contains a dash.
   */
  function StripNumericSuffix(s: string): (r: string)
    ensures r == s || (exists d :: |d| > 0 && AllDigits(d) && s == r + "-" + d)
  {
    match LastIndexOf(s, '-')
    case None => s
    case Some(k) =>
      if k + 1 < |s| && AllDigits(s[k + 1..]) then
        assert s == s[..k] + "-" + s[k + 1..];
        s[..k]
      else s
  }

  /** A dash and digits appended to any string are removed again. */
  lemma StripNumericSuffixOfAppended(c: string, d: string)
    requires |d| > 0 && AllDigits(d)
    ensures StripNumericSuffix(c + "-" + d) == c
  {
    var s := c + "-" + d;
    assert s[|c|] == '-';
    assert s[|c| + 1..] == d;
    assert forall k :: |c| < k < |s| ==> s[k] == d[k - |c| - 1] && s[k] != '-';
    assert LastIndexOf(s, '-') == Some(|c|);
    assert s[..|c|] == c;
  }

  /** A string without a dash is left alone. */
  lemma StripNumericSuffixNoDash(c: string)
    requires '-' !in c
    ensures StripNumericSuffix(c) == c
  {
  }

  // ---------------------------------------------------------------- parseInt

  function DigitValue(c: char): (d: nat)
    requires IsDigit(c)
    ensures d <= 9
  {
    c as int - '0' as int
  }

  /** The value of a run of decimal digits. */
  function DigitsValue(d: string): (v: nat)
    requires AllDigits(d)
  {
    if |d| == 0 then 0 else DigitsValue(d[..|d| - 1]) * 10 + DigitValue(d[|d| - 1])
  }

  /** Length of the run of digits at the start of `s`. */
  function LeadingDigits(s: string): (n: nat)
    ensures n <= |s|
    ensures AllDigits(s[..n])
    ensures n < |s| ==> !IsDigit(s[n])
  {
    if |s| == 0 || !IsDigit(s[0]) then 0
    else
      var k := LeadingDigits(s[1..]);
      assert s[..1 + k] == [s[0]] + s[1..][..k];
      1 + k
  }

  /** `parseInt(s, 10)`; `None` stands for `NaN`. */
  function ParseInt(s: string): Option<int>
  {
    var t := TrimStart(s);
    var neg := |t| > 0 && t[0] == '-';
    var u := if |t| > 0 && (t[0] == '-' || t[0] == '+') then t[1..] else t;
    var n := LeadingDigits(u);
    if n == 0 then None
    else Some(if neg then -(DigitsValue(u[..n]) as int) else DigitsValue(u[..n]))
  }

  lemma {:induction false} LeadingDigitsPrefix(d: string, rest: string)
    requires AllDigits(d)
    requires |rest| == 0 || !IsDigit(rest[0])
    ensures LeadingDigits(d + rest) == |d|
    decreases |d|
  {
    if |d| > 0 {
      assert (d + rest)[1..] == d[1..] + rest;
      LeadingDigitsPrefix(d[1..], rest);
    }
  }

  /** A code that starts with digits and then something else parses to the value of those digits. */
  lemma ParseIntPrefix(d: string, rest: string)
    requires |d| > 0 && AllDigits(d)
    requires |rest| == 0 || !IsDigit(rest[0])
    ensures ParseInt(d + rest) == Some(DigitsValue(d))
  {
    var s := d + rest;
    assert s[0] == d[0];
    assert LeadingSpaces(s) == 0;
    assert TrimStart(s) == s;
    LeadingDigitsPrefix(d, rest);
    assert s[..|d|] == d;
  }

  /** A string with no digit at all is `NaN`. */
  lemma ParseIntNoDigits(s: string)
    requires forall i :: 0 <= i < |s| ==> !IsDigit(s[i])
    ensures ParseInt(s) == None
  {
  }

  // ==================================================================== distinct elements

  /** No element occurs twice (a JavaScript `Set` kept in insertion order). */
  predicate NoDup<T(==)>(s: seq<T>)
  {
    forall i, j :: 0 <= i < j < |s| ==> s[i] != s[j]
  }

  /** The first occurrence of each element, in order (`[...new Set(s)]`). */
  function Dedup<T(==,!new)>(s: seq<T>): (r: seq<T>)
    ensures NoDup(r)
    ensures forall x :: x in r <==> x in s
    ensures |r| <= |s|
  {
    if |s| == 0 then []
    else
      var d := Dedup(s[..|s| - 1]);
      var x := s[|s| - 1];
      assert forall y :: y in s <==> y in s[..|s| - 1] || y == x by {
        assert s == s[..|s| - 1] + [x];
      }
      if x in d then d else d + [x]
  }

  /** The first element survives deduplication in first place. */
  lemma {:induction false} DedupFirst<T(!new)>(s: seq<T>)
    requires |s| > 0
    ensures |Dedup(s)| > 0 && Dedup(s)[0] == s[0]
  {
    if |s| > 1 {
      DedupFirst(s[..|s| - 1]);
    }
  }

  /** Removing duplicates from a duplicate-free sequence changes nothing. */
  lemma {:induction false} DedupOfNoDup<T(!new)>(s: seq<T>)
    requires NoDup(s)
    ensures Dedup(s) == s
  {
    if |s| > 0 {
      DedupOfNoDup(s[..|s| - 1]);
    }
  }

  /** Every occurrence of `x` removed (`Set.delete` on a duplicate-free sequence). */
  function Without<T(==,!new)>(s: seq<T>, x: T): (r: seq<T>)
    ensures forall y :: y in r <==> y in s && y != x
    ensures |r| <= |s|
    ensures NoDup(s) ==> NoDup(r)
  {
    if |s| == 0 then []
    else
      assert forall y :: y in s <==> y == s[0] || y in s[1..] by { assert s == [s[0]] + s[1..]; }
      var rest := Without(s[1..], x);
      if s[0] == x then rest
      else
        assert NoDup(s) ==> NoDup(s[1..]) && s[0] !in s[1..];
        [s[0]] + rest
  }

  /** `prev.includes(x) ? prev.filter(y => y !== x) : [...prev, x]`. */
  function Flip<T(==,!new)>(prev: seq<T>, x: T): (r: seq<T>)
    ensures x in r <==> x !in prev
    ensures forall y :: y != x ==> (y in r <==> y in prev)
    ensures x !in prev ==> r == prev + [x]
    ensures NoDup(prev) ==> NoDup(r)
  {
    if x in prev then Without(prev, x) else prev + [x]
  }

  /** Removing every occurrence from a list without `x` changes nothing. */
  lemma {:induction false} WithoutAbsent<T(!new)>(s: seq<T>, x: T)
    requires x !in s
    ensures Without(s, x) == s
  {
    if |s| > 0 {
      WithoutAbsent(s[1..], x);
      assert s == [s[0]] + s[1..];
    }
  }

  /** Flipping an absent element twice gives the list back. */
  lemma FlipTwice<T(!new)>(prev: seq<T>, x: T)
    requires x !in prev
    ensures Flip(Flip(prev, x), x) == prev
  {
    assert Flip(prev, x) == prev + [x];
    WithoutAppendLast(prev, x);
  }

  lemma WithoutAppendLast<T(!new)>(s: seq<T>, x: T)
    requires x !in s
    ensures Without(s + [x], x) == s
  {
    WithoutAbsent(s, x);
    WithoutAppend(s, [x], x);
  }

  lemma {:induction false} WithoutAppend<T(!new)>(a: seq<T>, b: seq<T>, x: T)
    ensures Without(a + b, x) == Without(a, x) + Without(b, x)
  {
    if |a| > 0 {
      assert (a + b)[1..] == a[1..] + b;
      WithoutAppend(a[1..], b, x);
    } else {
      assert a + b == b;
    }
  }

  /**
   * A click on a set-valued selection: a present element is removed, an
   * absent one is added at the end while fewer than `cap` are selected.
   */
  method ToggleCapped<T(==,!new)>(prev: seq<T>, x: T, cap: nat) returns (next: seq<T>)
    requires NoDup(prev)
    ensures NoDup(next)
    ensures x in prev ==> forall y :: y in next <==> y in prev && y != x
    ensures x !in prev && |prev| < cap ==> next == prev + [x]
    ensures x !in prev && |prev| >= cap ==> next == prev
    ensures |prev| <= cap ==> |next| <= cap
  {
    next := prev;
    if x in next {
      next := Without(next, x);
    } else if |next| < cap {
      next := next + [x];
    }
  }

  // ==================================================================== filter

  /** `r` is `s` with some elements left out, the rest in their order. */
  predicate IsSubsequence<T(==)>(r: seq<T>, s: seq<T>)
    decreases |s|
  {
    |r| == 0 || (|s| > 0 && (if r[0] == s[0] then IsSubsequence(r[1..], s[1..]) else IsSubsequence(r, s[1..])))
  }

  /** `filter`. */
  function Filter<T(!new)>(s: seq<T>, p: T -> bool): (r: seq<T>)
    ensures |r| <= |s|
    ensures forall x :: x in r <==> x in s && p(x)
  {
    if |s| == 0 then []
    else
      var rest := Filter(s[1..], p);
      assert forall y :: y in s <==> y == s[0] || y in s[1..] by { assert s == [s[0]] + s[1..]; }
      if p(s[0]) then [s[0]] + rest else rest
  }

  /** What `Filter` keeps stays in its original order. */
  lemma {:induction false} FilterIsSubsequence<T(!new)>(s: seq<T>, p: T -> bool)
    ensures IsSubsequence(Filter(s, p), s)
  {
    if |s| > 0 {
      var rest := Filter(s[1..], p);
      FilterIsSubsequence(s[1..], p);
      if p(s[0]) {
        assert ([s[0]] + rest)[1..] == rest;
      } else {
        assert |rest| > 0 ==> rest[0] in rest;
      }
    }
  }

  /** Filtering one more element at the end (a left-to-right loop that pushes what passes). */
  lemma {:induction false} FilterSnoc<T(!new)>(s: seq<T>, x: T, p: T -> bool)
    ensures Filter(s + [x], p) == Filter(s, p) + (if p(x) then [x] else [])
  {
    if |s| > 0 {
      assert (s + [x])[1..] == s[1..] + [x];
      FilterSnoc(s[1..], x, p);
    }
  }

  /** Filtering a concatenation filters each part. */
  lemma {:induction false} FilterAppend<T(!new)>(a: seq<T>, b: seq<T>, p: T -> bool)
    ensures Filter(a + b, p) == Filter(a, p) + Filter(b, p)
  {
    if |a| > 0 {
      assert (a + b)[1..] == a[1..] + b;
      FilterAppend(a[1..], b, p);
    } else {
      assert a + b == b;
    }
  }

  /** A weaker test keeps at least as many elements. */
  lemma {:induction false} FilterLengthMonotone<T(!new)>(s: seq<T>, p: T -> bool, q: T -> bool)
    requires forall x :: p(x) ==> q(x)
    ensures |Filter(s, p)| <= |Filter(s, q)|
  {
    if |s| > 0 {
      FilterLengthMonotone(s[1..], p, q);
    }
  }

  /** A filter keeps every element exactly when it is no shorter. */
  lemma {:induction false} FilterDrops<T(!new)>(s: seq<T>, p: T -> bool)
    ensures |Filter(s, p)| == |s| <==> forall x :: x in s ==> p(x)
  {
    if |s| > 0 {
      FilterDrops(s[1..], p);
      assert forall x :: x in s <==> x == s[0] || x in s[1..] by { assert s == [s[0]] + s[1..]; }
    }
  }

  /** A test and its negation split a sequence between them. */
  lemma {:induction false} FilterComplement<T(!new)>(s: seq<T>, p: T -> bool, q: T -> bool)
    requires forall x :: q(x) == !p(x)
    ensures |Filter(s, p)| + |Filter(s, q)| == |s|
  {
    if |s| > 0 {
      FilterComplement(s[1..], p, q);
    }
  }

  /** Two filters in a row are one filter by both tests. */
  lemma {:induction false} FilterFilter<T(!new)>(s: seq<T>, p: T -> bool, q: T -> bool, pq: T -> bool)
    requires forall x :: pq(x) == (p(x) && q(x))
    ensures Filter(Filter(s, p), q) == Filter(s, pq)
  {
    if |s| > 0 {
      FilterFilter(s[1..], p, q, pq);
      if p(s[0]) {
        assert Filter(s, p) == [s[0]] + Filter(s[1..], p);
        assert ([s[0]] + Filter(s[1..], p))[1..] == Filter(s[1..], p);
      }
    }
  }

  /** A filter that every element passes keeps everything. */
  lemma {:induction false} FilterAll<T(!new)>(s: seq<T>, p: T -> bool)
    requires forall x :: x in s ==> p(x)
    ensures Filter(s, p) == s
  {
    if |s| > 0 {
      assert forall x :: x in s[1..] ==> x in s;
      FilterAll(s[1..], p);
      assert s == [s[0]] + s[1..];
    }
  }

  /** A filter that no element passes is empty. */
  lemma FilterNone<T(!new)>(s: seq<T>, p: T -> bool)
    requires forall x :: x in s ==> !p(x)
    ensures Filter(s, p) == []
  {
  }

  /** A filter keeps something iff some element passes. */
  lemma FilterNonEmpty<T(!new)>(s: seq<T>, p: T -> bool)
    ensures |Filter(s, p)| > 0 <==> exists x :: x in s && p(x)
  {
    var f := Filter(s, p);
    if |f| > 0 {
      assert f[0] in f;
    }
  }

  /** A loop that pushes, after `acc`, each element of `s` that passes `p`. */
  method PushEach<T(!new)>(acc: seq<T>, s: seq<T>, p: T -> bool) returns (r: seq<T>)
    ensures r == acc + Filter(s, p)
  {
    r := acc;
    for i := 0 to |s|
      invariant r == acc + Filter(s[..i], p)
    {
      assert s[..i + 1] == s[..i] + [s[i]];
      FilterSnoc(s[..i], s[i], p);
      if p(s[i]) {
        r := r + [s[i]];
      }
    }
    assert s[..|s|] == s;
  }

  /** Checks `p` element by element, stopping at the first that fails. */
  method AllSatisfy<T>(s: seq<T>, p: T -> bool) returns (r: bool)
    ensures r <==> forall i :: 0 <= i < |s| ==> p(s[i])
  {
    var i := 0;
    while i < |s|
      invariant 0 <= i <= |s|
      invariant forall k :: 0 <= k < i ==> p(s[k])
    {
      if !p(s[i]) {
        return false;
      }
      i := i + 1;
    }
    return true;
  }

  // ==================================================================== flat map

  /** The pieces `f` gives for the elements of `s`, concatenated in order (`flatMap`, or a loop of pushes). */
  function FlatMap<T, U>(s: seq<T>, f: T -> seq<U>): (r: seq<U>)
  {
    if |s| == 0 then [] else FlatMap(s[..|s| - 1], f) + f(s[|s| - 1])
  }

  /** One more element processed by a left-to-right loop. */
  lemma FlatMapStep<T, U>(s: seq<T>, i: nat, f: T -> seq<U>)
    requires i < |s|
    ensures FlatMap(s[..i + 1], f) == FlatMap(s[..i], f) + f(s[i])
  {
    assert s[..i + 1][..i] == s[..i];
  }

  /** The same step, after what a loop had before it. */
  lemma FlatMapAccStep<T, U>(acc: seq<U>, s: seq<T>, i: nat, f: T -> seq<U>)
    requires i < |s|
    ensures acc + FlatMap(s[..i + 1], f) == (acc + FlatMap(s[..i], f)) + f(s[i])
  {
    FlatMapStep(s, i, f);
  }

  /** Something is in the flat map exactly when one element's piece holds it. */
  lemma {:induction false} FlatMapMember<T, U>(s: seq<T>, f: T -> seq<U>, x: U)
    ensures x in FlatMap(s, f) <==> exists i :: 0 <= i < |s| && x in f(s[i])
  {
    if |s| > 0 {
      var p := s[..|s| - 1];
      FlatMapMember(p, f, x);
      if x in FlatMap(s, f) {
        if x !in f(s[|s| - 1]) {
          var i :| 0 <= i < |p| && x in f(p[i]);
          assert s[i] == p[i];
        }
      }
      if exists i :: 0 <= i < |s| && x in f(s[i]) {
        var i :| 0 <= i < |s| && x in f(s[i]);
        if i < |p| {
          assert p[i] == s[i];
        }
      }
    }
  }

  /** The flat map seen from the front: the first element's piece, then the rest. */
  lemma {:induction false} FlatMapCons<T, U>(s: seq<T>, f: T -> seq<U>)
    requires |s| > 0
    ensures FlatMap(s, f) == f(s[0]) + FlatMap(s[1..], f)
  {
    if |s| > 1 {
      var p := s[..|s| - 1];
      FlatMapCons(p, f);
      assert p[1..] == s[1..][..|s| - 2];
    } else {
      assert s[..|s| - 1] == [];
    }
  }

  /** Every piece empty gives nothing. */
  lemma {:induction false} FlatMapEmpty<T, U>(s: seq<T>, f: T -> seq<U>)
    requires forall i :: 0 <= i < |s| ==> f(s[i]) == []
    ensures FlatMap(s, f) == []
  {
    if |s| > 0 {
      FlatMapEmpty(s[..|s| - 1], f);
    }
  }

  // ==================================================================== optional values

  /** A string JavaScript treats as true: present and not empty. */
  predicate Truthy(o: Option<string>)
  {
    o.Some? && o.value != ""
  }

  /** `o || fallback` on an optional string: an absent or empty string falls back. */
  function OrElse(o: Option<string>, fallback: string): (r: string)
    ensures Truthy(o) ==> r == o.value
    ensures !Truthy(o) ==> r == fallback
  {
    if Truthy(o) then o.value else fallback
  }

  /** The present values, in order (`map(...).filter(v => v !== null)`). */
  function Somes<T(==,!new)>(xs: seq<Option<T>>): (r: seq<T>)
    ensures |r| <= |xs|
    ensures forall v :: v in r <==> Some(v) in xs
  {
    if |xs| == 0 then []
    else
      assert forall o :: o in xs <==> o == xs[0] || o in xs[1..] by { assert xs == [xs[0]] + xs[1..]; }
      (if xs[0].Some? then [xs[0].value] else []) + Somes(xs[1..])
  }

  /**
   * The values kept keep their order: value `i` comes from position `idx[i]`,
   * with increasing positions, and every present value's position is listed.
   */
  lemma {:induction false} SomesInOrder<T(!new)>(xs: seq<Option<T>>)
    ensures exists idx: seq<nat> :: IndexesOf(idx, xs, Somes(xs)) && AllPresentListed(idx, xs)
  {
    if |xs| == 0 {
      assert IndexesOf([], xs, Somes(xs)) && AllPresentListed([], xs);
    } else {
      SomesInOrder(xs[1..]);
      var rest := Somes(xs[1..]);
      var idx: seq<nat> :| IndexesOf(idx, xs[1..], rest) && AllPresentListed(idx, xs[1..]);
      var shifted := ShiftIndexes(idx, xs, rest);
      ShiftKeepsListed(idx, xs, shifted);
      if xs[0].Some? {
        assert Somes(xs) == [xs[0].value] + rest;
        ConsIndex(shifted, xs, rest);
      } else {
        assert Somes(xs) == rest;
        SkipNone(shifted, xs);
      }
    }
  }

  /** Every position of `xs` holding a value is in `idx`. */
  predicate AllPresentListed<T>(idx: seq<nat>, xs: seq<Option<T>>)
  {
    forall i :: 0 <= i < |xs| && xs[i].Some? ==> i in idx
  }

  lemma ShiftIndexes<T>(idx: seq<nat>, xs: seq<Option<T>>, vs: seq<T>) returns (shifted: seq<nat>)
    requires |xs| > 0 && IndexesOf(idx, xs[1..], vs)
    ensures IndexesOf(shifted, xs, vs)
    ensures forall i :: 0 <= i < |shifted| ==> shifted[i] >= 1
    ensures |shifted| == |idx| && forall i :: 0 <= i < |idx| ==> shifted[i] == idx[i] + 1
  {
    shifted := seq(|idx|, i requires 0 <= i < |idx| => idx[i] + 1);
    assert forall i :: 0 <= i < |idx| ==> xs[shifted[i]] == xs[1..][idx[i]];
  }

  /** Shifting the positions of the tail by one lists every present position after the first. */
  lemma ShiftKeepsListed<T>(idx: seq<nat>, xs: seq<Option<T>>, shifted: seq<nat>)
    requires |xs| > 0 && AllPresentListed(idx, xs[1..])
    requires |shifted| == |idx| && forall i :: 0 <= i < |idx| ==> shifted[i] == idx[i] + 1
    ensures forall i :: 1 <= i < |xs| && xs[i].Some? ==> i in shifted
  {
    forall i | 1 <= i < |xs| && xs[i].Some? ensures i in shifted {
      assert xs[1..][i - 1] == xs[i];
      var k :| 0 <= k < |idx| && idx[k] == i - 1;
      assert shifted[k] == i;
    }
  }

  /** An absent first value needs no position. */
  lemma SkipNone<T>(idx: seq<nat>, xs: seq<Option<T>>)
    requires |xs| > 0 && xs[0].None?
    requires forall i :: 1 <= i < |xs| && xs[i].Some? ==> i in idx
    ensures AllPresentListed(idx, xs)
  {
  }

  lemma ConsIndex<T>(idx: seq<nat>, xs: seq<Option<T>>, vs: seq<T>)
    requires |xs| > 0 && xs[0].Some? && IndexesOf(idx, xs, vs)
    requires forall i :: 0 <= i < |idx| ==> idx[i] >= 1
    requires forall i :: 1 <= i < |xs| && xs[i].Some? ==> i in idx
    ensures IndexesOf([0] + idx, xs, [xs[0].value] + vs)
    ensures AllPresentListed([0] + idx, xs)
  {
    var full := [0] + idx;
    var r := [xs[0].value] + vs;
    assert forall i :: 1 <= i < |full| ==> full[i] == idx[i - 1] && r[i] == vs[i - 1];
  }

  /** `idx` lists, in strictly increasing order, positions of `xs` holding exactly the values `vs`. */
  predicate IndexesOf<T(==)>(idx: seq<nat>, xs: seq<Option<T>>, vs: seq<T>)
  {
    |idx| == |vs|
    && (forall i :: 0 <= i < |idx| ==> idx[i] < |xs| && xs[idx[i]] == Some(vs[i]))
    && (forall i, j :: 0 <= i < j < |idx| ==> idx[i] < idx[j])
  }
  // ==================================================================== grouping by key

  function KeysOf<T, D>(xs: seq<T>, key: T -> D): (ks: seq<D>)
    ensures |ks| == |xs|
    ensures forall i :: 0 <= i < |xs| ==> ks[i] == key(xs[i])
  {
    seq(|xs|, i requires 0 <= i < |xs| => key(xs[i]))
  }

  function HasKey<T, D(==)>(key: T -> D, d: D): T -> bool
  {
    c => key(c) == d
  }

  function GroupOf<T(!new), D(==)>(xs: seq<T>, key: T -> D): D -> seq<T>
  {
    d => Filter(xs, HasKey(key, d))
  }

  /** What the grouping loop knows after the first `i` elements. */
  ghost predicate GroupedSoFar<T(!new), D(!new)>(xs: seq<T>, key: T -> D, i: nat, groups: map<D, seq<T>>, order: seq<D>)
    requires i <= |xs|
  {
    && order == Dedup(KeysOf(xs[..i], key))
    && (forall d :: d in groups <==> d in order)
    && (forall d :: (if d in groups then groups[d] else []) == Filter(xs[..i], HasKey(key, d)))
  }

  /** The key order after one more element. */
  lemma KeyOrderStep<T(!new), D(!new)>(xs: seq<T>, key: T -> D, i: nat)
    requires i < |xs|
    ensures var prev := Dedup(KeysOf(xs[..i], key)); var k := key(xs[i]);
      Dedup(KeysOf(xs[..i + 1], key)) == if k in prev then prev else prev + [k]
  {
    var ks := KeysOf(xs[..i + 1], key);
    assert ks[..|ks| - 1] == KeysOf(xs[..i], key);
  }

  /** Each key's group after one more element. */
  lemma GroupFilterStep<T(!new), D(!new)>(xs: seq<T>, key: T -> D, i: nat, d: D)
    requires i < |xs|
    ensures Filter(xs[..i + 1], HasKey(key, d)) == Filter(xs[..i], HasKey(key, d)) + (if d == key(xs[i]) then [xs[i]] else [])
  {
    assert xs[..i + 1] == xs[..i] + [xs[i]];
    FilterSnoc(xs[..i], xs[i], HasKey(key, d));
  }

  /** The groups after one more element. */
  lemma GroupMapStep<T(!new), D(!new)>(xs: seq<T>, key: T -> D, i: nat, groups: map<D, seq<T>>)
    requires i < |xs|
    requires forall d :: (if d in groups then groups[d] else []) == Filter(xs[..i], HasKey(key, d))
    ensures var k := key(xs[i]); var groups' := groups[k := (if k in groups then groups[k] else []) + [xs[i]]];
      forall d :: (if d in groups' then groups'[d] else []) == Filter(xs[..i + 1], HasKey(key, d))
  {
    forall d {
      GroupFilterStep(xs, key, i, d);
    }
  }

  /** One more element appended to its key's group, the key added to the order if new. */
  lemma GroupStep<T(!new), D(!new)>(xs: seq<T>, key: T -> D, i: nat, groups: map<D, seq<T>>, order: seq<D>)
    requires i < |xs| && GroupedSoFar(xs, key, i, groups, order)
    ensures var k := key(xs[i]);
      GroupedSoFar(xs, key, i + 1,
        groups[k := (if k in groups then groups[k] else []) + [xs[i]]],
        if k in order then order else order + [k])
  {
    KeyOrderStep(xs, key, i);
    GroupMapStep(xs, key, i, groups);
  }

  /** The grouping loop (a `Map` filled by `push`): each key's elements, and the keys in insertion order. */
  method GroupByKey<T(!new), D(==,!new)>(xs: seq<T>, key: T -> D) returns (groups: map<D, seq<T>>, order: seq<D>)
    ensures order == Dedup(KeysOf(xs, key))
    ensures forall d :: d in groups <==> d in order
    ensures forall d :: d in groups ==> groups[d] == Filter(xs, HasKey(key, d))
  {
    groups := map[];
    order := [];
    for i := 0 to |xs|
      invariant GroupedSoFar(xs, key, i, groups, order)
    {
      GroupStep(xs, key, i, groups, order);
      var x := xs[i];
      var k := key(x);
      var members := if k in groups then groups[k] else [];
      groups := groups[k := members + [x]];
      if k !in order {
        order := order + [k];
      }
    }
    assert xs[..|xs|] == xs;
  }

}
