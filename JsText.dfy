/**
 * The JavaScript string built-ins that the Bonfire sources rely on, stated over
 * `seq<char>`: startsWith / endsWith / includes, indexOf, split and join,
 * slice with negative indices, parseInt and the decimal form of a number.
 */
module JsText {
  import opened Wrappers

  predicate StartsWith(s: string, prefix: string) {
    |prefix| <= |s| && s[..|prefix|] == prefix
  }

  predicate EndsWith(s: string, suffix: string) {
    |suffix| <= |s| && s[|s| - |suffix|..] == suffix
  }

  /** `t` occurs in `s` starting at index `i`. */
  predicate OccursAt(s: string, t: string, i: int) {
    0 <= i && i + |t| <= |s| && s[i..i + |t|] == t
  }

  lemma ConcatAssoc<T>(a: seq<T>, b: seq<T>, c: seq<T>)
    ensures a + b + c == a + (b + c)
  {
  }

  /** From an occurrence on, the text is the occurrence followed by what comes after it. */
  lemma OccurrenceThenRest(s: string, t: string, i: int)
    requires OccursAt(s, t, i)
    ensures s[i..] == t + s[i + |t|..]
  {
    assert s[i..] == s[i..i + |t|] + s[i + |t|..];
  }

  /** `s.includes(t)` */
  predicate Contains(s: string, t: string) {
    exists i :: 0 <= i <= |s| && OccursAt(s, t, i)
  }

  /** `s.indexOf(t, from)`, with "not found" as `None` instead of -1. */
  function IndexOfFrom(s: string, t: string, from: nat): (r: Option<nat>)
    requires from <= |s|
    ensures r.Some? ==> from <= r.value && OccursAt(s, t, r.value)
    ensures r.Some? ==> forall j :: from <= j < r.value ==> !OccursAt(s, t, j)
    ensures r.None? ==> forall j :: from <= j <= |s| ==> !OccursAt(s, t, j)
    decreases |s| - from
  {
    if OccursAt(s, t, from) then Some(from)
    else if from == |s| then None
    else IndexOfFrom(s, t, from + 1)
  }

  /** `s.indexOf(t)`: the first occurrence of `t` in `s`. */
  function IndexOf(s: string, t: string): (r: Option<nat>)
    ensures r.Some? <==> Contains(s, t)
    ensures r.Some? ==> OccursAt(s, t, r.value) && forall j :: 0 <= j < r.value ==> !OccursAt(s, t, j)
  {
    IndexOfFrom(s, t, 0)
  }

  /** `s.split(sep)` for a non-empty separator: the pieces between successive occurrences. */
  function Split(s: string, sep: string): (parts: seq<string>)
    requires |sep| > 0
    ensures |parts| >= 1
    decreases |s|
  {
    match IndexOf(s, sep)
    case None => [s]
    case Some(i) => [s[..i]] + Split(s[i + |sep|..], sep)
  }

  /** `parts.join(sep)` */
  function Join(parts: seq<string>, sep: string): string
  {
    if |parts| == 0 then ""
    else if |parts| == 1 then parts[0]
    else parts[0] + sep + Join(parts[1..], sep)
  }

  /** Joining a piece in front of at least one more. */
  lemma JoinCons(a: string, xs: seq<string>, sep: string)
    requires |xs| >= 1
    ensures Join([a] + xs, sep) == a + sep + Join(xs, sep)
  {
    assert ([a] + xs)[1..] == xs;
  }

  /** `s.split(sep)[k]`, which is `undefined` past the last piece. */
  function Piece(s: string, sep: string, k: nat): Option<string>
    requires |sep| > 0
  {
    var parts := Split(s, sep);
    if k < |parts| then Some(parts[k]) else None
  }

  /** Splitting and joining again with the same separator gives back the string. */
  lemma {:induction false} JoinSplit(s: string, sep: string)
    requires |sep| > 0
    ensures Join(Split(s, sep), sep) == s
    decreases |s|
  {
    match IndexOf(s, sep)
    case None =>
    case Some(i) =>
      var rest := s[i + |sep|..];
      var tail := Split(rest, sep);
      JoinSplit(rest, sep);
      var parts := Split(s, sep);
      assert parts == [s[..i]] + tail;
      JoinCons(s[..i], tail, sep);
      OccurrenceThenRest(s, sep, i);
      ConcatAssoc(s[..i], sep, rest);
      assert s == s[..i] + s[i..];
  }

  /** No piece of a split contains the separator. */
  lemma {:induction false} SplitPiecesAvoidSeparator(s: string, sep: string)
    requires |sep| > 0
    ensures forall k :: 0 <= k < |Split(s, sep)| ==> !Contains(Split(s, sep)[k], sep)
    decreases |s|
  {
    match IndexOf(s, sep)
    case None =>
    case Some(i) =>
      var rest := s[i + |sep|..];
      SplitPiecesAvoidSeparator(rest, sep);
      var parts := Split(s, sep);
      assert parts == [s[..i]] + Split(rest, sep);
      FirstPieceAvoidsSeparator(s, sep, i);
      forall k | 1 <= k < |parts|
        ensures !Contains(parts[k], sep)
      {
        assert parts[k] == Split(rest, sep)[k - 1];
      }
  }

  /** The text before the first occurrence of the separator does not contain it. */
  lemma FirstPieceAvoidsSeparator(s: string, sep: string, i: nat)
    requires |sep| > 0 && IndexOf(s, sep) == Some(i)
    ensures !Contains(s[..i], sep)
  {
    forall j | 0 <= j <= i ensures !OccursAt(s[..i], sep, j) {
      if j + |sep| <= i {
        assert !OccursAt(s, sep, j);
        assert s[..i][j..j + |sep|] == s[j..j + |sep|];
      }
    }
  }

  /** The first piece of a split is the text before the first occurrence of the separator. */
  lemma SplitHead(s: string, sep: string)
    requires |sep| > 0
    ensures IndexOf(s, sep).None? ==> Split(s, sep) == [s]
    ensures IndexOf(s, sep).Some? ==>
      Split(s, sep)[0] == s[..IndexOf(s, sep).value] && |Split(s, sep)| >= 2
  {
  }

  /** The first piece of a split is a prefix of the string. */
  lemma SplitHeadIsPrefix(s: string, sep: string)
    requires |sep| > 0
    ensures |Split(s, sep)[0]| <= |s| && s == Split(s, sep)[0] + s[|Split(s, sep)[0]|..]
  {
    SplitHead(s, sep);
  }

  /** A split with a second piece: the first occurrence of the separator lies between them. */
  lemma SplitSecond(s: string, sep: string)
    requires |sep| > 0 && |Split(s, sep)| >= 2
    ensures IndexOf(s, sep).Some?
    ensures var i := IndexOf(s, sep).value;
      Split(s, sep)[0] == s[..i] && Split(s, sep)[1] == Split(s[i + |sep|..], sep)[0]
      && s == s[..i] + sep + s[i + |sep|..]
  {
    var i := IndexOf(s, sep).value;
    assert Split(s, sep) == [s[..i]] + Split(s[i + |sep|..], sep);
    assert s == s[..i] + s[i..i + |sep|] + s[i + |sep|..];
  }

  /** The text after the first piece and the separator starts with the second piece. */
  lemma SplitFirstTwo(s: string, sep: string)
    requires |sep| > 0 && |Split(s, sep)| >= 2
    ensures var p0 := Split(s, sep)[0];
      |p0| + |sep| <= |s| && s == p0 + sep + s[|p0| + |sep|..]
      && StartsWith(s[|p0| + |sep|..], Split(s, sep)[1])
  {
    SplitSecond(s, sep);
    var i := IndexOf(s, sep).value;
    SplitHeadIsPrefix(s[i + |sep|..], sep);
  }

  /** A prefix of a prefix is a prefix. */
  lemma StartsWithConcat(a: string, b: string, rest: string, c: string)
    requires StartsWith(rest, b) && StartsWith(b, c)
    ensures StartsWith(a + rest, a + c)
  {
    assert (a + rest)[..|a + c|] == a + rest[..|c|];
    assert rest[..|c|] == b[..|c|];
  }

  /** Where `s.slice` puts an index: negative counts from the end, everything clamped to `[0, n]`. */
  function ClampIndex(k: int, n: nat): (r: nat)
    ensures r <= n
    ensures 0 <= k <= n ==> r == k
    ensures k < 0 && n + k >= 0 ==> r == n + k
  {
    if k < 0 then (if n + k < 0 then 0 else n + k)
    else if k > n then n
    else k
  }

  /** `s.slice(start, end)` */
  function Slice(s: string, start: int, end: int): string
  {
    var a, b := ClampIndex(start, |s|), ClampIndex(end, |s|);
    if a < b then s[a..b] else ""
  }

  /** `s.slice(start)` */
  function SliceFrom(s: string, start: int): string
  {
    Slice(s, start, |s|)
  }

  predicate IsDigit(c: char) {
    '0' <= c <= '9'
  }

  predicate AllDigits(s: string) {
    forall k :: 0 <= k < |s| ==> IsDigit(s[k])
  }

  /** The length of the longest run of decimal digits that starts at index `p`. */
  function DigitRun(s: string, p: nat): (n: nat)
    requires p <= |s|
    ensures p + n <= |s|
    ensures forall k :: p <= k < p + n ==> IsDigit(s[k])
    ensures p + n < |s| ==> !IsDigit(s[p + n])
    decreases |s| - p
  {
    if p == |s| || !IsDigit(s[p]) then 0 else 1 + DigitRun(s, p + 1)
  }

  /** The value of a string of decimal digits. */
  function DigitsValue(ds: string): nat
    requires AllDigits(ds)
  {
    if |ds| == 0 then 0
    else 10 * DigitsValue(ds[..|ds| - 1]) + (ds[|ds| - 1] - '0') as nat
  }

  /**
   * `parseInt(s)` for the forms the sources meet: an optional sign, then the
   * leading decimal digits; no digits is `NaN`, modelled as `None`.
   */
  function ParseInt(s: string): Option<int>
  {
    var negative := |s| > 0 && s[0] == '-';
    var body := if |s| > 0 && (s[0] == '-' || s[0] == '+') then s[1..] else s;
    var n := DigitRun(body, 0);
    if n == 0 then None
    else
      var v: int := DigitsValue(body[..n]);
      Some(if negative then -v else v)
  }

  /** The decimal form of a natural number, as template literals print it. */
  function NatToString(n: nat): (r: string)
    ensures |r| >= 1 && AllDigits(r)
  {
    if n < 10 then [('0' as int + n) as char]
    else NatToString(n / 10) + [('0' as int + n % 10) as char]
  }

  /** Reading back the decimal form of `n` gives `n`. */
  lemma {:induction false} DigitsValueOfNatToString(n: nat)
    ensures DigitsValue(NatToString(n)) == n
  {
    var r := NatToString(n);
    if n >= 10 {
      DigitsValueOfNatToString(n / 10);
      assert r[..|r| - 1] == NatToString(n / 10);
    }
  }

  /** `parseInt` inverts the decimal form of a natural number. */
  lemma ParseIntOfNatToString(n: nat)
    ensures ParseInt(NatToString(n)) == Some(n)
  {
    var r := NatToString(n);
    AllDigitsRun(r, 0);
    assert r[..|r|] == r;
    DigitsValueOfNatToString(n);
  }

  lemma {:induction false} AllDigitsRun(s: string, p: nat)
    requires p <= |s| && AllDigits(s)
    ensures DigitRun(s, p) == |s| - p
    decreases |s| - p
  {
    if p < |s| {
      AllDigitsRun(s, p + 1);
    }
  }

  /** Different natural numbers have different decimal forms. */
  lemma NatToStringInjective(m: nat, n: nat)
    requires NatToString(m) == NatToString(n)
    ensures m == n
  {
    DigitsValueOfNatToString(m);
    DigitsValueOfNatToString(n);
  }
}
