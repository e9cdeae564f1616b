/**
 * The pure helpers of src/lib/utilities.ts: shortening and digit grouping of
 * display strings, conversion between base units and decimal amounts, the
 * contract's spare capacity, the rewriting of asset URLs to the IPFS gateway
 * (ARC-3 and plain ipfs:// URLs) and the parse of ARC-19 template URLs.
 */
module Utilities {
  import opened Wrappers
  import opened Types
  import opened JsText

  // ---------------------------------------------------------------------------
  // ellipseString

  /** `ellipseString(s, width)`: the head and the tail of `s` around "...". */
  function EllipseString(s: string, width: int): (r: string)
    ensures 0 < width <= |s| ==> r == s[..width] + "..." + s[|s| - width..] && |r| == 2 * width + 3
    ensures width > |s| ==> r == s + "..." + s
    ensures width == 0 ==> r == "..." + s
  {
    Slice(s, 0, width) + "..." + SliceFrom(s, -width)
  }

  // ---------------------------------------------------------------------------
  // numberWithCommas

  predicate IsWordChar(c: char) {
    ('a' <= c <= 'z') || ('A' <= c <= 'Z') || IsDigit(c) || c == '_'
  }

  /**
   * The regular expression `\B(?=(\d{3})+(?!\d))` matches the empty string at
   * index `p` of `t`: `p` is not a word boundary, and the run of digits that
   * starts there is a positive multiple of three long.
   */
  predicate CommaBefore(t: string, p: int) {
    0 < p < |t| && IsWordChar(t[p - 1]) && DigitRun(t, p) > 0 && DigitRun(t, p) % 3 == 0
  }

  /** The first `q` characters of `t` with "," inserted at every match. */
  function InsertCommasUpTo(t: string, q: nat): string
    requires q <= |t|
  {
    if q == 0 then ""
    else InsertCommasUpTo(t, q - 1) + (if CommaBefore(t, q - 1) then "," else "") + [t[q - 1]]
  }

  /** `t.replace(/\B(?=(\d{3})+(?!\d))/g, ",")` */
  function InsertCommas(t: string): string {
    InsertCommasUpTo(t, |t|)
  }

  /**
   * `numberWithCommas(num)` on the string form of the number: the part before
   * the first "." is grouped, the rest is kept as it is.
   */
  function NumberWithCommas(num: string): (r: string)
    ensures var head := Split(num, ".")[0];
      |head| <= |num| && r == InsertCommas(head) + num[|head|..]
  {
    var parts := Split(num, ".");
    SplitHeadReplaced(num, ".", InsertCommas(parts[0]));
    Join([InsertCommas(parts[0])] + parts[1..], ".")
  }

  /** `s` with every comma deleted. */
  function RemoveCommas(s: string): string {
    if |s| == 0 then ""
    else RemoveCommas(s[..|s| - 1]) + (if s[|s| - 1] == ',' then "" else [s[|s| - 1]])
  }

  /** The usual thousands grouping of a run of digits, written from the right. */
  function GroupDigits(t: string): string
    decreases |t|
  {
    if |t| <= 3 then t else GroupDigits(t[..|t| - 3]) + "," + t[|t| - 3..]
  }

  /**
   * `r` is digits in groups separated by commas: every group after the first
   * has exactly three digits and the first has one to three.
   */
  predicate ThousandsGrouped(r: string) {
    && |r| % 4 != 0
    && (forall i :: 0 <= i < |r| ==> (r[i] == ',' <==> (|r| - i) % 4 == 0))
    && (forall i :: 0 <= i < |r| && r[i] != ',' ==> IsDigit(r[i]))
  }

  lemma {:induction false} RemoveCommasAppend(a: string, b: string)
    ensures RemoveCommas(a + b) == RemoveCommas(a) + RemoveCommas(b)
    decreases |b|
  {
    if |b| > 0 {
      var b' := b[..|b| - 1];
      assert (a + b)[..|a + b| - 1] == a + b';
      RemoveCommasAppend(a, b');
    } else {
      assert a + b == a;
    }
  }

  lemma RemoveCommasSnoc(s: string, c: char)
    ensures RemoveCommas(s + [c]) == RemoveCommas(s) + (if c == ',' then "" else [c])
  {
    assert (s + [c])[..|s|] == s;
  }

  /** Inserting commas and deleting them again gives back what was there. */
  lemma {:induction false} RemoveInsertedCommas(t: string, q: nat)
    requires q <= |t|
    ensures RemoveCommas(InsertCommasUpTo(t, q)) == RemoveCommas(t[..q])
  {
    if q > 0 {
      var x := InsertCommasUpTo(t, q - 1);
      var sep := if CommaBefore(t, q - 1) then "," else "";
      var c := t[q - 1];
      assert InsertCommasUpTo(t, q) == x + sep + [c];
      RemoveInsertedCommas(t, q - 1);
      RemoveCommasStep(x, sep, c, t[..q - 1]);
      assert t[..q] == t[..q - 1] + [c];
    }
  }

  /** One more character after an optional comma, on two strings that agree once commas are deleted. */
  lemma RemoveCommasStep(x: string, sep: string, c: char, prev: string)
    requires sep == "" || sep == ","
    requires RemoveCommas(x) == RemoveCommas(prev)
    ensures RemoveCommas(x + sep + [c]) == RemoveCommas(prev + [c])
  {
    assert RemoveCommas(x + sep) == RemoveCommas(x) by {
      if sep == "," {
        RemoveCommasSnoc(x, ',');
      } else {
        assert x + sep == x;
      }
    }
    RemoveCommasSnoc(x + sep, c);
    RemoveCommasSnoc(prev, c);
  }

  /** In a run of digits a comma goes exactly where a multiple of three digits remains. */
  lemma CommaBeforeInDigits(t: string, p: int)
    requires AllDigits(t) && 0 <= p <= |t|
    ensures CommaBefore(t, p) <==> 0 < p < |t| && (|t| - p) % 3 == 0
  {
    AllDigitsRun(t, p);
  }

  /** Two strings that agree on a prefix and on where commas go there are grouped alike. */
  lemma {:induction false} InsertCommasAgree(t: string, u: string, q: nat)
    requires q <= |t| && q <= |u| && t[..q] == u[..q]
    requires forall p :: 0 <= p < q ==> CommaBefore(t, p) == CommaBefore(u, p)
    ensures InsertCommasUpTo(t, q) == InsertCommasUpTo(u, q)
  {
    if q > 0 {
      assert t[..q - 1] == u[..q - 1];
      assert t[q - 1] == t[..q][q - 1] == u[..q][q - 1] == u[q - 1];
      InsertCommasAgree(t, u, q - 1);
    }
  }

  /** The last three digits of a longer run form the last group. */
  lemma InsertCommasLastGroup(t: string)
    requires AllDigits(t) && |t| > 3
    ensures InsertCommas(t) == InsertCommasUpTo(t, |t| - 3) + "," + t[|t| - 3..]
  {
    var n := |t|;
    CommaBeforeInDigits(t, n - 3);
    CommaBeforeInDigits(t, n - 2);
    CommaBeforeInDigits(t, n - 1);
    LastThreeInserted(t);
  }

  lemma LastThreeInserted(t: string)
    requires |t| > 3
    requires CommaBefore(t, |t| - 3) && !CommaBefore(t, |t| - 2) && !CommaBefore(t, |t| - 1)
    ensures InsertCommasUpTo(t, |t|) == InsertCommasUpTo(t, |t| - 3) + "," + t[|t| - 3..]
  {
    var n := |t|;
    var x := InsertCommasUpTo(t, n - 3) + ",";
    assert InsertCommasUpTo(t, n - 2) == x + [t[n - 3]];
    assert InsertCommasUpTo(t, n - 1) == x + [t[n - 3]] + [t[n - 2]];
    assert InsertCommasUpTo(t, n) == x + [t[n - 3]] + [t[n - 2]] + [t[n - 1]];
    SnocThree(x, t[n - 3..]);
  }

  lemma SnocThree<T>(p: seq<T>, s: seq<T>)
    requires |s| == 3
    ensures p + [s[0]] + [s[1]] + [s[2]] == p + s
  {
    var l := p + [s[0]] + [s[1]] + [s[2]];
    assert |l| == |p + s|;
    forall i | 0 <= i < |l| ensures l[i] == (p + s)[i] {
      if i >= |p| {
        assert l[i] == s[i - |p|];
      }
    }
  }

  /** On a run of digits the regular-expression replace is the usual thousands grouping. */
  lemma {:induction false} InsertCommasGroupsDigits(t: string)
    requires AllDigits(t)
    ensures InsertCommas(t) == GroupDigits(t)
    decreases |t|
  {
    var n := |t|;
    if n <= 3 {
      forall p | 0 <= p < n ensures !CommaBefore(t, p) {
        CommaBeforeInDigits(t, p);
      }
      NoCommasInShortRun(t, n);
      assert t[..n] == t;
    } else {
      var u := t[..n - 3];
      forall p | 0 <= p < n - 3 ensures CommaBefore(t, p) == CommaBefore(u, p) {
        CommaBeforeInDigits(t, p);
        CommaBeforeInDigits(u, p);
      }
      assert t[..n - 3] == u[..n - 3];
      InsertCommasAgree(t, u, n - 3);
      InsertCommasGroupsDigits(u);
      InsertCommasLastGroup(t);
    }
  }

  lemma {:induction false} NoCommasInShortRun(t: string, q: nat)
    requires q <= |t|
    requires forall p :: 0 <= p < q ==> !CommaBefore(t, p)
    ensures InsertCommasUpTo(t, q) == t[..q]
  {
    if q > 0 {
      NoCommasInShortRun(t, q - 1);
      assert t[..q] == t[..q - 1] + [t[q - 1]];
    }
  }

  /** The grouping of a non-empty run of digits is well formed. */
  lemma {:induction false} GroupDigitsGrouped(t: string)
    requires AllDigits(t) && |t| > 0
    ensures ThousandsGrouped(GroupDigits(t))
    decreases |t|
  {
    var n := |t|;
    if n > 3 {
      var u := t[..n - 3];
      GroupDigitsGrouped(u);
      GroupAppended(GroupDigits(u), t[n - 3..]);
    }
  }

  /** A well-formed grouping followed by a comma and three more digits is well formed. */
  lemma GroupAppended(g: string, d: string)
    requires ThousandsGrouped(g) && |d| == 3 && AllDigits(d)
    ensures ThousandsGrouped(g + "," + d)
  {
    var r := g + "," + d;
    forall i | 0 <= i < |r|
      ensures (r[i] == ',' <==> (|r| - i) % 4 == 0)
      ensures r[i] != ',' ==> IsDigit(r[i])
    {
      GroupAppendedAt(g, d, i);
    }
  }

  lemma GroupAppendedAt(g: string, d: string, i: nat)
    requires ThousandsGrouped(g) && |d| == 3 && AllDigits(d)
    requires i < |g| + 4
    ensures var r := g + "," + d;
      |r| == |g| + 4 && (r[i] == ',' <==> (|r| - i) % 4 == 0) && (r[i] != ',' ==> IsDigit(r[i]))
  {
    var r := g + "," + d;
    if i < |g| {
      assert r[i] == g[i];
      var k := |g| - i;
      assert |r| - i == k + 4;
    } else if i > |g| {
      assert r[i] == d[i - |g| - 1];
    }
  }

  /** Joining the pieces of a split with the first piece replaced by `g`. */
  lemma SplitHeadReplaced(s: string, sep: string, g: string)
    requires |sep| > 0
    ensures var parts := Split(s, sep);
      |parts[0]| <= |s| && Join([g] + parts[1..], sep) == g + s[|parts[0]|..]
  {
    match IndexOf(s, sep)
    case None =>
      var parts := Split(s, sep);
      assert [g] + parts[1..] == [g];
      assert s[|s|..] == "";
    case Some(i) =>
      HeadReplacedAt(s, sep, g, i);
  }

  lemma HeadReplacedAt(s: string, sep: string, g: string, i: nat)
    requires |sep| > 0 && IndexOf(s, sep) == Some(i)
    ensures var parts := Split(s, sep);
      |parts[0]| <= |s| && Join([g] + parts[1..], sep) == g + s[|parts[0]|..]
  {
    var parts := Split(s, sep);
    var rest := s[i + |sep|..];
    assert parts == [s[..i]] + Split(rest, sep);
    assert parts[0] == s[..i] && parts[1..] == Split(rest, sep);
    JoinSplit(rest, sep);
    JoinCons(g, Split(rest, sep), sep);
    OccurrenceThenRest(s, sep, i);
    ConcatAssoc(g, sep, rest);
  }

  /**
   * Deleting every comma from `numberWithCommas(num)` gives back `num` when
   * `num` has none; the text from the first "." on is left as it was.
   */
  lemma NumberWithCommasOnlyAddsCommas(num: string)
    ensures RemoveCommas(NumberWithCommas(num)) == RemoveCommas(num)
    ensures (forall i :: 0 <= i < |num| ==> num[i] != ',') ==> RemoveCommas(NumberWithCommas(num)) == num
  {
    var head := Split(num, ".")[0];
    assert |head| <= |num| && num == head + num[|head|..] by { SplitHeadIsPrefix(num, "."); }
    var rest := num[|head|..];
    assert NumberWithCommas(num) == InsertCommas(head) + rest;
    assert RemoveCommas(InsertCommas(head)) == RemoveCommas(head) by {
      RemoveInsertedCommas(head, |head|);
      assert head[..|head|] == head;
    }
    RemoveCommasAppend(InsertCommas(head), rest);
    RemoveCommasAppend(head, rest);
    if forall i :: 0 <= i < |num| ==> num[i] != ',' {
      NoCommasRemoved(num);
    }
  }

  lemma {:induction false} NoCommasRemoved(s: string)
    requires forall i :: 0 <= i < |s| ==> s[i] != ','
    ensures RemoveCommas(s) == s
  {
    if |s| > 0 {
      NoCommasRemoved(s[..|s| - 1]);
    }
  }

  /** For an all-digit integer part, the grouped text is well formed thousands groups. */
  lemma NumberWithCommasGroupsThousands(num: string)
    requires var head := Split(num, ".")[0]; |head| > 0 && AllDigits(head)
    ensures var head := Split(num, ".")[0];
      var grouped := InsertCommas(head);
      ThousandsGrouped(grouped) && NumberWithCommas(num) == grouped + num[|head|..]
  {
    var head := Split(num, ".")[0];
    InsertCommasGroupsDigits(head);
    GroupDigitsGrouped(head);
  }

  // ---------------------------------------------------------------------------
  // Amounts

  /** 10^d */
  function Pow10(d: nat): (r: nat)
    ensures r >= 1
  {
    if d == 0 then 1 else 10 * Pow10(d - 1)
  }

  /** `numberToDecimal(num, decimals)`: base units to a decimal amount. */
  function NumberToDecimal(num: real, decimals: nat): (r: real)
    ensures r * Pow10(decimals) as real == num
    ensures decimals == 0 ==> r == num
  {
    num / Pow10(decimals) as real
  }

  /** `makeIntegerAmount(decimalAmount, asset)`: a decimal amount to base units, unrounded. */
  function MakeIntegerAmount(decimalAmount: real, decimals: nat): (r: real)
    ensures r / Pow10(decimals) as real == decimalAmount
    ensures decimals == 0 ==> r == decimalAmount
  {
    decimalAmount * Pow10(decimals) as real
  }

  /** Base units shown as a decimal amount convert back to the same base units. */
  lemma AmountRoundTrip(num: real, decimals: nat)
    ensures MakeIntegerAmount(NumberToDecimal(num, decimals), decimals) == num
    ensures NumberToDecimal(MakeIntegerAmount(num, decimals), decimals) == num
  {
  }

  /** The balance that one asset holding locks in an account: 0.1 Algo. */
  const LOG_COST: nat := 100000

  /**
   * `calcExtraLogs(acctInfo)`: how many further asset holdings the account's
   * balance above its minimum already pays for, rounded down. Not clamped:
   * an account below its minimum balance gives a negative number.
   */
  function CalcExtraLogs(info: AccountInfo): (extra: int)
    ensures extra * LOG_COST <= info.amount - info.minBalance < (extra + 1) * LOG_COST
    ensures extra < 0 <==> info.amount < info.minBalance
  {
    (info.amount - info.minBalance) / LOG_COST
  }

  // ---------------------------------------------------------------------------
  // ipfsFromAsset

  const IPFS_ENDPOINT: string := "https://ipfs.algonode.xyz/ipfs"
  const OPTIMIZER: string := "?optimizer=image&width=24&quality=70"
  const IPFS_SCHEME: string := "ipfs://"

  /** The gateway address of an IPFS path, with the image optimizer query. */
  function GatewayImageUrl(path: string): string {
    IPFS_ENDPOINT + "/" + path + OPTIMIZER
  }

  /** A JavaScript string that is neither `undefined` nor empty. */
  predicate Truthy(s: Option<string>) {
    s.Some? && s.value != ""
  }

  /**
   * Where an asset's image comes from: an address the page can use as it is,
   * or the JSON metadata that must be fetched first (ARC-19 template, ARC-3).
   */
  datatype ImageSource =
    | Direct(src: string)
    | Arc19Metadata(url: string, reserve: Address)
    | Arc3Metadata(metadataUrl: string)

  /**
   * The branches of `ipfsFromAsset` that decide without fetching anything:
   * no URL gives "", an ARC-19 template of an asset with a reserve needs its
   * metadata, then a `#arc3` URL needs its metadata, and every other URL
   * gives an address directly.
   */
  function IpfsFromAsset(url: Option<string>, reserve: Option<Address>): (r: ImageSource)
    ensures !Truthy(url) ==> r == Direct("")
    ensures r.Arc19Metadata? <==> Truthy(url) && Truthy(reserve) && Contains(url.value, "template-ipfs")
    ensures r.Arc19Metadata? ==> r.url == url.value && r.reserve == reserve.value
    ensures r.Arc3Metadata? <==>
              Truthy(url) && !(Truthy(reserve) && Contains(url.value, "template-ipfs")) && EndsWith(url.value, "#arc3")
  {
    if !Truthy(url) then Direct("")
    else
      var u := url.value;
      if Truthy(reserve) && Contains(u, "template-ipfs") then Arc19Metadata(u, reserve.value)
      else if EndsWith(u, "#arc3") then
        var m := Slice(u, 0, -5);
        if StartsWith(m, IPFS_SCHEME) then Arc3Metadata(IPFS_ENDPOINT + "/" + SliceFrom(m, 7))
        else Arc3Metadata(m)
      else if StartsWith(u, "https://") && Contains(u, "ipfs") then
        var cidPath := match Piece(u, "/ipfs/", 1) case Some(p) => p case None => "undefined";
        Direct(GatewayImageUrl(cidPath))
      else if StartsWith(u, IPFS_SCHEME) then Direct(GatewayImageUrl(SliceFrom(u, 7)))
      else Direct(u)
  }

  /**
   * The image address taken from fetched ARC-3 metadata: an `ipfs://` image is
   * sent through the gateway, any other is kept; a missing `image` throws and
   * gives "".
   */
  function ImageFromArc3Metadata(image: Option<string>): (r: string)
    ensures !StartsWith(r, IPFS_SCHEME)
    ensures image.None? ==> r == ""
    ensures image.Some? && !StartsWith(image.value, IPFS_SCHEME) ==> r == image.value
    ensures image.Some? && StartsWith(image.value, IPFS_SCHEME) ==> r == GatewayImageUrl(image.value[7..])
  {
    match image
    case None => ""
    case Some(i) =>
      if StartsWith(i, IPFS_SCHEME) then
        GatewayIsHttps(SliceFrom(i, 7));
        assert SliceFrom(i, 7) == i[7..];
        GatewayImageUrl(SliceFrom(i, 7))
      else i
  }

  /**
   * The image address taken from fetched ARC-19 metadata and the computed
   * CID: the metadata's image when it has one, through the gateway when it
   * is an `ipfs://` address; otherwise the gateway address of the CID.
   */
  function ImageFromArc19Metadata(image: Option<string>, cid: string): (r: string)
    ensures !StartsWith(r, IPFS_SCHEME)
    ensures Truthy(image) && !StartsWith(image.value, IPFS_SCHEME) ==> r == image.value
    ensures Truthy(image) && StartsWith(image.value, IPFS_SCHEME) ==> r == GatewayImageUrl(image.value[7..])
    ensures !Truthy(image) ==> r == GatewayImageUrl(cid)
    ensures r != ""
  {
    GatewayIsHttps(cid);
    var url := if Truthy(image) then image.value else GatewayImageUrl(cid);
    if StartsWith(url, IPFS_SCHEME) then
      GatewayIsHttps(SliceFrom(url, 7));
      assert SliceFrom(url, 7) == url[7..];
      GatewayImageUrl(SliceFrom(url, 7))
    else if url != "" then url
    else ""
  }

  /**
   * The image address the ARC-19 branch of `ipfsFromAsset` returns: the
   * image taken from the metadata when the template parses, and "" when
   * `getARC19AssetData` throws on a URL it cannot parse.
   */
  function Arc19Image(url: string, image: Option<string>, cid: string): (r: string)
    ensures r == "" <==> ParseArc19Url(url).Err?
    ensures ParseArc19Url(url).Ok? ==> r == ImageFromArc19Metadata(image, cid)
    ensures !StartsWith(r, IPFS_SCHEME)
  {
    match ParseArc19Url(url)
    case Err(_) => ""
    case Ok(_) => ImageFromArc19Metadata(image, cid)
  }

  /**
   * Any URL that mentions `template-ipfs`, of an asset with a reserve, takes
   * the ARC-19 branch; when it lacks the `template-ipfs://{ipfscid:` prefix
   * (say `https://h/template-ipfs.png`) the parse fails and the image is "".
   */
  lemma Arc19BranchWithoutTemplateGivesEmpty(url: string, reserve: Option<Address>, image: Option<string>, cid: string)
    requires Truthy(reserve) && Contains(url, "template-ipfs") && !StartsWith(url, ARC19_PREFIX)
    ensures IpfsFromAsset(Some(url), reserve) == Arc19Metadata(url, reserve.value)
    ensures Arc19Image(url, image, cid) == ""
  {
    var at :| 0 <= at <= |url| && OccursAt(url, "template-ipfs", at);
    assert url != "";
    if ParseArc19Url(url).Ok? {
      Arc19AcceptedHasPrefix(url);
    }
  }

  lemma GatewayIsHttps(path: string)
    ensures StartsWith(GatewayImageUrl(path), IPFS_ENDPOINT) && !StartsWith(GatewayImageUrl(path), IPFS_SCHEME)
  {
    var g := GatewayImageUrl(path);
    assert g[..|IPFS_ENDPOINT|] == IPFS_ENDPOINT;
    assert g[0] == 'h';
  }

  /**
   * Every image address the page ends up with is usable by a browser: no
   * `ipfs://` address survives the rewriting.
   */
  lemma NoIpfsSchemeSurvives(url: Option<string>, reserve: Option<Address>, image: Option<string>, cid: string)
    ensures IpfsFromAsset(url, reserve).Direct? ==> !StartsWith(IpfsFromAsset(url, reserve).src, IPFS_SCHEME)
    ensures !StartsWith(ImageFromArc3Metadata(image), IPFS_SCHEME)
    ensures !StartsWith(ImageFromArc19Metadata(image, cid), IPFS_SCHEME)
  {
    DirectSourceNotIpfs(url, reserve);
  }

  lemma DirectSourceNotIpfs(url: Option<string>, reserve: Option<Address>)
    ensures IpfsFromAsset(url, reserve).Direct? ==> !StartsWith(IpfsFromAsset(url, reserve).src, IPFS_SCHEME)
  {
    if Truthy(url) {
      var u := url.value;
      GatewayIsHttps(SliceFrom(u, 7));
      GatewayIsHttps("undefined");
      if Piece(u, "/ipfs/", 1).Some? {
        GatewayIsHttps(Piece(u, "/ipfs/", 1).value);
      }
    }
  }

  /**
   * An `ipfs://X` address goes to the gateway as `X`, unless it ends in
   * `#arc3` or is an ARC-19 template of an asset with a reserve.
   */
  lemma IpfsSchemeRewritten(x: string, reserve: Option<Address>)
    requires !EndsWith(IPFS_SCHEME + x, "#arc3")
    requires !(Truthy(reserve) && Contains(IPFS_SCHEME + x, "template-ipfs"))
    ensures IpfsFromAsset(Some(IPFS_SCHEME + x), reserve) == Direct(GatewayImageUrl(x))
  {
    var u := IPFS_SCHEME + x;
    assert !StartsWith(u, "https://") by { assert u[0] == 'i'; }
    assert u[..|IPFS_SCHEME|] == IPFS_SCHEME;
    assert SliceFrom(u, 7) == x;
  }

  /**
   * The `#arc3` suffix is stripped before the metadata address is resolved,
   * unless the address is an ARC-19 template of an asset with a reserve.
   */
  lemma Arc3SuffixStripped(base: string, reserve: Option<Address>)
    requires !(Truthy(reserve) && Contains(base + "#arc3", "template-ipfs"))
    ensures var m := if StartsWith(base, IPFS_SCHEME) then IPFS_ENDPOINT + "/" + base[7..] else base;
      IpfsFromAsset(Some(base + "#arc3"), reserve) == Arc3Metadata(m)
  {
    var u := base + "#arc3";
    assert u[|u| - 5..] == "#arc3";
    assert Slice(u, 0, -5) == base;
    if StartsWith(base, IPFS_SCHEME) {
      assert SliceFrom(base, 7) == base[7..];
    }
  }

  /**
   * An `https://` address that mentions ipfs goes to the gateway with the text
   * between its first and second "/ipfs/", or with "undefined" when it has no
   * "/ipfs/" at all. ARC-3 addresses and the ARC-19 templates of assets with
   * a reserve are resolved before this rule.
   */
  lemma HttpsIpfsRewritten(u: string, reserve: Option<Address>)
    requires StartsWith(u, "https://") && Contains(u, "ipfs") && !EndsWith(u, "#arc3")
    requires !(Truthy(reserve) && Contains(u, "template-ipfs"))
    ensures Contains(u, "/ipfs/") ==>
      IpfsFromAsset(Some(u), reserve) == Direct(GatewayImageUrl(Split(u, "/ipfs/")[1]))
    ensures !Contains(u, "/ipfs/") ==>
      IpfsFromAsset(Some(u), reserve) == Direct(GatewayImageUrl("undefined"))
  {
    SplitHead(u, "/ipfs/");
  }

  /**
   * Any other address is returned unchanged: not an ARC-19 template of an
   * asset with a reserve, not ARC-3, not an `https://` address mentioning
   * ipfs and not an `ipfs://` address.
   */
  lemma OtherUrlUnchanged(u: string, reserve: Option<Address>)
    requires u != "" && !(Truthy(reserve) && Contains(u, "template-ipfs")) && !EndsWith(u, "#arc3")
    requires !StartsWith(u, IPFS_SCHEME) && !(StartsWith(u, "https://") && Contains(u, "ipfs"))
    ensures IpfsFromAsset(Some(u), reserve) == Direct(u)
  {
  }

  // ---------------------------------------------------------------------------
  // getARC19AssetData, parse part

  /** What an ARC-19 template URL fixes about the CID: its version and its multicodec. */
  datatype CidTemplate = CidTemplate(version1: bool, codecCode: nat)

  const RAW_CODEC: nat := 0x55
  const DAG_PB_CODEC: nat := 0x70

  /** The multicodec code of the codec named in the template; any other name is an error. */
  function CodecCode(codec: Option<string>): (r: Option<nat>)
    ensures r == Some(RAW_CODEC) <==> codec == Some("raw")
    ensures r == Some(DAG_PB_CODEC) <==> codec == Some("dag-pb")
    ensures r.None? <==> codec != Some("raw") && codec != Some("dag-pb")
  {
    if codec == Some("raw") then Some(RAW_CODEC)
    else if codec == Some("dag-pb") then Some(DAG_PB_CODEC)
    else None
  }

  /** The scheme, the field tag and the prefix they make of an ARC-19 reserve template. */
  const ARC19_SCHEME: string := "template-ipfs"
  const CID_TAG: string := "{ipfscid"
  const ARC19_PREFIX: string := ARC19_SCHEME + "://" + CID_TAG + ":"

  /** The text before the first "://" is `template-ipfs` and the next piece starts with `{ipfscid:`. */
  predicate Arc19Shaped(url: string) {
    var chunk1 := Piece(url, "://", 1);
    Split(url, "://")[0] == ARC19_SCHEME && chunk1.Some? && StartsWith(chunk1.value, CID_TAG + ":")
  }

  /** The `k`-th ":"-separated field of the text after the first "://", when there is one. */
  function CidField(url: string, k: nat): Option<string> {
    match Piece(url, "://", 1)
    case None => None
    case Some(body) => Piece(body, ":", k)
  }

  /**
   * The parse of `getARC19AssetData(url, reserve)`: scheme `template-ipfs`,
   * then `{ipfscid:<version>:<codec>:...`. Every failure, the unknown codec
   * included, is reported as "invalid url" followed by the URL.
   */
  function ParseArc19Url(url: string): (r: Result<CidTemplate, string>)
    ensures r.Err? ==> r.error == "invalid url" + url
    ensures r.Ok? <==> Arc19Shaped(url) && CodecCode(CidField(url, 2)).Some?
    ensures r.Ok? ==> Some(r.value.codecCode) == CodecCode(CidField(url, 2))
    ensures r.Ok? ==> (r.value.version1 <==> CidField(url, 1).Some? && ParseInt(CidField(url, 1).value) == Some(1))
  {
    if Arc19Shaped(url) then
      var body := Piece(url, "://", 1).value;
      var components := Split(body, ":");
      assert |components| >= 2 by { SplitHead(body, ":"); PrefixHasColon(body); }
      match CodecCode(Piece(body, ":", 2))
      case None => Err("invalid url" + url)
      case Some(code) => Ok(CidTemplate(ParseInt(components[1]) == Some(1), code))
    else Err("invalid url" + url)
  }

  lemma PrefixHasColon(s: string)
    requires StartsWith(s, CID_TAG + ":")
    ensures IndexOf(s, ":").Some?
  {
    assert CID_TAG + ":" == ['{', 'i', 'p', 'f', 's', 'c', 'i', 'd', ':'];
    assert OccursAt(s, ":", 8) by { assert s[8..9] == s[..9][8..9]; }
  }

  /** Splitting at a separator whose first character does not occur before it. */
  lemma SplitAtFirst(a: string, sep: string, b: string)
    requires |sep| > 0 && forall k :: 0 <= k < |a| ==> a[k] != sep[0]
    ensures Split(a + sep + b, sep) == [a] + Split(b, sep)
  {
    var s := a + sep + b;
    assert OccursAt(s, sep, |a|) by { assert s[|a|..|a| + |sep|] == sep; }
    forall j | 0 <= j < |a| ensures !OccursAt(s, sep, j) {
      assert s[j] == a[j];
    }
    assert IndexOf(s, sep) == Some(|a|);
    assert s[..|a|] == a;
    assert s[|a| + |sep|..] == b;
  }

  /** A URL the parse accepts starts with `template-ipfs://{ipfscid:`. */
  lemma Arc19AcceptedHasPrefix(url: string)
    requires ParseArc19Url(url).Ok?
    ensures StartsWith(url, ARC19_PREFIX)
  {
    Arc19ShapedHasPrefix(url);
  }

  lemma Arc19ShapedHasPrefix(url: string)
    requires Arc19Shaped(url)
    ensures StartsWith(url, ARC19_PREFIX)
  {
    var parts := Split(url, "://");
    SplitFirstTwo(url, "://");
    var rest := url[|parts[0]| + 3..];
    var lead := ARC19_SCHEME + "://";
    assert url == lead + rest by { assert url[..|parts[0]| + 3] == lead; }
    StartsWithConcat(lead, parts[1], rest, CID_TAG + ":");
    ConcatAssoc(lead, CID_TAG, ":");
  }

  /**
   * The template `template-ipfs://{ipfscid:<version>:<codec>:<rest>` with a
   * known codec is accepted, with the codec's code and the version read by
   * `parseInt`.
   */
  lemma Arc19TemplateAccepted(version: string, codec: string, tail: string)
    requires codec == "raw" || codec == "dag-pb"
    requires forall k :: 0 <= k < |version| ==> version[k] != ':'
    requires !Contains(CID_TAG + ":" + (version + ":" + (codec + ":" + tail)), "://")
    ensures ParseArc19Url(ARC19_PREFIX + (version + ":" + (codec + ":" + tail)))
      == Ok(CidTemplate(ParseInt(version) == Some(1), if codec == "raw" then RAW_CODEC else DAG_PB_CODEC))
  {
    var afterBrace := version + ":" + (codec + ":" + tail);
    var body := CID_TAG + ":" + afterBrace;
    var url := ARC19_PREFIX + afterBrace;
    PrefixThenBody(afterBrace);
    TemplateBodyFields(body, version, codec, tail);
    var fields := Split(body, ":");
    assert |fields| >= 3 && fields[1] == version && fields[2] == codec;
    TemplateUrlChunks(url, body);
    ShapedUrlParsed(url, body, version, codec);
  }

  lemma PrefixThenBody(afterBrace: string)
    ensures ARC19_PREFIX + afterBrace == ARC19_SCHEME + "://" + (CID_TAG + ":" + afterBrace)
  {
    var lead := ARC19_SCHEME + "://";
    ConcatAssoc(lead + CID_TAG, ":", afterBrace);
    ConcatAssoc(lead, CID_TAG, ":" + afterBrace);
    ConcatAssoc(CID_TAG, ":", afterBrace);
  }

  lemma ShapedUrlParsed(url: string, body: string, version: string, codec: string)
    requires Arc19Shaped(url) && Split(url, "://")[1] == body
    requires codec == "raw" || codec == "dag-pb"
    requires |Split(body, ":")| >= 3 && Split(body, ":")[1] == version && Split(body, ":")[2] == codec
    ensures ParseArc19Url(url)
      == Ok(CidTemplate(ParseInt(version) == Some(1), if codec == "raw" then RAW_CODEC else DAG_PB_CODEC))
  {
    assert Piece(url, "://", 1) == Some(body);
    assert Piece(body, ":", 2) == Some(codec);
    var code := if codec == "raw" then RAW_CODEC else DAG_PB_CODEC;
    assert CodecCode(Some(codec)) == Some(code);
  }

  lemma TemplateUrlChunks(url: string, body: string)
    requires url == ARC19_SCHEME + "://" + body && StartsWith(body, CID_TAG + ":") && !Contains(body, "://")
    ensures Split(url, "://") == [ARC19_SCHEME, body] && Arc19Shaped(url)
  {
    assert ARC19_SCHEME == ['t', 'e', 'm', 'p', 'l', 'a', 't', 'e', '-', 'i', 'p', 'f', 's'];
    SplitAtFirst(ARC19_SCHEME, "://", body);
    SplitHead(body, "://");
  }

  lemma TemplateBodyFields(body: string, version: string, codec: string, tail: string)
    requires body == CID_TAG + ":" + (version + ":" + (codec + ":" + tail))
    requires codec == "raw" || codec == "dag-pb"
    requires forall k :: 0 <= k < |version| ==> version[k] != ':'
    ensures StartsWith(body, CID_TAG + ":")
    ensures Split(body, ":") == [CID_TAG, version, codec] + Split(tail, ":")
  {
    var t := Split(tail, ":");
    var afterCodec := codec + ":" + tail;
    var afterBrace := version + ":" + afterCodec;
    assert body[..|CID_TAG| + 1] == CID_TAG + ":";
    assert Split(body, ":") == [CID_TAG] + Split(afterBrace, ":") by {
      assert CID_TAG == ['{', 'i', 'p', 'f', 's', 'c', 'i', 'd'];
      SplitAtFirst(CID_TAG, ":", afterBrace);
    }
    assert Split(afterBrace, ":") == [version] + Split(afterCodec, ":") by {
      SplitAtFirst(version, ":", afterCodec);
    }
    assert Split(afterCodec, ":") == [codec] + t by {
      CodecNamesHaveNoColon(codec);
      SplitAtFirst(codec, ":", tail);
    }
    ConsThree(CID_TAG, version, codec, t);
  }

  lemma ConsThree<T>(a: T, b: T, c: T, t: seq<T>)
    ensures [a] + ([b] + ([c] + t)) == [a, b, c] + t
  {
    var l := [a] + ([b] + ([c] + t));
    var r := [a, b, c] + t;
    assert |l| == |r|;
    forall i | 0 <= i < |l| ensures l[i] == r[i] {
      if i >= 3 {
        assert l[i] == t[i - 3];
      }
    }
  }

  lemma CodecNamesHaveNoColon(codec: string)
    requires codec == "raw" || codec == "dag-pb"
    ensures forall k :: 0 <= k < |codec| ==> codec[k] != ':'
  {
    forall k | 0 <= k < |codec| ensures codec[k] != ':' {
      if codec == "raw" {
        assert codec == ['r', 'a', 'w'];
      } else {
        assert codec == ['d', 'a', 'g', '-', 'p', 'b'];
      }
    }
  }

  /** A URL that does not start with `template-ipfs://{ipfscid:` is refused. */
  lemma Arc19RejectsOtherUrls(url: string)
    requires !StartsWith(url, ARC19_PREFIX)
    ensures ParseArc19Url(url) == Err("invalid url" + url)
  {
    if ParseArc19Url(url).Ok? {
      Arc19AcceptedHasPrefix(url);
    }
  }
}
