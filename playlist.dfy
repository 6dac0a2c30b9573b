/** The playlist resolver of the worker (offscreen.js:252-299): choosing the
    highest-bandwidth variant of a master playlist (RFC 8216, section 4.3.4.2) and reading
    the segment URIs and `#EXTINF` durations (section 4.3.2.1) of a media playlist,
    refusing playlists with `#EXT-X-KEY` (section 4.3.2.4). Fetching is left to the
    caller: the playlist text is an input. */
module Playlist {
  import opened Wrappers
  import opened Text

  // ---------------------------------------------------------------- URLs and durations

  /** The URL constructor, kept opaque: `parse(x)` stands for constructing a URL from `x`
      alone and `resolve(x, base)` for constructing it from `x` relative to `base`; `None`
      when the constructor throws, otherwise the serialized URL. */
  datatype UrlApi = UrlApi(parse: string -> Option<string>, resolve: (string, string) -> Option<string>)

  /** A duration in seconds, as an exact non-negative number. */
  type Seconds = r: real | 0.0 <= r

  /** A parsed `#EXTINF` duration. Reading a lone "." (or ".." and the like) as a number
      yields NaN, kept here as `NotANumber`. */
  datatype Duration = Secs(value: Seconds) | NotANumber

  const DEFAULT_DURATION: Seconds := 10.0
  const EXTINF_TAG := "#EXTINF:"
  const KEY_TAG := "#EXT-X-KEY"
  const STREAM_INF_TAG := "#EXT-X-STREAM-INF"
  const BANDWIDTH_ATTR := "BANDWIDTH="

  const ENCRYPTED_ERROR := "암호화(HLS KEY) 스트림은 현재 버전에서 미지원입니다."
  const INVALID_URL_ERROR := "Invalid URL"

  predicate IsDecimalChar(c: char) {
    IsDigit(c) || c == '.'
  }

  /** The longest prefix of `s` made of digits and dots (the `[\d.]+` of a regular expression). */
  function LeadingDecimal(s: string): string {
    if |s| > 0 && IsDecimalChar(s[0]) then [s[0]] + LeadingDecimal(s[1..]) else ""
  }

  /** The prefix is made of digits and dots and stops at the first other character. */
  lemma {:induction false} LeadingDecimalSpec(s: string)
    ensures var r := LeadingDecimal(s);
      && StartsWith(s, r)
      && (forall k :: 0 <= k < |r| ==> IsDecimalChar(r[k]))
      && (|r| < |s| ==> !IsDecimalChar(s[|r|]))
  {
    if |s| > 0 && IsDecimalChar(s[0]) {
      LeadingDecimalSpec(s[1..]);
    }
  }

  /** Reading a string of digits and dots as a number: the longest prefix of the form
      digits, optionally a dot and more digits (or a dot and at least one digit) gives the
      value; with no digit in that prefix the result is NaN. */
  function ParseDecimal(m: string): Duration {
    LeadingDigitsSpec(m);
    var whole := LeadingDigits(m);
    var rest := m[|whole|..];
    var fraction := if |rest| > 0 && rest[0] == '.' then LeadingDigits(rest[1..]) else "";
    if |whole| == 0 && |fraction| == 0 then NotANumber else Secs(DecimalValue(whole, fraction))
  }

  /** The number written with the digits `whole`, a dot and the digits `fraction`: moving
      the first digit of the fraction in front of the dot multiplies the number by ten. */
  function DecimalValue(whole: string, fraction: string): Seconds
    decreases |fraction|
  {
    if |fraction| == 0 then DigitsValue(whole) as real
    else DecimalValue(whole + [fraction[0]], fraction[1..]) / 10.0
  }

  /** The value of a decimal is its digits read as a whole number, scaled down by ten per
      digit after the dot. */
  lemma {:induction false} DecimalValueScaled(whole: string, fraction: string)
    ensures DecimalValue(whole, fraction) == DigitsValue(whole + fraction) as real / Pow10(|fraction|) as real
    decreases |fraction|
  {
    if |fraction| > 0 {
      var w, f := whole + [fraction[0]], fraction[1..];
      DecimalValueScaled(w, f);
      assert w + f == whole + fraction;
      var v, p := DigitsValue(whole + fraction) as real, Pow10(|f|) as real;
      assert Pow10(|fraction|) as real == 10.0 * p;
      DivideTwice(v, p);
    } else {
      assert whole + fraction == whole;
    }
  }

  lemma {:induction false} DivideTwice(v: real, p: real)
    requires p > 0.0
    ensures (v / p) / 10.0 == v / (10.0 * p)
  {
  }

  predicate IsExtinfLine(line: string) {
    StartsWith(line, EXTINF_TAG)
  }

  /** An `#EXTINF:` line is a tag, never a URI line. */
  lemma {:induction false} ExtinfIsNotUri(line: string)
    requires IsExtinfLine(line)
    ensures !IsUriLine(line)
  {
    assert line[..1] == EXTINF_TAG[..1];
  }

  /** A trimmed line that names a segment or variant: non-empty and not a comment or tag. */
  predicate IsUriLine(line: string) {
    line != "" && !StartsWith(line, "#")
  }

  /** The duration an `#EXTINF:` line sets: the number right after the colon, or the
      default 10 seconds when no digit or dot follows the colon. */
  function ExtinfDuration(line: string): Duration
    requires IsExtinfLine(line)
  {
    var m := LeadingDecimal(line[|EXTINF_TAG|..]);
    if m == "" then Secs(DEFAULT_DURATION) else ParseDecimal(m)
  }

  /** With no digit or dot right after the colon, the duration is the default 10 seconds;
      otherwise it is the reading of the digits and dots that follow. */
  lemma {:induction false} ExtinfDurationSpec(line: string)
    requires IsExtinfLine(line)
    ensures var rest := line[|EXTINF_TAG|..];
      && (rest == [] || !IsDecimalChar(rest[0]) ==> ExtinfDuration(line) == Secs(DEFAULT_DURATION))
      && (rest != [] && IsDecimalChar(rest[0]) ==> ExtinfDuration(line) == ParseDecimal(LeadingDecimal(rest)))
  {
  }

  // ---------------------------------------------------------------- media playlists

  datatype Media = Media(segments: seq<string>, extinf: seq<Duration>)

  /** The duration in force after the first `n` lines: that of the last `#EXTINF:` line
      among them, or the default when there is none. */
  function DurationAfter(lines: seq<string>, n: nat): Duration
    requires n <= |lines|
  {
    if n == 0 then Secs(DEFAULT_DURATION)
    else
      var line := Trim(lines[n - 1]);
      if IsExtinfLine(line) then ExtinfDuration(line) else DurationAfter(lines, n - 1)
  }

  /** What one raw line contributes to the URI lines: itself trimmed, if it is one. */
  function UriOf(raw: string): seq<string> {
    var line := Trim(raw);
    if IsUriLine(line) then [line] else []
  }

  /** The trimmed URI lines among the first `n` lines, in text order. */
  function UriLines(lines: seq<string>, n: nat): seq<string>
    requires n <= |lines|
  {
    if n == 0 then [] else UriLines(lines, n - 1) + UriOf(lines[n - 1])
  }

  /** For each URI line among the first `n` lines, the duration in force where it stands. */
  function UriDurations(lines: seq<string>, n: nat): (r: seq<Duration>)
    requires n <= |lines|
    ensures |r| == |UriLines(lines, n)|
  {
    if n == 0 then []
    else UriDurations(lines, n - 1) + (if IsUriLine(Trim(lines[n - 1])) then [DurationAfter(lines, n - 1)] else [])
  }

  predicate AllResolve(refs: seq<string>, base: string, urls: UrlApi) {
    forall k :: 0 <= k < |refs| ==> urls.resolve(refs[k], base).Some?
  }

  function ResolveAll(refs: seq<string>, base: string, urls: UrlApi): (r: seq<string>)
    requires AllResolve(refs, base, urls)
    ensures |r| == |refs|
  {
    seq(|refs|, k requires 0 <= k < |refs| => urls.resolve(refs[k], base).value)
  }

  lemma {:induction false} ResolveAllSnoc(refs: seq<string>, ref: string, base: string, urls: UrlApi)
    requires AllResolve(refs, base, urls) && urls.resolve(ref, base).Some?
    ensures AllResolve(refs + [ref], base, urls)
    ensures ResolveAll(refs + [ref], base, urls) == ResolveAll(refs, base, urls) + [urls.resolve(ref, base).value]
  {
    assert forall k :: 0 <= k < |refs| ==> (refs + [ref])[k] == refs[k];
  }

  /** Reads a media playlist fetched from `mediaUrl`. Fails before looking at any segment
      when the text mentions `#EXT-X-KEY` in any letter case, fails when a URL cannot be
      constructed, and otherwise yields one segment URL and one duration per URI line. */
  method ParseMedia(mediaUrl: string, text: string, urls: UrlApi) returns (r: Result<Media>)
    ensures ContainsIgnoreCase(text, KEY_TAG) ==> r == Err(ENCRYPTED_ERROR)
    ensures !ContainsIgnoreCase(text, KEY_TAG) && urls.parse(mediaUrl).None? ==> r.Err?
    ensures !ContainsIgnoreCase(text, KEY_TAG) && urls.parse(mediaUrl).Some? ==>
      var lines, base := Split(text, '\n'), urls.parse(mediaUrl).value;
      && (r.Ok? <==> AllResolve(UriLines(lines, |lines|), base, urls))
      && (r.Ok? ==> r.value.segments == ResolveAll(UriLines(lines, |lines|), base, urls)
                    && r.value.extinf == UriDurations(lines, |lines|))
    ensures r.Ok? ==> |r.value.segments| == |r.value.extinf|
    ensures r == MediaOf(mediaUrl, text, urls)
  {
    if ContainsIgnoreCase(text, KEY_TAG) {
      return Err(ENCRYPTED_ERROR);
    }
    var base := urls.parse(mediaUrl);
    if base.None? {
      return Err(INVALID_URL_ERROR);
    }
    r := ScanMedia(Split(text, '\n'), base.value, urls);
  }

  /** The loop of `parseMedia` over the lines of a playlist without a key tag: each URI line
      is resolved against `base` and recorded with the duration in force, and the first one
      that does not resolve fails the parse. */
  method ScanMedia(lines: seq<string>, base: string, urls: UrlApi) returns (r: Result<Media>)
    ensures r.Ok? <==> AllResolve(UriLines(lines, |lines|), base, urls)
    ensures r.Ok? ==> r.value.segments == ResolveAll(UriLines(lines, |lines|), base, urls)
                      && r.value.extinf == UriDurations(lines, |lines|)
    ensures r.Err? ==> r.error == INVALID_URL_ERROR
  {
    var segments: seq<string> := [];
    var extinf: seq<Duration> := [];
    var lastDur := Secs(DEFAULT_DURATION);
    var i := 0;
    while i < |lines|
      invariant i <= |lines|
      invariant lastDur == DurationAfter(lines, i)
      invariant extinf == UriDurations(lines, i)
      invariant AllResolve(UriLines(lines, i), base, urls)
      invariant segments == ResolveAll(UriLines(lines, i), base, urls)
    {
      var resolved;
      resolved, segments, extinf, lastDur := ScanLine(lines, i, base, urls, segments, extinf, lastDur);
      if !resolved {
        return Err(INVALID_URL_ERROR);
      }
      i := i + 1;
    }
    assert i == |lines|;
    return Ok(Media(segments, extinf));
  }

  /** One turn of the media scan: an `#EXTINF:` line sets the duration in force, a URI
      line adds its resolved URL with that duration, and a URI that does not resolve
      fails the whole scan. */
  method ScanLine(lines: seq<string>, i: nat, base: string, urls: UrlApi,
                  segments: seq<string>, extinf: seq<Duration>, lastDur: Duration)
    returns (resolved: bool, segments': seq<string>, extinf': seq<Duration>, lastDur': Duration)
    requires i < |lines|
    requires lastDur == DurationAfter(lines, i) && extinf == UriDurations(lines, i)
    requires AllResolve(UriLines(lines, i), base, urls)
    requires segments == ResolveAll(UriLines(lines, i), base, urls)
    ensures !resolved ==> !AllResolve(UriLines(lines, |lines|), base, urls)
    ensures resolved ==>
      && lastDur' == DurationAfter(lines, i + 1) && extinf' == UriDurations(lines, i + 1)
      && AllResolve(UriLines(lines, i + 1), base, urls)
      && segments' == ResolveAll(UriLines(lines, i + 1), base, urls)
  {
    resolved, segments', extinf', lastDur' := true, segments, extinf, lastDur;
    var line := Trim(lines[i]);
    if IsExtinfLine(line) {
      ExtinfIsNotUri(line);
      UriStepOther(lines, i);
      DurationStepExtinf(lines, i);
      lastDur' := ExtinfDuration(line);
    } else if IsUriLine(line) {
      DurationStepOther(lines, i);
      var u := urls.resolve(line, base);
      if u.None? {
        UriLineEntry(lines, i);
        return false, segments, extinf, lastDur;
      }
      UriStepUri(lines, i);
      ResolveAllSnoc(UriLines(lines, i), line, base, urls);
      segments' := segments + [u.value];
      extinf' := extinf + [lastDur];
    } else {
      UriStepOther(lines, i);
      DurationStepOther(lines, i);
    }
  }

  /** How the three scans advance over one more line. */
  lemma {:induction false} ScanNext(lines: seq<string>, i: nat)
    requires i < |lines|
    ensures var line := Trim(lines[i]);
      && (IsUriLine(line) ==>
            UriLines(lines, i + 1) == UriLines(lines, i) + [line] &&
            UriDurations(lines, i + 1) == UriDurations(lines, i) + [DurationAfter(lines, i)])
      && (!IsUriLine(line) ==>
            UriLines(lines, i + 1) == UriLines(lines, i) &&
            UriDurations(lines, i + 1) == UriDurations(lines, i))
      && DurationAfter(lines, i + 1) == (if IsExtinfLine(line) then ExtinfDuration(line) else DurationAfter(lines, i))
  {
  }

  /** A line that is not a URI line leaves the URI lines and their durations as they were. */
  lemma {:induction false} UriStepOther(lines: seq<string>, i: nat)
    requires i < |lines| && !IsUriLine(Trim(lines[i]))
    ensures UriLines(lines, i + 1) == UriLines(lines, i)
    ensures UriDurations(lines, i + 1) == UriDurations(lines, i)
  {
  }

  /** A URI line adds itself, with the duration in force before it. */
  lemma {:induction false} UriStepUri(lines: seq<string>, i: nat)
    requires i < |lines| && IsUriLine(Trim(lines[i]))
    ensures UriLines(lines, i + 1) == UriLines(lines, i) + [Trim(lines[i])]
    ensures UriDurations(lines, i + 1) == UriDurations(lines, i) + [DurationAfter(lines, i)]
  {
  }

  /** An `#EXTINF:` line sets the duration in force. */
  lemma {:induction false} DurationStepExtinf(lines: seq<string>, i: nat)
    requires i < |lines| && IsExtinfLine(Trim(lines[i]))
    ensures DurationAfter(lines, i + 1) == ExtinfDuration(Trim(lines[i]))
  {
  }

  /** Any other line leaves the duration in force as it was. */
  lemma {:induction false} DurationStepOther(lines: seq<string>, i: nat)
    requires i < |lines| && !IsExtinfLine(Trim(lines[i]))
    ensures DurationAfter(lines, i + 1) == DurationAfter(lines, i)
  {
  }

  /** Lines that are all tags hold no URI line. */
  lemma {:induction false} TagsOnly(lines: seq<string>, n: nat)
    requires n <= |lines|
    requires forall k :: 0 <= k < n ==> !IsUriLine(Trim(lines[k]))
    ensures UriLines(lines, n) == [] && UriDurations(lines, n) == []
  {
    if n > 0 {
      TagsOnly(lines, n - 1);
      UriStepOther(lines, n - 1);
    }
  }

  lemma {:induction false} PrefixTransitive<T>(a: seq<T>, b: seq<T>, c: seq<T>)
    requires a <= b && b <= c
    ensures a <= c
  {
    assert c[..|a|] == b[..|a|];
  }

  /** The scans only ever append: the URI lines and durations of fewer lines are a prefix
      of those of more. */
  lemma {:induction false} UriScansPrefix(lines: seq<string>, m: nat, n: nat)
    requires m <= n <= |lines|
    ensures UriLines(lines, m) <= UriLines(lines, n)
    ensures UriDurations(lines, m) <= UriDurations(lines, n)
    decreases n - m
  {
    if m < n {
      var k := n - 1;
      UriScansPrefix(lines, m, k);
      UriScansStep(lines, k, n);
      PrefixTransitive(UriLines(lines, m), UriLines(lines, k), UriLines(lines, n));
      PrefixTransitive(UriDurations(lines, m), UriDurations(lines, k), UriDurations(lines, n));
    }
  }

  lemma {:induction false} UriScansStep(lines: seq<string>, k: nat, n: nat)
    requires n == k + 1 <= |lines|
    ensures UriLines(lines, k) <= UriLines(lines, n)
    ensures UriDurations(lines, k) <= UriDurations(lines, n)
  {
  }

  /** Each URI line yields the entry at the position given by the URI lines before it,
      paired with the duration in force there. */
  lemma {:induction false} UriLineEntry(lines: seq<string>, j: nat)
    requires j < |lines| && IsUriLine(Trim(lines[j]))
    ensures var p := |UriLines(lines, j)|;
      && p < |UriLines(lines, |lines|)|
      && UriLines(lines, |lines|)[p] == Trim(lines[j])
      && UriDurations(lines, |lines|)[p] == DurationAfter(lines, j)
  {
    ScanNext(lines, j);
    UriScansPrefix(lines, j + 1, |lines|);
  }

  /** Every entry comes from a URI line of the text. */
  lemma {:induction false} UriEntryLine(lines: seq<string>, n: nat, k: nat)
    requires n <= |lines| && k < |UriLines(lines, n)|
    ensures exists j :: 0 <= j < n && IsUriLine(Trim(lines[j])) && |UriLines(lines, j)| == k
  {
    ScanNext(lines, n - 1);
    if k < |UriLines(lines, n - 1)| {
      UriEntryLine(lines, n - 1, k);
    } else {
      assert IsUriLine(Trim(lines[n - 1]));
    }
  }

  /** Entries keep the order of their lines in the text. */
  lemma {:induction false} UriEntriesInTextOrder(lines: seq<string>, j1: nat, j2: nat)
    requires j1 < j2 <= |lines| && IsUriLine(Trim(lines[j1]))
    ensures |UriLines(lines, j1)| < |UriLines(lines, j2)|
  {
    ScanNext(lines, j1);
    UriScansPrefix(lines, j1 + 1, j2);
  }

  /** Before any `#EXTINF:` line the duration is the default 10 seconds. */
  lemma {:induction false} NoExtinfMeansDefault(lines: seq<string>, n: nat)
    requires n <= |lines|
    requires forall j :: 0 <= j < n ==> !IsExtinfLine(Trim(lines[j]))
    ensures DurationAfter(lines, n) == Secs(DEFAULT_DURATION)
  {
    if n > 0 {
      NoExtinfMeansDefault(lines, n - 1);
    }
  }

  /** After an `#EXTINF:` line, and until the next one, its duration is in force. */
  lemma {:induction false} LastExtinfWins(lines: seq<string>, j: nat, n: nat)
    requires j < n <= |lines| && IsExtinfLine(Trim(lines[j]))
    requires forall q :: j < q < n ==> !IsExtinfLine(Trim(lines[q]))
    ensures DurationAfter(lines, n) == ExtinfDuration(Trim(lines[j]))
  {
    if j < n - 1 {
      LastExtinfWins(lines, j, n - 1);
    }
  }

  // ---------------------------------------------------------------- master playlists

  datatype Variant = Variant(bandwidth: nat, url: string)

  /** A variant reference read from the text: its bandwidth and its trimmed URI line. */
  datatype VariantRef = VariantRef(bandwidth: nat, uri: string)

  /** `name` (in any letter case) at position `p`, followed by at least one digit: a match
      of the pattern `name\d+` compiled with the `i` flag. */
  predicate NumberAttrAt(line: string, name: string, p: nat) {
    OccursIgnoreCaseAt(line, name, p) && p + |name| < |line| && IsDigit(line[p + |name|])
  }

  /** The leftmost match of `name` and digits at or after `from`. */
  function FirstNumberAttrAt(line: string, name: string, from: nat): Option<nat>
    decreases |line| - from
  {
    if |line| < from + |name| then None
    else if NumberAttrAt(line, name, from) then Some(from)
    else FirstNumberAttrAt(line, name, from + 1)
  }

  /** The search finds the leftmost match, and finds none only when there is none. */
  lemma {:induction false} FirstNumberAttrAtIsLeftmost(line: string, name: string, from: nat)
    ensures var r := FirstNumberAttrAt(line, name, from);
      && (r.Some? ==> from <= r.value && NumberAttrAt(line, name, r.value))
      && (r.Some? ==> forall q :: from <= q < r.value ==> !NumberAttrAt(line, name, q))
      && (r.None? ==> forall q :: from <= q ==> !NumberAttrAt(line, name, q))
    decreases |line| - from
  {
    if |line| >= from + |name| && !NumberAttrAt(line, name, from) {
      FirstNumberAttrAtIsLeftmost(line, name, from + 1);
    }
  }

  /** The bandwidth of a `#EXT-X-STREAM-INF` line: the digits of the leftmost
      `BANDWIDTH=` match in any letter case, or 0 when there is none. The leftmost match
      may sit inside another attribute name that ends in `BANDWIDTH`. */
  function Bandwidth(line: string): nat {
    match FirstNumberAttrAt(line, BANDWIDTH_ATTR, 0)
    case None => 0
    case Some(p) =>
      FirstNumberAttrAtIsLeftmost(line, BANDWIDTH_ATTR, 0);
      DigitsValue(LeadingDigits(line[p + |BANDWIDTH_ATTR|..]))
  }

  /** Line `i` opens a variant: it starts with `#EXT-X-STREAM-INF` (letter case as written)
      and the next line, trimmed, is a URI line. */
  predicate OpensVariant(lines: seq<string>, i: nat) {
    i + 1 < |lines| && StartsWith(Trim(lines[i]), STREAM_INF_TAG) && IsUriLine(Trim(lines[i + 1]))
  }

  /** What line `i` contributes to the variant references. */
  function RefAt(lines: seq<string>, i: nat): seq<VariantRef>
    requires i < |lines|
  {
    if OpensVariant(lines, i) then [VariantRef(Bandwidth(Trim(lines[i])), Trim(lines[i + 1]))] else []
  }

  /** The variant references among the first `n` lines, in text order. */
  function VariantRefs(lines: seq<string>, n: nat): seq<VariantRef>
    requires n <= |lines|
  {
    if n == 0 then [] else VariantRefs(lines, n - 1) + RefAt(lines, n - 1)
  }

  predicate AllVariantsResolve(refs: seq<VariantRef>, base: string, urls: UrlApi) {
    forall k :: 0 <= k < |refs| ==> urls.resolve(refs[k].uri, base).Some?
  }

  function ResolveVariants(refs: seq<VariantRef>, base: string, urls: UrlApi): (r: seq<Variant>)
    requires AllVariantsResolve(refs, base, urls)
    ensures |r| == |refs|
  {
    seq(|refs|, k requires 0 <= k < |refs| => Variant(refs[k].bandwidth, urls.resolve(refs[k].uri, base).value))
  }

  /** Collects the variants of a master playlist's lines, resolving each URI against the
      master URL, in text order. */
  method CollectVariants(masterUrl: string, lines: seq<string>, urls: UrlApi) returns (r: Result<seq<Variant>>)
    ensures r.Ok? <==> AllVariantsResolve(VariantRefs(lines, |lines|), masterUrl, urls)
    ensures r.Ok? ==> r.value == ResolveVariants(VariantRefs(lines, |lines|), masterUrl, urls)
    ensures r.Err? ==> r.error == INVALID_URL_ERROR
  {
    var variants: seq<Variant> := [];
    var i := 0;
    while i < |lines|
      invariant i <= |lines|
      invariant AllVariantsResolve(VariantRefs(lines, i), masterUrl, urls)
      invariant variants == ResolveVariants(VariantRefs(lines, i), masterUrl, urls)
    {
      var found := VariantOfLine(masterUrl, lines, i, urls);
      if found.Err? {
        VariantRefsFail(lines, i, masterUrl, urls);
        return Err(INVALID_URL_ERROR);
      }
      CollectStep(lines, i, masterUrl, urls, variants, found.value);
      variants := variants + found.value;
      i := i + 1;
    }
    assert i == |lines|;
    return Ok(variants);
  }

  /** One turn of the collection keeps the variants equal to the resolution of the
      references read so far. */
  lemma {:induction false} CollectStep(lines: seq<string>, i: nat, base: string, urls: UrlApi,
                                       variants: seq<Variant>, found: seq<Variant>)
    requires i < |lines|
    requires AllVariantsResolve(VariantRefs(lines, i), base, urls)
    requires variants == ResolveVariants(VariantRefs(lines, i), base, urls)
    requires AllVariantsResolve(RefAt(lines, i), base, urls)
    requires found == ResolveVariants(RefAt(lines, i), base, urls)
    ensures AllVariantsResolve(VariantRefs(lines, i + 1), base, urls)
    ensures variants + found == ResolveVariants(VariantRefs(lines, i + 1), base, urls)
  {
    VariantRefsNext(lines, i);
    ResolveVariantsAppend(VariantRefs(lines, i), RefAt(lines, i), base, urls);
  }

  /** What line `i` of a master playlist adds to the variants: nothing unless it opens a
      variant, and otherwise that variant with its URI resolved against the master URL. */
  method VariantOfLine(masterUrl: string, lines: seq<string>, i: nat, urls: UrlApi) returns (r: Result<seq<Variant>>)
    requires i < |lines|
    ensures r.Ok? <==> AllVariantsResolve(RefAt(lines, i), masterUrl, urls)
    ensures r.Ok? ==> r.value == ResolveVariants(RefAt(lines, i), masterUrl, urls)
    ensures r.Err? ==> r.error == INVALID_URL_ERROR
  {
    var line := Trim(lines[i]);
    if StartsWith(line, STREAM_INF_TAG) {
      var bw := Bandwidth(line);
      var next := if i + 1 < |lines| then Trim(lines[i + 1]) else "";
      if IsUriLine(next) {
        var u := urls.resolve(next, masterUrl);
        if u.None? {
          return Err(INVALID_URL_ERROR);
        }
        return Ok([Variant(bw, u.value)]);
      }
    }
    return Ok([]);
  }

  /** A line whose variant does not resolve makes the whole collection fail. */
  lemma {:induction false} VariantRefsFail(lines: seq<string>, i: nat, base: string, urls: UrlApi)
    requires i < |lines| && !AllVariantsResolve(RefAt(lines, i), base, urls)
    ensures !AllVariantsResolve(VariantRefs(lines, |lines|), base, urls)
  {
    VariantRefEntry(lines, i);
    var p := |VariantRefs(lines, i)|;
    assert VariantRefs(lines, |lines|)[p] == RefAt(lines, i)[0];
  }

  lemma {:induction false} ResolveVariantsAppend(a: seq<VariantRef>, b: seq<VariantRef>, base: string, urls: UrlApi)
    requires AllVariantsResolve(a, base, urls)
    ensures AllVariantsResolve(a + b, base, urls) <==> AllVariantsResolve(b, base, urls)
    ensures AllVariantsResolve(b, base, urls) ==>
      ResolveVariants(a + b, base, urls) == ResolveVariants(a, base, urls) + ResolveVariants(b, base, urls)
  {
    if !AllVariantsResolve(b, base, urls) {
      var k :| 0 <= k < |b| && urls.resolve(b[k].uri, base).None?;
      assert (a + b)[|a| + k] == b[k];
    } else {
      assert forall k :: 0 <= k < |a + b| ==> (a + b)[k] == if k < |a| then a[k] else b[k - |a|];
    }
  }

  /** A line that opens a variant yields the reference at the position given by the
      references before it. */
  lemma {:induction false} VariantRefEntry(lines: seq<string>, i: nat)
    requires OpensVariant(lines, i)
    ensures var p := |VariantRefs(lines, i)|;
      && p < |VariantRefs(lines, |lines|)|
      && VariantRefs(lines, |lines|)[p] == VariantRef(Bandwidth(Trim(lines[i])), Trim(lines[i + 1]))
  {
    VariantRefsPrefix(lines, i + 1, |lines|);
  }

  /** The references only ever grow at the end. */
  lemma {:induction false} VariantRefsPrefix(lines: seq<string>, m: nat, n: nat)
    requires m <= n <= |lines|
    ensures VariantRefs(lines, m) <= VariantRefs(lines, n)
    decreases n - m
  {
    if m < n {
      var k := n - 1;
      VariantRefsPrefix(lines, m, k);
      VariantRefsStep(lines, k, n);
      PrefixTransitive(VariantRefs(lines, m), VariantRefs(lines, k), VariantRefs(lines, n));
    }
  }

  /** One more line adds what it contributes. */
  lemma {:induction false} VariantRefsNext(lines: seq<string>, i: nat)
    requires i < |lines|
    ensures VariantRefs(lines, i + 1) == VariantRefs(lines, i) + RefAt(lines, i)
  {
  }

  lemma {:induction false} VariantRefsStep(lines: seq<string>, k: nat, n: nat)
    requires n == k + 1 <= |lines|
    ensures VariantRefs(lines, k) <= VariantRefs(lines, n)
  {
  }

  /** The index of the first variant of highest bandwidth. */
  function FirstMaxIndex(vs: seq<Variant>): (m: nat)
    requires |vs| > 0
    ensures m < |vs|
    ensures forall j :: 0 <= j < |vs| ==> vs[j].bandwidth <= vs[m].bandwidth
    ensures forall j :: 0 <= j < m ==> vs[j].bandwidth < vs[m].bandwidth
  {
    if |vs| == 1 then 0
    else
      var m := FirstMaxIndex(vs[1..]);
      if vs[1..][m].bandwidth <= vs[0].bandwidth then 0 else m + 1
  }

  /** Places `v` before the first element whose bandwidth is not above its own. */
  function InsertByBandwidth(v: Variant, sorted: seq<Variant>): (r: seq<Variant>)
    ensures multiset(r) == multiset(sorted) + multiset{v}
    ensures |r| == |sorted| + 1
  {
    if |sorted| == 0 || sorted[0].bandwidth <= v.bandwidth then [v] + sorted
    else
      assert sorted == [sorted[0]] + sorted[1..];
      [sorted[0]] + InsertByBandwidth(v, sorted[1..])
  }

  /** A stable sort by descending bandwidth: among equal bandwidths the earlier variant
      stays first. */
  function SortByBandwidth(vs: seq<Variant>): (r: seq<Variant>)
    ensures multiset(r) == multiset(vs)
    ensures |r| == |vs|
  {
    if |vs| == 0 then []
    else
      assert vs == [vs[0]] + vs[1..];
      InsertByBandwidth(vs[0], SortByBandwidth(vs[1..]))
  }

  predicate DescendingByBandwidth(vs: seq<Variant>) {
    forall i, j :: 0 <= i < j < |vs| ==> vs[j].bandwidth <= vs[i].bandwidth
  }

  lemma {:induction false} InsertKeepsDescending(v: Variant, sorted: seq<Variant>)
    requires DescendingByBandwidth(sorted)
    ensures DescendingByBandwidth(InsertByBandwidth(v, sorted))
    ensures |sorted| > 0 && v.bandwidth < sorted[0].bandwidth ==> InsertByBandwidth(v, sorted)[0] == sorted[0]
    ensures (|sorted| == 0 || sorted[0].bandwidth <= v.bandwidth) ==> InsertByBandwidth(v, sorted)[0] == v
  {
    if |sorted| > 0 && v.bandwidth < sorted[0].bandwidth {
      var rest := InsertByBandwidth(v, sorted[1..]);
      InsertKeepsDescending(v, sorted[1..]);
      assert rest[0].bandwidth <= sorted[0].bandwidth;
      forall j | 0 <= j < |rest| ensures rest[j].bandwidth <= sorted[0].bandwidth {
        assert rest[j].bandwidth <= rest[0].bandwidth;
      }
    }
  }

  /** The sort yields the variants ordered by descending bandwidth, a permutation of the
      input whose head is the first variant of highest bandwidth. */
  lemma {:induction false} SortByBandwidthSpec(vs: seq<Variant>)
    ensures DescendingByBandwidth(SortByBandwidth(vs))
    ensures |vs| > 0 ==> SortByBandwidth(vs)[0] == vs[FirstMaxIndex(vs)]
  {
    if |vs| > 0 {
      var tail := SortByBandwidth(vs[1..]);
      SortByBandwidthSpec(vs[1..]);
      InsertKeepsDescending(vs[0], tail);
      if |vs| > 1 {
        assert tail[0] == vs[1..][FirstMaxIndex(vs[1..])];
      }
    }
  }

  /** The URL a master playlist leads to: the head of the sorted variants, or the master
      URL itself when there is no variant (or the head's URL is empty). */
  function ChooseVariant(variants: seq<Variant>, masterUrl: string): string {
    if |variants| == 0 then masterUrl
    else
      var url := SortByBandwidth(variants)[0].url;
      if url == "" then masterUrl else url
  }

  /** The chosen variant is the first of highest bandwidth. */
  lemma {:induction false} ChooseVariantIsFirstMax(variants: seq<Variant>, masterUrl: string)
    requires |variants| > 0
    ensures var m := FirstMaxIndex(variants);
      ChooseVariant(variants, masterUrl) == (if variants[m].url == "" then masterUrl else variants[m].url)
  {
    SortByBandwidthSpec(variants);
  }

  /** The media-playlist URL of a playlist fetched from `masterUrl`: a text mentioning
      `#EXT-X-STREAM-INF` in any letter case is a master playlist, and its chosen variant's
      URL is returned; any other text leaves `masterUrl` itself. */
  method SelectMediaUrl(masterUrl: string, masterText: string, urls: UrlApi) returns (r: Result<string>)
    ensures !ContainsIgnoreCase(masterText, STREAM_INF_TAG) ==> r == Ok(masterUrl)
    ensures ContainsIgnoreCase(masterText, STREAM_INF_TAG) ==>
      var refs := VariantRefs(Split(masterText, '\n'), |Split(masterText, '\n')|);
      && (r.Ok? <==> AllVariantsResolve(refs, masterUrl, urls))
      && (r.Ok? ==> r.value == ChooseVariant(ResolveVariants(refs, masterUrl, urls), masterUrl))
    ensures r.Err? ==> r.error == INVALID_URL_ERROR
  {
    if !ContainsIgnoreCase(masterText, STREAM_INF_TAG) {
      return Ok(masterUrl);
    }
    var lines := Split(masterText, '\n');
    var variants := CollectVariants(masterUrl, lines, urls);
    if variants.Err? {
      return Err(variants.error);
    }
    return Ok(ChooseVariant(variants.value, masterUrl));
  }

  // ---------------------------------------------------------------- the whole resolver

  /** What `parseMedia` yields for the text fetched from `mediaUrl`, as one value. */
  function MediaOf(mediaUrl: string, text: string, urls: UrlApi): Result<Media> {
    if ContainsIgnoreCase(text, KEY_TAG) then Err(ENCRYPTED_ERROR)
    else if urls.parse(mediaUrl).None? then Err(INVALID_URL_ERROR)
    else
      var lines, base := Split(text, '\n'), urls.parse(mediaUrl).value;
      if AllResolve(UriLines(lines, |lines|), base, urls)
      then Ok(Media(ResolveAll(UriLines(lines, |lines|), base, urls), UriDurations(lines, |lines|)))
      else Err(INVALID_URL_ERROR)
  }

  /** `parseMedia(mediaUrl)` including its fetch: a failed fetch fails with its message. */
  function FetchMedia(mediaUrl: string, fetch: string -> Result<string>, urls: UrlApi): Result<Media> {
    match fetch(mediaUrl)
    case Err(e) => Err(e)
    case Ok(text) => MediaOf(mediaUrl, text, urls)
  }

  /** `resolvePlaylist(url)`: the media playlist that `url` leads to, read into segments
      and durations. A master playlist whose variants all resolve leads to its chosen
      variant; any other playlist is read as a media playlist itself. */
  function PlaylistOf(url: string, fetch: string -> Result<string>, urls: UrlApi): (r: Result<Media>)
    ensures r.Ok? ==> |r.value.segments| == |r.value.extinf|
  {
    match fetch(url)
    case Err(e) => Err(e)
    case Ok(master) =>
      if !ContainsIgnoreCase(master, STREAM_INF_TAG) then FetchMedia(url, fetch, urls)
      else
        var lines := Split(master, '\n');
        var refs := VariantRefs(lines, |lines|);
        if !AllVariantsResolve(refs, url, urls) then Err(INVALID_URL_ERROR)
        else FetchMedia(ChooseVariant(ResolveVariants(refs, url, urls), url), fetch, urls)
  }

  /** Fetches the playlist at `url` through `fetch` (the network, an input of the model),
      follows a master playlist to its chosen variant and reads the media playlist. */
  method ResolvePlaylist(url: string, fetch: string -> Result<string>, urls: UrlApi) returns (r: Result<Media>)
    ensures r == PlaylistOf(url, fetch, urls)
    ensures r.Ok? ==> |r.value.segments| == |r.value.extinf|
  {
    var master := fetch(url);
    if master.Err? {
      return Err(master.error);
    }
    var mediaUrl := SelectMediaUrl(url, master.value, urls);
    if mediaUrl.Err? {
      return Err(mediaUrl.error);
    }
    var text := fetch(mediaUrl.value);
    if text.Err? {
      return Err(text.error);
    }
    r := ParseMedia(mediaUrl.value, text.value, urls);
  }
}
