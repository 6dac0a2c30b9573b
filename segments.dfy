/** What the worker writes for the remuxer (offscreen.js:118-140, 227-250): the file
    extension guessed from a segment URL, the zero-padded segment file names, the
    three-decimal rendering of a duration, and the local media playlist (RFC 8216,
    sections 4.3.1.1, 4.3.1.2, 4.3.2.1, 4.3.3.1, 4.3.3.2 and 4.3.3.4) that lists the
    downloaded files. */
module Segments {
  import opened Text
  import opened Playlist

  // ---------------------------------------------------------------- extensions

  /** The part of a segment URL before its first `?`, in lower case. */
  function UrlPath(u: string): string {
    Lower(Split(u, '?')[0])
  }

  /** The extension of a segment file: the first of `.aac`, `.m4s`, `.mp4`, `.ts` that the
      URL path ends with, and `.ts` when it ends with none of them. */
  function GuessExt(u: string): (r: string)
    ensures r == ".aac" || r == ".m4s" || r == ".mp4" || r == ".ts"
    ensures r != ".ts" ==> EndsWith(UrlPath(u), r)
  {
    var p := UrlPath(u);
    if EndsWith(p, ".aac") then ".aac"
    else if EndsWith(p, ".m4s") then ".m4s"
    else if EndsWith(p, ".mp4") then ".mp4"
    else if EndsWith(p, ".ts") then ".ts"
    else ".ts"
  }

  /** The three recognised endings exclude each other, so the guess is `.aac`, `.m4s` or
      `.mp4` exactly when the path ends with it, and `.ts` otherwise. */
  lemma {:induction false} GuessExtMatchesEnding(u: string)
    ensures var p, r := UrlPath(u), GuessExt(u);
      && (r == ".aac" <==> EndsWith(p, ".aac"))
      && (r == ".m4s" <==> EndsWith(p, ".m4s"))
      && (r == ".mp4" <==> EndsWith(p, ".mp4"))
      && (r == ".ts" <==> !EndsWith(p, ".aac") && !EndsWith(p, ".m4s") && !EndsWith(p, ".mp4"))
  {
    var p := UrlPath(u);
    if EndsWith(p, ".m4s") {
      assert p[|p| - 1] == 's';
    }
    if EndsWith(p, ".mp4") {
      assert p[|p| - 1] == '4';
    }
    if EndsWith(p, ".aac") {
      assert p[|p| - 1] == 'c';
    }
  }

  /** The query string plays no part in the guess. */
  lemma {:induction false} GuessExtIgnoresQuery(path: string, query: string)
    requires '?' !in path
    ensures GuessExt(path + "?" + query) == GuessExt(path)
  {
    var u := path + "?" + query;
    assert u[|path|] == '?' && u[..|path|] == path;
    FirstIndexIsUnique(u, '?', |path|);
    assert Split(u, '?')[0] == path;
  }

  /** Lowering a URL keeps the place of its first `?`. */
  lemma {:induction false} LowerSplitHead(u: string)
    ensures Lower(Split(u, '?')[0]) == Split(Lower(u), '?')[0]
  {
    var l := Lower(u);
    if '?' in u {
      var i := IndexOf(u, '?');
      assert l[i] == '?';
      assert l[..i] == Lower(u[..i]);
      assert '?' !in l[..i] by {
        forall k | 0 <= k < i ensures l[..i][k] != '?' {
          assert u[..i][k] == u[k];
        }
      }
      assert '?' in l;
      FirstIndexIsUnique(l, '?', i);
    } else {
      assert '?' !in l by {
        forall k | 0 <= k < |l| ensures l[k] != '?' {
        }
      }
    }
  }

  /** Letter case plays no part in the guess: URLs that agree once lowered get the same
      extension. */
  lemma {:induction false} GuessExtIgnoresCase(u1: string, u2: string)
    requires Lower(u1) == Lower(u2)
    ensures GuessExt(u1) == GuessExt(u2)
  {
    LowerSplitHead(u1);
    LowerSplitHead(u2);
  }

  // ---------------------------------------------------------------- segment names

  const SEGMENT_PREFIX := "seg_"
  const INDEX_WIDTH := 5

  /** The name of the file segment `i` (fetched from `u`) is written to: `seg_`, the index
      padded with zeros to five digits, and the guessed extension. */
  function SegmentName(i: nat, u: string): (r: string)
    ensures StartsWith(r, SEGMENT_PREFIX) && EndsWith(r, GuessExt(u))
  {
    SEGMENT_PREFIX + IndexText(i) + GuessExt(u)
  }

  /** The digits of a name read back as its index. */
  lemma {:induction false} SegmentNameIndex(i: nat, u: string)
    ensures var digits := SegmentName(i, u)[|SEGMENT_PREFIX|..|SegmentName(i, u)| - |GuessExt(u)|];
      AllDigits(digits) && DigitsValue(digits) == i
  {
    var d := IndexText(i);
    var r := SegmentName(i, u);
    assert r[|SEGMENT_PREFIX|..|r| - |GuessExt(u)|] == d;
    PadStartValue(i, INDEX_WIDTH);
  }

  /** The zero-padded index of a name. */
  function IndexText(i: nat): string {
    PadStart(NatToString(i), INDEX_WIDTH, '0')
  }

  /** Below 100000 the padded index has exactly five digits and reads back as the index. */
  lemma {:induction false} IndexTextBelowLimit(i: nat)
    requires i < 100000
    ensures |IndexText(i)| == INDEX_WIDTH && AllDigits(IndexText(i)) && DigitsValue(IndexText(i)) == i
  {
    assert Pow10(5) == 100000;
    NatToStringLength(i, 5);
    PadStartValue(i, INDEX_WIDTH);
  }

  /** Names built around index texts of one length sort as those texts do. */
  lemma {:induction false} NamesSortByMiddle(p: string, a: string, b: string, x: string, y: string)
    requires |a| == |b| && LexLess(a, b)
    ensures LexLess(p + a + x, p + b + y)
  {
    LexLessAppend(a, b, x, y);
    LexLessCommonPrefix(p, a + x, b + y);
    assert p + a + x == p + (a + x);
    assert p + b + y == p + (b + y);
  }

  /** Below 100000 the names sort as their indices do, whatever the extensions. */
  lemma {:induction false} SegmentNamesOrdered(i: nat, j: nat, u: string, v: string)
    requires i < j < 100000
    ensures LexLess(SegmentName(i, u), SegmentName(j, v))
  {
    IndexTextBelowLimit(i);
    IndexTextBelowLimit(j);
    LexLessDigits(IndexText(i), IndexText(j));
    NamesSortByMiddle(SEGMENT_PREFIX, IndexText(i), IndexText(j), GuessExt(u), GuessExt(v));
  }

  /** Below 100000 distinct indices give distinct names. */
  lemma {:induction false} SegmentNamesDistinct(i: nat, j: nat, u: string, v: string)
    requires i < 100000 && j < 100000 && i != j
    ensures SegmentName(i, u) != SegmentName(j, v)
  {
    if i < j {
      SegmentNamesOrdered(i, j, u, v);
      LexLessIrreflexive(SegmentName(i, u));
    } else {
      SegmentNamesOrdered(j, i, v, u);
      LexLessIrreflexive(SegmentName(j, v));
    }
  }

  // ---------------------------------------------------------------- durations as text

  /** The `n` of `x.toFixed(3)`: the number of thousandths nearest to `x`, the larger one
      when two are equally near. */
  function Millis(x: Seconds): nat {
    (x * 1000.0 + 0.5).Floor
  }

  /** `x.toFixed(3)` for `x` below 10^21: the thousandths in decimal, at least four digits,
      with a dot before the last three. */
  function ToFixed3(x: Seconds): string {
    Thousandths(PadStart(NatToString(Millis(x)), 4, '0'))
  }

  /** A count of thousandths written with a dot before its last three digits. */
  function Thousandths(m: string): string
    requires |m| >= 3
  {
    m[..|m| - 3] + "." + m[|m| - 3..]
  }

  /** The value `x.toFixed(3)` writes: `x` rounded to thousandths. */
  function Rounded(x: Seconds): Seconds {
    Millis(x) as real / 1000.0
  }

  /** The written value is within half a thousandth of the duration. */
  lemma {:induction false} MillisIsNearest(x: Seconds)
    ensures x - 0.0005 < Rounded(x) <= x + 0.0005
  {
  }

  /** The longest digit prefix of digits followed by a non-digit is those digits. */
  lemma {:induction false} LeadingDigitsUpTo(a: string, rest: string)
    requires AllDigits(a) && (rest == [] || !IsDigit(rest[0]))
    ensures LeadingDigits(a + rest) == a
  {
    if |a| > 0 {
      assert (a + rest)[1..] == a[1..] + rest;
      LeadingDigitsUpTo(a[1..], rest);
      assert a == [a[0]] + a[1..];
    } else {
      assert a + rest == rest;
    }
  }

  /** The longest prefix of digits and dots, when a non-decimal character follows. */
  lemma {:induction false} LeadingDecimalUpTo(a: string, rest: string)
    requires forall k :: 0 <= k < |a| ==> IsDecimalChar(a[k])
    requires rest == [] || !IsDecimalChar(rest[0])
    ensures LeadingDecimal(a + rest) == a
  {
    if |a| > 0 {
      assert (a + rest)[1..] == a[1..] + rest;
      LeadingDecimalUpTo(a[1..], rest);
      assert a == [a[0]] + a[1..];
    } else {
      assert a + rest == rest;
    }
  }

  /** `toFixed(3)` text is made of digits and one dot. */
  lemma {:induction false} ToFixed3IsDecimal(x: Seconds)
    ensures forall k :: 0 <= k < |ToFixed3(x)| ==> IsDecimalChar(ToFixed3(x)[k])
  {
    PadStartValue(Millis(x), 4);
  }

  /** Digits, a dot and at least one digit read as the number they write. */
  lemma {:induction false} DecimalTextValue(a: string, b: string)
    requires AllDigits(a) && AllDigits(b) && |b| > 0
    ensures forall k :: 0 <= k < |a + "." + b| ==> IsDecimalChar((a + "." + b)[k])
    ensures ParseDecimal(a + "." + b) == Secs(DecimalValue(a, b))
  {
    var s := a + "." + b;
    var tail := "." + b;
    forall k | 0 <= k < |s| ensures IsDecimalChar(s[k]) {
      if k < |a| {
        assert s[k] == a[k];
      } else if |a| < k {
        assert s[k] == b[k - |a| - 1];
      }
    }
    assert s == a + tail;
    LeadingDigitsUpTo(a, tail);
    assert s[|a|..] == tail;
    assert tail[0] == '.' && tail[1..] == b;
    LeadingDigitsUpTo(b, "");
    assert b + "" == b;
  }

  /** Four or more digits with a dot before the last three read back as that many
      thousandths. */
  lemma {:induction false} ThousandthsReadsBack(m: string)
    requires AllDigits(m) && |m| >= 4
    ensures forall k :: 0 <= k < |Thousandths(m)| ==> IsDecimalChar(Thousandths(m)[k])
    ensures ParseDecimal(Thousandths(m)) == Secs(DigitsValue(m) as real / 1000.0)
  {
    var a, b := m[..|m| - 3], m[|m| - 3..];
    assert m == a + b;
    assert AllDigits(a) && AllDigits(b);
    DecimalTextValue(a, b);
    DecimalValueScaled(a, b);
    assert |b| == 3 && Pow10(3) == 1000;
  }

  /** Reading the `toFixed(3)` text back as a number gives the duration rounded to the
      nearest thousandth. */
  lemma {:induction false} ToFixed3ReadsBack(x: Seconds)
    ensures forall k :: 0 <= k < |ToFixed3(x)| ==> IsDecimalChar(ToFixed3(x)[k])
    ensures ParseDecimal(ToFixed3(x)) == Secs(Rounded(x))
  {
    PadStartValue(Millis(x), 4);
    ThousandthsReadsBack(PadStart(NatToString(Millis(x)), 4, '0'));
  }

  // ---------------------------------------------------------------- the local playlist

  const HEADER := ["#EXTM3U", "#EXT-X-VERSION:3", "#EXT-X-TARGETDURATION:10", "#EXT-X-MEDIA-SEQUENCE:0"]
  const ENDLIST := "#EXT-X-ENDLIST"

  /** The duration written for file `i`: its parsed duration, or 10 seconds when there is
      none or it is not a number. */
  function DurationFor(extinf: seq<Duration>, i: nat): Seconds {
    if i < |extinf| && extinf[i].Secs? then extinf[i].value else DEFAULT_DURATION
  }

  function ExtinfLine(d: Seconds): string {
    EXTINF_TAG + ToFixed3(d) + ","
  }

  /** The two lines of each of the first `n` files: its `#EXTINF` line, then its name. */
  function EntryLines(files: seq<string>, extinf: seq<Duration>, n: nat): (r: seq<string>)
    requires n <= |files|
    ensures |r| == 2 * n
  {
    if n == 0 then [] else EntryLines(files, extinf, n - 1) + [ExtinfLine(DurationFor(extinf, n - 1)), files[n - 1]]
  }

  /** The lines of the local playlist. */
  function LocalLines(files: seq<string>, extinf: seq<Duration>): seq<string> {
    HEADER + EntryLines(files, extinf, |files|) + [ENDLIST]
  }

  /** Writes the local playlist listing `files`, with the durations of `extinf` by
      position. */
  method BuildLocalM3U8(files: seq<string>, extinf: seq<Duration>) returns (text: string)
    ensures text == Join(LocalLines(files, extinf), '\n')
  {
    var lines := HEADER;
    var i := 0;
    while i < |files|
      invariant i <= |files|
      invariant lines == HEADER + EntryLines(files, extinf, i)
    {
      var d := if i < |extinf| && extinf[i].Secs? then extinf[i].value else DEFAULT_DURATION;
      AppendPair(HEADER, EntryLines(files, extinf, i), EXTINF_TAG + ToFixed3(d) + ",", files[i]);
      lines := lines + [EXTINF_TAG + ToFixed3(d) + ","];
      lines := lines + [files[i]];
      i := i + 1;
    }
    assert i == |files|;
    lines := lines + [ENDLIST];
    text := Join(lines, '\n');
  }

  lemma {:induction false} AppendPair<T>(a: seq<T>, b: seq<T>, x: T, y: T)
    ensures a + b + [x] + [y] == a + (b + [x, y])
  {
  }

  lemma {:induction false} EntryLinesAt(files: seq<string>, extinf: seq<Duration>, n: nat, i: nat)
    requires i < n <= |files|
    ensures EntryLines(files, extinf, n)[2 * i] == ExtinfLine(DurationFor(extinf, i))
    ensures EntryLines(files, extinf, n)[2 * i + 1] == files[i]
  {
    var m := n - 1;
    var prev, pair := EntryLines(files, extinf, m), [ExtinfLine(DurationFor(extinf, m)), files[m]];
    assert EntryLines(files, extinf, n) == prev + pair;
    if i < m {
      EntryLinesAt(files, extinf, m, i);
      AppendIndexLeft(prev, pair, 2 * i);
      AppendIndexLeft(prev, pair, 2 * i + 1);
    } else {
      AppendIndexRight(prev, pair, 0);
      AppendIndexRight(prev, pair, 1);
    }
  }

  /** The local playlist is the four header lines, then per file in order its `#EXTINF`
      line and its name, then `#EXT-X-ENDLIST`. */
  lemma {:induction false} LocalLinesShape(files: seq<string>, extinf: seq<Duration>)
    ensures var lines := LocalLines(files, extinf);
      && |lines| == 2 * |files| + 5
      && lines[..4] == HEADER
      && (forall i :: 0 <= i < |files| ==>
            lines[4 + 2 * i] == ExtinfLine(DurationFor(extinf, i)) && lines[5 + 2 * i] == files[i])
      && lines[|lines| - 1] == ENDLIST
  {
    var lines := LocalLines(files, extinf);
    forall i | 0 <= i < |files|
      ensures lines[4 + 2 * i] == ExtinfLine(DurationFor(extinf, i)) && lines[5 + 2 * i] == files[i]
    {
      EntryLinesAt(files, extinf, |files|, i);
    }
  }

  /** A file name the scan of a media playlist reads back unchanged: a URI line that is its
      own trim and holds no line break. */
  predicate PlainName(f: string) {
    IsUriLine(f) && !IsJsSpace(f[0]) && !IsJsSpace(f[|f| - 1]) && '\n' !in f
  }

  /** A digit string holds no line break. */
  lemma {:induction false} DigitsHaveNoBreak(d: string)
    requires AllDigits(d)
    ensures '\n' !in d
  {
    assert forall k :: 0 <= k < |d| ==> d[k] != '\n';
  }

  /** Segment names are plain. */
  lemma {:induction false} SegmentNameIsPlain(i: nat, u: string)
    ensures PlainName(SegmentName(i, u))
  {
    var d, e := IndexText(i), GuessExt(u);
    PadStartValue(i, INDEX_WIDTH);
    DigitsHaveNoBreak(d);
    PrefixStartsPlain();
    ExtEndsPlain(e);
    PlainJoin(SEGMENT_PREFIX, d, e);
  }

  lemma {:induction false} PrefixStartsPlain()
    ensures |SEGMENT_PREFIX| > 0 && SEGMENT_PREFIX[0] != '#' && !IsJsSpace(SEGMENT_PREFIX[0])
    ensures '\n' !in SEGMENT_PREFIX
  {
  }

  lemma {:induction false} ExtEndsPlain(e: string)
    requires e == ".aac" || e == ".m4s" || e == ".mp4" || e == ".ts"
    ensures |e| > 0 && !IsJsSpace(e[|e| - 1]) && '\n' !in e
  {
  }

  /** A name that starts with neither `#` nor a space, ends without a space and holds no
      line break is plain. */
  lemma {:induction false} PlainJoin(p: string, d: string, e: string)
    requires |p| > 0 && p[0] != '#' && !IsJsSpace(p[0]) && '\n' !in p
    requires |e| > 0 && !IsJsSpace(e[|e| - 1]) && '\n' !in e
    requires '\n' !in d
    ensures PlainName(p + d + e)
  {
    var r := p + d + e;
    assert r[0] == p[0] && r[|r| - 1] == e[|e| - 1];
    assert r[..1] == [p[0]];
  }

  /** A line whose first character is `#` is never a URI line, trimmed or not. */
  lemma {:induction false} TagIsNotUri(raw: string)
    requires |raw| > 0 && raw[0] == '#'
    ensures !IsUriLine(Trim(raw))
  {
    assert TrimStart(raw) == raw;
    TrimEndSpec(raw);
  }

  /** The durations the local playlist carries: each rounded to the nearest thousandth. */
  function WrittenDurations(extinf: seq<Duration>, n: nat): (r: seq<Duration>) {
    seq(n, i requires 0 <= i < n => Secs(Rounded(DurationFor(extinf, i))))
  }

  /** How one `#EXTINF` line written by the worker reads back. */
  lemma {:induction false} ExtinfLineReadsBack(d: Seconds)
    ensures Trim(ExtinfLine(d)) == ExtinfLine(d)
    ensures IsExtinfLine(ExtinfLine(d))
    ensures ExtinfDuration(ExtinfLine(d)) == Secs(Rounded(d))
  {
    var line := ExtinfLine(d);
    var t := ToFixed3(d);
    assert line[0] == '#' && line[|line| - 1] == ',';
    TrimClean(line);
    assert line[..|EXTINF_TAG|] == EXTINF_TAG;
    assert line[|EXTINF_TAG|..] == t + ",";
    ToFixed3ReadsBack(d);
    LeadingDecimalUpTo(t, ",");
    assert |t| > 0;
  }

  /** The lines of file `i` in the local playlist. */
  lemma {:induction false} LocalLinesAt(files: seq<string>, extinf: seq<Duration>, i: nat)
    requires i < |files|
    ensures |LocalLines(files, extinf)| == 2 * |files| + 5
    ensures LocalLines(files, extinf)[4 + 2 * i] == ExtinfLine(DurationFor(extinf, i))
    ensures LocalLines(files, extinf)[5 + 2 * i] == files[i]
  {
    EntryLinesAt(files, extinf, |files|, i);
  }

  /** The four header lines are tags: they contribute no URI line. */
  lemma {:induction false} HeaderScan(lines: seq<string>)
    requires |lines| >= 4 && lines[..4] == HEADER
    ensures UriLines(lines, 4) == [] && UriDurations(lines, 4) == []
  {
    assert lines[0] == HEADER[0] && lines[1] == HEADER[1] && lines[2] == HEADER[2] && lines[3] == HEADER[3];
    TagIsNotUri(lines[0]);
    UriStepOther(lines, 0);
    TagIsNotUri(lines[1]);
    UriStepOther(lines, 1);
    TagIsNotUri(lines[2]);
    UriStepOther(lines, 2);
    TagIsNotUri(lines[3]);
    UriStepOther(lines, 3);
  }

  /** `line`, trimmed, is an `#EXTINF:` tag that sets duration `d`. */
  predicate ReadsAsExtinf(line: string, d: Duration) {
    IsExtinfLine(Trim(line)) && ExtinfDuration(Trim(line)) == d
  }

  /** An `#EXTINF` line followed by a plain name adds that name, with that line's duration. */
  lemma {:induction false} EntryScan(lines: seq<string>, j: nat, k: nat, d: Duration, f: string)
    requires k == j + 2 <= |lines| && ReadsAsExtinf(lines[j], d) && lines[j + 1] == f && PlainName(f)
    ensures UriLines(lines, k) == UriLines(lines, j) + [f]
    ensures UriDurations(lines, k) == UriDurations(lines, j) + [d]
  {
    ExtinfIsNotUri(Trim(lines[j]));
    UriStepOther(lines, j);
    DurationStepExtinf(lines, j);
    TrimClean(f);
    UriStepUri(lines, j + 1);
  }

  /** Lines `4 + 2i` and `5 + 2i` are an `#EXTINF` line for `durs[i]` and the plain name
      `files[i]`. */
  predicate EntryAt(lines: seq<string>, files: seq<string>, durs: seq<Duration>, i: nat) {
    && i < |files| && i < |durs| && 5 + 2 * i < |lines|
    && ReadsAsExtinf(lines[4 + 2 * i], durs[i])
    && lines[5 + 2 * i] == files[i]
    && PlainName(files[i])
  }

  /** The first `n` files each have their entry. */
  predicate EntriesUpTo(lines: seq<string>, files: seq<string>, durs: seq<Duration>, n: nat) {
    n == 0 || (EntriesUpTo(lines, files, durs, n - 1) && EntryAt(lines, files, durs, n - 1))
  }

  /** Scanning the header and the entries of the first `n` files gives back those files
      and their durations. */
  lemma {:induction false} EntriesScan(lines: seq<string>, files: seq<string>, durs: seq<Duration>, n: nat)
    requires n <= |files| && n <= |durs| && 4 + 2 * n <= |lines|
    requires UriLines(lines, 4) == [] && UriDurations(lines, 4) == []
    requires EntriesUpTo(lines, files, durs, n)
    ensures UriLines(lines, 4 + 2 * n) == files[..n]
    ensures UriDurations(lines, 4 + 2 * n) == durs[..n]
  {
    if n == 0 {
      assert files[..n] == [] && durs[..n] == [];
    } else {
      var m := n - 1;
      EntriesScan(lines, files, durs, m);
      EntriesStep(lines, files, durs, m, n);
    }
  }

  /** One more entry extends the files read back by its name and the durations by its
      duration. */
  lemma {:induction false} EntriesStep(lines: seq<string>, files: seq<string>, durs: seq<Duration>, m: nat, n: nat)
    requires n == m + 1 && EntryAt(lines, files, durs, m)
    requires UriLines(lines, 4 + 2 * m) == files[..m]
    requires UriDurations(lines, 4 + 2 * m) == durs[..m]
    ensures UriLines(lines, 4 + 2 * n) == files[..n]
    ensures UriDurations(lines, 4 + 2 * n) == durs[..n]
  {
    var j, k := 4 + 2 * m, 4 + 2 * n;
    EntryScan(lines, j, k, durs[m], files[m]);
    TakeSnoc(files, m, n);
    TakeSnoc(durs, m, n);
  }

  lemma {:induction false} AppendIndexLeft<T>(a: seq<T>, b: seq<T>, k: nat)
    requires k < |a|
    ensures (a + b)[k] == a[k]
  {
  }

  lemma {:induction false} AppendIndexRight<T>(a: seq<T>, b: seq<T>, k: nat)
    requires k < |b|
    ensures (a + b)[|a| + k] == b[k]
  {
  }

  lemma {:induction false} TakeSnoc<T>(s: seq<T>, m: nat, n: nat)
    requires n == m + 1 <= |s|
    ensures s[..n] == s[..m] + [s[m]]
  {
  }

  /** Entries laid out at every position make every prefix of them entries. */
  lemma {:induction false} AllEntries(lines: seq<string>, files: seq<string>, durs: seq<Duration>, n: nat)
    requires n <= |files| == |durs| && 2 * |files| + 5 == |lines|
    requires forall i :: 0 <= i < |files| ==> EntryAt(lines, files, durs, i)
    ensures EntriesUpTo(lines, files, durs, n)
  {
    if n > 0 {
      AllEntries(lines, files, durs, n - 1);
    }
  }

  /** Read as a media playlist, the local playlist gives back exactly the files, in order,
      each with its duration rounded to the nearest thousandth. */
  lemma {:induction false} LocalPlaylistReadsBack(files: seq<string>, extinf: seq<Duration>)
    requires forall i :: 0 <= i < |files| ==> PlainName(files[i])
    ensures var lines := Split(Join(LocalLines(files, extinf), '\n'), '\n');
      && lines == LocalLines(files, extinf)
      && UriLines(lines, |lines|) == files
      && UriDurations(lines, |lines|) == WrittenDurations(extinf, |files|)
  {
    LinesHaveNoBreak(files, extinf);
    SplitJoin(LocalLines(files, extinf), '\n');
    LocalScan(files, extinf);
  }

  /** The scans of a media playlist over the local lines give back the files and their
      written durations. */
  lemma {:induction false} LocalScan(files: seq<string>, extinf: seq<Duration>)
    requires forall i :: 0 <= i < |files| ==> PlainName(files[i])
    ensures var lines := LocalLines(files, extinf);
      && UriLines(lines, |lines|) == files
      && UriDurations(lines, |lines|) == WrittenDurations(extinf, |files|)
  {
    var lines := LocalLines(files, extinf);
    LocalEntries(files, extinf);
    EndlistStep(lines, |lines| - 1);
    ScanAll(lines, files, WrittenDurations(extinf, |files|));
  }

  /** Lines made of a header without URI lines, one entry per file and a closing line that
      is not a URI read back as the files with their durations. */
  lemma {:induction false} ScanAll(lines: seq<string>, files: seq<string>, durs: seq<Duration>)
    requires |durs| == |files| && |lines| == 2 * |files| + 5
    requires UriLines(lines, 4) == [] && UriDurations(lines, 4) == []
    requires EntriesUpTo(lines, files, durs, |files|)
    requires UriLines(lines, |lines|) == UriLines(lines, |lines| - 1)
    requires UriDurations(lines, |lines|) == UriDurations(lines, |lines| - 1)
    ensures UriLines(lines, |lines|) == files && UriDurations(lines, |lines|) == durs
  {
    var n := |files|;
    EntriesScan(lines, files, durs, n);
    TakeAll(files);
    TakeAll(durs);
    assert |lines| - 1 == 4 + 2 * n;
  }

  /** The closing tag adds nothing to either scan. */
  lemma {:induction false} EndlistStep(lines: seq<string>, last: nat)
    requires |lines| == last + 1 && lines[last] == ENDLIST
    ensures UriLines(lines, |lines|) == UriLines(lines, last)
    ensures UriDurations(lines, |lines|) == UriDurations(lines, last)
  {
    EndlistIsNotUri();
    UriStepOther(lines, last);
  }

  lemma {:induction false} EndlistIsNotUri()
    ensures !IsUriLine(Trim(ENDLIST))
  {
    TagIsNotUri(ENDLIST);
  }

  lemma {:induction false} TakeAll<T>(s: seq<T>)
    ensures s[..|s|] == s
  {
  }

  /** The local lines are the header, which holds no URI line, then an entry per file. */
  lemma {:induction false} LocalEntries(files: seq<string>, extinf: seq<Duration>)
    requires forall i :: 0 <= i < |files| ==> PlainName(files[i])
    ensures var lines, durs := LocalLines(files, extinf), WrittenDurations(extinf, |files|);
      && |lines| == 2 * |files| + 5 && lines[|lines| - 1] == ENDLIST
      && UriLines(lines, 4) == [] && UriDurations(lines, 4) == []
      && EntriesUpTo(lines, files, durs, |files|)
  {
    var lines, durs := LocalLines(files, extinf), WrittenDurations(extinf, |files|);
    LocalLinesShape(files, extinf);
    HeaderScan(lines);
    forall i | 0 <= i < |files| ensures EntryAt(lines, files, durs, i) {
      LocalLinesAt(files, extinf, i);
      ExtinfLineReadsBack(DurationFor(extinf, i));
    }
    AllEntries(lines, files, durs, |files|);
  }

  /** No line of the local playlist holds a line break. */
  lemma {:induction false} LinesHaveNoBreak(files: seq<string>, extinf: seq<Duration>)
    requires forall i :: 0 <= i < |files| ==> PlainName(files[i])
    ensures NoBreaks(LocalLines(files, extinf))
  {
    var entries := EntryLines(files, extinf, |files|);
    FixedLinesHaveNoBreaks();
    EntryLinesHaveNoBreaks(files, extinf, |files|);
    NoBreaksAppend(HEADER, entries);
    NoBreaksAppend(HEADER + entries, [ENDLIST]);
  }

  /** No line of `lines` holds a line break. */
  predicate NoBreaks(lines: seq<string>) {
    forall k :: 0 <= k < |lines| ==> '\n' !in lines[k]
  }

  lemma {:induction false} NoBreaksAppend(a: seq<string>, b: seq<string>)
    requires NoBreaks(a) && NoBreaks(b)
    ensures NoBreaks(a + b)
  {
    forall k | 0 <= k < |a + b| ensures '\n' !in (a + b)[k] {
      if k < |a| {
        assert (a + b)[k] == a[k];
      } else {
        assert (a + b)[k] == b[k - |a|];
      }
    }
  }

  lemma {:induction false} FixedLinesHaveNoBreaks()
    ensures NoBreaks(HEADER) && NoBreaks([ENDLIST])
  {
  }

  lemma {:induction false} ExtinfLineHasNoBreak(d: Seconds)
    ensures '\n' !in ExtinfLine(d)
  {
    var t := ToFixed3(d);
    ToFixed3IsDecimal(d);
    assert forall c :: 0 <= c < |t| ==> t[c] != '\n';
    assert '\n' !in EXTINF_TAG;
  }

  lemma {:induction false} EntryLinesHaveNoBreaks(files: seq<string>, extinf: seq<Duration>, n: nat)
    requires n <= |files| && forall i :: 0 <= i < |files| ==> PlainName(files[i])
    ensures NoBreaks(EntryLines(files, extinf, n))
  {
    var lines := EntryLines(files, extinf, n);
    forall k | 0 <= k < |lines| ensures '\n' !in lines[k] {
      var i := k / 2;
      EntryLinesAt(files, extinf, n, i);
      if k % 2 == 0 {
        assert k == 2 * i;
        ExtinfLineHasNoBreak(DurationFor(extinf, i));
      } else {
        assert k == 2 * i + 1;
        assert PlainName(files[i]);
      }
    }
  }

}
