/**
 The guarded installer of the acoustic echo cancellation block in a PulseAudio config
 (`render_install`, `render_remove`).

 The wording of the block is a value, `Template`. What is proved holds for every template whose
 markers stand out from its other lines, and `Deployed`, the installer's own wording, is one.
 */
module AecConfig {
  import opened Wrappers

  const MIN_VOLUME := 1
  const MAX_VOLUME := 60
  const VOLUME_NORMAL := 65_536

  datatype Method = Webrtc | Speex | Adrian

  datatype Template = Template(
    begin: string,
    end: string,
    comments: seq<string>,     // the lines between the first marker and the module line
    loadPrefix: string,
    loadSuffix: string,
    volumePrefix: string,
    defaults: seq<string>,     // the lines before the last marker
    sourceName: string,
    sinkName: string)

  // ----- text -----

  predicate EndsWith(s: string, suffix: string) { |s| >= |suffix| && s[|s| - |suffix|..] == suffix }

  predicate Contains(s: string, part: string) { part <= s || (s != [] && Contains(s[1..], part)) }

  /** Python's `str.count`: occurrences that do not overlap, from the left. */
  function Count(s: string, part: string): nat
    requires part != []
    decreases |s|
  {
    if s == [] then 0
    else if part <= s then 1 + Count(s[|part|..], part)
    else Count(s[1..], part)
  }

  predicate OneLine(s: string) { '\n' !in s }

  /** Lines with newlines between them. */
  function Join(lines: seq<string>): string
    requires lines != []
  {
    if |lines| == 1 then lines[0] else Join(lines[..|lines| - 1]) + "\n" + lines[|lines| - 1]
  }

  function Decimal(n: nat): (s: string)
    ensures s != []
  {
    if n < 10 then [Digit(n)] else Decimal(n / 10) + [Digit(n % 10)]
  }

  function Digit(n: nat): char
    requires n < 10
  {
    '0' + n as char
  }

  function MethodName(m: Method): string {
    match m
    case Webrtc => "webrtc"
    case Speex => "speex"
    case Adrian => "adrian"
  }

  function RawVolume(percent: nat): nat { VOLUME_NORMAL * percent / 100 }

  // ----- the managed block -----

  /** A managed block of the current format, or of the one before the sink volume was persisted. */
  datatype Config = Current(m: Method, percent: nat) | Legacy(m: Method)

  function LoadLine(t: Template, m: Method): string { t.loadPrefix + MethodName(m) + t.loadSuffix }

  function VolumeLine(t: Template, percent: nat): string { t.volumePrefix + Decimal(RawVolume(percent)) }

  function Lines(t: Template, c: Config): (lines: seq<string>)
    ensures lines != []
  {
    [t.begin] + t.comments + [LoadLine(t, c.m)]
    + (if c.Current? then [VolumeLine(t, c.percent)] else []) + t.defaults + [t.end]
  }

  function Suffix(t: Template, c: Config): string { "\n" + Join(Lines(t, c)) + "\n" }

  function CurrentFor(m: Method, percent: nat): seq<Config>
    decreases MAX_VOLUME + 1 - percent
  {
    if percent > MAX_VOLUME then [] else [Current(m, percent)] + CurrentFor(m, percent + 1)
  }

  function CurrentConfigs(): seq<Config> {
    CurrentFor(Webrtc, MIN_VOLUME) + CurrentFor(Speex, MIN_VOLUME) + CurrentFor(Adrian, MIN_VOLUME)
  }

  function LegacyConfigs(): seq<Config> { [Legacy(Webrtc), Legacy(Speex), Legacy(Adrian)] }

  /** The first config in the list whose block ends the text. */
  function Installed(t: Template, contents: string, configs: seq<Config>): Option<Config> {
    if configs == [] then None
    else if EndsWith(contents, Suffix(t, configs[0])) then Some(configs[0])
    else Installed(t, contents, configs[1..])
  }

  // ----- installing and removing -----

  datatype Refusal = BadVolume | OtherVolume(installed: nat) | OtherMethod(m: Method, percent: nat) | IsLegacy(m: Method)
    | Modified | Unmanaged | BadQuoting | NoMasters

  datatype Outcome = Rendered(text: string, changed: bool) | Refused(why: Refusal)

  /** Looking for a raw ALSA master line: the parse of a line before it may fail. */
  datatype Lookup = Found | Missing | Invalid

  predicate Markers(t: Template) { t.begin != [] && t.end != [] }

  function ForInstalled(contents: string, found: Config, m: Method, percent: nat): Outcome {
    if found.Legacy? then Refused(IsLegacy(found.m))
    else if found.m == m && found.percent == percent then Rendered(contents, false)
    else if found.m == m then Refused(OtherVolume(found.percent))
    else Refused(OtherMethod(found.m, found.percent))
  }

  /** `source` and `sink` are the lookups of the two pinned raw ALSA master lines. */
  function RenderInstall(t: Template, contents: string, m: Method, percent: nat, source: Lookup, sink: Lookup): Outcome
    requires Markers(t)
  {
    var begins, ends := Count(contents, t.begin), Count(contents, t.end);
    if !(MIN_VOLUME <= percent <= MAX_VOLUME) then Refused(BadVolume)
    else if begins != 0 || ends != 0 then
      var found := if begins == 1 && ends == 1 then Installed(t, contents, CurrentConfigs() + LegacyConfigs()) else None;
      if found.Some? then ForInstalled(contents, found.value, m, percent) else Refused(Modified)
    else if Contains(contents, t.sourceName) || Contains(contents, t.sinkName) then Refused(Unmanaged)
    else if source.Invalid? || sink.Invalid? then Refused(BadQuoting)
    else if source.Missing? || sink.Missing? then Refused(NoMasters)
    else Rendered(contents + Suffix(t, Current(m, percent)), true)
  }

  function RenderRemove(t: Template, contents: string): Outcome
    requires Markers(t)
  {
    var begins, ends := Count(contents, t.begin), Count(contents, t.end);
    if begins == 0 && ends == 0 then Rendered(contents, false)
    else
      var found := if begins == 1 && ends == 1 then Installed(t, contents, CurrentConfigs() + LegacyConfigs()) else None;
      if found.None? then Refused(Modified)
      else
        InstalledEnds(t, contents, CurrentConfigs() + LegacyConfigs());
        Rendered(contents[..|contents| - |Suffix(t, found.value)|], true)
  }

  lemma {:induction false} InstalledEnds(t: Template, contents: string, configs: seq<Config>)
    ensures var found := Installed(t, contents, configs);
      && (found.Some? ==> found.value in configs && EndsWith(contents, Suffix(t, found.value)))
      && (found.None? ==> forall c | c in configs :: !EndsWith(contents, Suffix(t, c)))
  {
    hide Suffix;
    if configs != [] {
      assert configs == [configs[0]] + configs[1..];
      InstalledEnds(t, contents, configs[1..]);
    }
  }

  // ----- templates whose markers stand out -----

  /** No two number signs in a row: such a line cannot hold a marker. */
  predicate Plain(s: string) { OneLine(s) && forall i :: 0 <= i < |s| - 1 ==> !(s[i] == '#' && s[i + 1] == '#') }

  predicate Unhashed(s: string) { OneLine(s) && '#' !in s }

  predicate MarkerLike(s: string) { |s| >= 2 && s[0] == '#' && s[1] == '#' && OneLine(s) }

  predicate Good(t: Template) {
    && MarkerLike(t.begin) && MarkerLike(t.end) && Count(t.begin, t.end) == 0 && Count(t.end, t.begin) == 0
    && (forall s | s in t.comments + t.defaults :: Plain(s))
    && Unhashed(t.loadPrefix) && Unhashed(t.loadSuffix) && Unhashed(t.volumePrefix)
  }

  lemma {:induction false} PlainHoldsNoMarker(s: string, marker: string)
    requires Plain(s) && MarkerLike(marker)
    ensures Count(s, marker) == 0
    decreases |s|
  {
    if s != [] { PlainHoldsNoMarker(s[1..], marker); }
  }

  lemma CountHit(s: string, marker: string)
    requires marker != [] && marker <= s
    ensures Count(s, marker) == 1 + Count(s[|marker|..], marker)
  {}

  lemma CountMiss(s: string, marker: string)
    requires marker != [] && s != [] && !(marker <= s)
    ensures Count(s, marker) == Count(s[1..], marker)
  {}

  /** A marker at the front of a text lies inside the text's first line. */
  lemma MarkerInFirstLine(a: string, b: string, marker: string)
    requires OneLine(marker)
    ensures marker <= a + "\n" + b <==> marker <= a
  {
    var s := a + "\n" + b;
    assert s[|a|] == '\n' && s[..|a|] == a;
    if marker <= s { assert marker == s[..|marker|]; }
  }

  /** Markers hold no newline, so they are counted line by line. */
  lemma {:induction false} CountAcrossNewline(a: string, b: string, marker: string)
    requires MarkerLike(marker)
    ensures Count(a + "\n" + b, marker) == Count(a, marker) + Count(b, marker)
    decreases |a|
  {
    hide Count, OneLine;
    var s := a + "\n" + b;
    MarkerInFirstLine(a, b, marker);
    if a == [] {
      CountNothing(marker);
      CountMiss(s, marker);
      assert s[1..] == b;
    } else if marker <= a {
      CountHit(s, marker);
      CountHit(a, marker);
      CountAcrossNewline(a[|marker|..], b, marker);
      assert s[|marker|..] == a[|marker|..] + "\n" + b;
    } else {
      CountMiss(s, marker);
      CountMiss(a, marker);
      CountAcrossNewline(a[1..], b, marker);
      assert s[1..] == a[1..] + "\n" + b;
    }
  }

  function Sum(lines: seq<string>, marker: string): nat
    requires marker != []
  {
    if lines == [] then 0 else Sum(lines[..|lines| - 1], marker) + Count(lines[|lines| - 1], marker)
  }

  lemma {:induction false} CountJoined(lines: seq<string>, marker: string)
    requires MarkerLike(marker) && lines != []
    ensures Count(Join(lines), marker) == Sum(lines, marker)
  {
    hide Count;
    if |lines| == 1 {
      assert lines[..0] == [];
    } else {
      CountJoined(lines[..|lines| - 1], marker);
      CountAcrossNewline(Join(lines[..|lines| - 1]), lines[|lines| - 1], marker);
    }
  }

  lemma {:induction false} SumConcat(a: seq<string>, b: seq<string>, marker: string)
    requires marker != []
    ensures Sum(a + b, marker) == Sum(a, marker) + Sum(b, marker)
  {
    hide Count;
    if b == [] {
      assert a + b == a;
    } else {
      SumConcat(a, b[..|b| - 1], marker);
      assert (a + b)[..|a + b| - 1] == a + b[..|b| - 1];
    }
  }

  lemma SumOne(line: string, marker: string)
    requires marker != []
    ensures Sum([line], marker) == Count(line, marker)
  {
    hide Count;
    assert [line][..0] == [];
  }

  lemma {:induction false} SumPlain(lines: seq<string>, marker: string)
    requires MarkerLike(marker) && forall s | s in lines :: Plain(s)
    ensures Sum(lines, marker) == 0
  {
    hide Count, Plain;
    if lines != [] {
      SumPlain(lines[..|lines| - 1], marker);
      PlainHoldsNoMarker(lines[|lines| - 1], marker);
    }
  }

  lemma CountItself(marker: string)
    requires marker != []
    ensures Count(marker, marker) == 1
  {
    assert marker[|marker|..] == [];
  }

  // ----- the lines of a block -----

  lemma {:induction false} DecimalIsUnhashed(n: nat)
    ensures Unhashed(Decimal(n))
    ensures forall ch | ch in Decimal(n) :: '0' <= ch <= '9'
  {
    if n >= 10 { DecimalIsUnhashed(n / 10); }
  }

  /** The lines between the markers. */
  function Inner(t: Template, c: Config): seq<string> {
    t.comments + [LoadLine(t, c.m)] + (if c.Current? then [VolumeLine(t, c.percent)] else []) + t.defaults
  }

  lemma InnerIsPlain(t: Template, c: Config)
    requires Good(t)
    ensures forall s | s in Inner(t, c) :: Plain(s)
    ensures Lines(t, c) == [t.begin] + Inner(t, c) + [t.end]
  {
    hide Count, Decimal;
    if c.Current? { DecimalIsUnhashed(RawVolume(c.percent)); }
    assert Unhashed(MethodName(c.m));
    UnhashedIsPlain(LoadLine(t, c.m));
    if c.Current? { UnhashedIsPlain(VolumeLine(t, c.percent)); }
    forall s | s in Inner(t, c) ensures Plain(s) {
      if s in t.comments || s in t.defaults { assert s in t.comments + t.defaults; }
    }
  }

  lemma UnhashedIsPlain(s: string)
    requires Unhashed(s)
    ensures Plain(s)
  {}

  /** A block holds each marker once, and nothing else of it looks like one. */
  lemma BlockCounts(t: Template, c: Config)
    requires Good(t)
    ensures Count(Join(Lines(t, c)), t.begin) == 1 && Count(Join(Lines(t, c)), t.end) == 1
  {
    hide Count, Plain, Inner, Lines, Join;
    InnerIsPlain(t, c);
    forall marker | marker == t.begin || marker == t.end ensures Count(Join(Lines(t, c)), marker) == 1 {
      CountJoined(Lines(t, c), marker);
      SumConcat([t.begin] + Inner(t, c), [t.end], marker);
      SumConcat([t.begin], Inner(t, c), marker);
      SumPlain(Inner(t, c), marker);
      SumOne(t.begin, marker);
      SumOne(t.end, marker);
      CountItself(marker);
    }
  }

  lemma SuffixCounts(t: Template, contents: string, c: Config)
    requires Good(t)
    ensures Count(contents + Suffix(t, c), t.begin) == Count(contents, t.begin) + 1
    ensures Count(contents + Suffix(t, c), t.end) == Count(contents, t.end) + 1
  {
    hide Count, Lines, Join;
    BlockCounts(t, c);
    var block := Join(Lines(t, c));
    assert contents + Suffix(t, c) == contents + "\n" + (block + "\n" + []);
    forall marker | marker == t.begin || marker == t.end
      ensures Count(contents + Suffix(t, c), marker) == Count(contents, marker) + 1
    {
      CountAcrossNewline(contents, block + "\n" + [], marker);
      CountAcrossNewline(block, [], marker);
      CountNothing(marker);
    }
  }

  lemma CountNothing(marker: string)
    requires marker != []
    ensures Count([], marker) == 0
  {}

  // ----- a text ends with at most one block -----

  lemma LastLine(p: string, a: string, q: string, b: string)
    requires OneLine(a) && OneLine(b) && p + "\n" + a == q + "\n" + b
    ensures p == q && a == b
  {
    var s := p + "\n" + a;
    assert s[|p|] == '\n' && s[|q|] == '\n';
    assert forall i | |q| < i < |s| :: s[i] in b;
    assert forall i | |p| < i < |s| :: s[i] in a;
    assert p == s[..|p|] && q == s[..|q|];
    assert a == s[|p| + 1..] && b == s[|q| + 1..];
  }

  /** The text up to the last line, with the newline before that line. */
  lemma JoinLast(p: string, lines: seq<string>)
    requires lines != []
    ensures var last := lines[|lines| - 1];
      p + "\n" + Join(lines) ==
        (if |lines| == 1 then p else p + "\n" + Join(lines[..|lines| - 1])) + "\n" + last
  {}

  lemma {:induction false} SuffixLines(p: string, a: seq<string>, q: string, b: seq<string>)
    requires a != [] && |a| <= |b| && (forall s | s in a + b :: OneLine(s))
    requires p + "\n" + Join(a) == q + "\n" + Join(b)
    ensures a == b[|b| - |a|..]
  {
    hide OneLine, Join;
    var x, y := a[|a| - 1], b[|b| - 1];
    var p1 := if |a| == 1 then p else p + "\n" + Join(a[..|a| - 1]);
    var q1 := if |b| == 1 then q else q + "\n" + Join(b[..|b| - 1]);
    assert x in a + b && y in a + b;
    JoinLast(p, a);
    JoinLast(q, b);
    LastLine(p1, x, q1, y);
    if |a| > 1 {
      assert forall s | s in a[..|a| - 1] + b[..|b| - 1] :: s in a + b;
      SuffixLines(p, a[..|a| - 1], q, b[..|b| - 1]);
      assert a == a[..|a| - 1] + [x] && b == b[..|b| - 1] + [y];
    }
  }

  lemma LinesAreOneLine(t: Template, c: Config)
    requires Good(t)
    ensures forall s | s in Lines(t, c) :: OneLine(s)
    ensures forall i | 0 < i < |Lines(t, c)| - 1 :: Plain(Lines(t, c)[i])
    ensures Lines(t, c)[0] == t.begin && Lines(t, c)[|Lines(t, c)| - 1] == t.end && |Lines(t, c)| >= 2
  {
    hide Count, Inner, Lines;
    InnerIsPlain(t, c);
    var ls := [t.begin] + Inner(t, c) + [t.end];
    forall i | 0 < i < |ls| - 1 ensures Plain(ls[i]) { assert ls[i] == Inner(t, c)[i - 1]; }
    forall s | s in ls ensures OneLine(s) { if s in Inner(t, c) { assert Plain(s); } }
  }

  lemma MarkersDiffer(t: Template)
    requires Good(t)
    ensures t.begin != t.end
  {
    CountItself(t.begin);
  }

  /** Of two block tails of one text neither is longer: the first marker line would be inside the other. */
  lemma TailsHaveTheSameLines(t: Template, contents: string, c: Config, d: Config)
    requires Good(t) && EndsWith(contents, Suffix(t, c)) && EndsWith(contents, Suffix(t, d))
    requires |Lines(t, c)| <= |Lines(t, d)|
    ensures Lines(t, c) == Lines(t, d)
  {
    hide Count, Lines, Join, Good;
    LinesAreOneLine(t, c);
    LinesAreOneLine(t, d);
    var a, b := Lines(t, c), Lines(t, d);
    var p, q := contents[..|contents| - |Suffix(t, c)|], contents[..|contents| - |Suffix(t, d)|];
    assert contents[..|contents| - 1] == p + "\n" + Join(a) == q + "\n" + Join(b);
    SuffixLines(p, a, q, b);
    MarkersDiffer(t);
    NotPlain(t);
    assert b[|b| - |a|] == a[0] == t.begin;
    assert forall i | 0 < i < |b| :: b[i] != t.begin;
  }

  lemma NotPlain(t: Template)
    requires Good(t)
    ensures !Plain(t.begin)
  {
    hide Count;
    assert t.begin[0] == '#' && t.begin[0 + 1] == '#';
  }

  lemma {:induction false} DecimalIsInjective(x: nat, y: nat)
    requires Decimal(x) == Decimal(y)
    ensures x == y
  {
    var a, b := Decimal(x), Decimal(y);
    DecimalLength(x);
    DecimalLength(y);
    assert a[|a| - 1] == Digit(x % 10) && b[|b| - 1] == Digit(y % 10);
    if x >= 10 {
      assert a[..|a| - 1] == Decimal(x / 10) && b[..|b| - 1] == Decimal(y / 10);
      DecimalIsInjective(x / 10, y / 10);
    }
  }

  lemma DecimalLength(n: nat)
    ensures n < 10 <==> |Decimal(n)| == 1
  {}

  /** Different percentages give different raw volumes. */
  lemma RawVolumeIsInjective(v: nat, w: nat)
    ensures RawVolume(v) == RawVolume(w) <==> v == w
  {
    if v < w { assert VOLUME_NORMAL * w >= VOLUME_NORMAL * v + 100; }
    if w < v { assert VOLUME_NORMAL * v >= VOLUME_NORMAL * w + 100; }
  }

  lemma SameMiddle(p: string, x: string, y: string, s: string)
    requires p + x + s == p + y + s
    ensures x == y
  {
    assert |x| == |y|;
    assert x == (p + x + s)[|p|..|p| + |x|] && y == (p + y + s)[|p|..|p| + |y|];
  }

  lemma SameLinesSameConfig(t: Template, c: Config, d: Config)
    requires Lines(t, c) == Lines(t, d)
    ensures c == d
  {
    var k := 1 + |t.comments|;
    assert Lines(t, c)[k] == LoadLine(t, c.m) && Lines(t, d)[k] == LoadLine(t, d.m);
    SameMiddle(t.loadPrefix, MethodName(c.m), MethodName(d.m), t.loadSuffix);
    if c.Current? && d.Current? {
      assert Lines(t, c)[k + 1] == VolumeLine(t, c.percent) && Lines(t, d)[k + 1] == VolumeLine(t, d.percent);
      SameMiddle(t.volumePrefix, Decimal(RawVolume(c.percent)), Decimal(RawVolume(d.percent)), []);
      DecimalIsInjective(RawVolume(c.percent), RawVolume(d.percent));
      RawVolumeIsInjective(c.percent, d.percent);
    }
  }

  /** At most one of all current and legacy blocks ends a given text. */
  lemma AtMostOneBlockMatches(t: Template, contents: string, c: Config, d: Config)
    requires Good(t) && EndsWith(contents, Suffix(t, c)) && EndsWith(contents, Suffix(t, d))
    ensures c == d
  {
    hide Good, Lines, Suffix;
    if |Lines(t, c)| <= |Lines(t, d)| {
      TailsHaveTheSameLines(t, contents, c, d);
    } else {
      TailsHaveTheSameLines(t, contents, d, c);
    }
    SameLinesSameConfig(t, c, d);
  }

  // ----- installing and removing undo each other -----

  predicate Known(c: Config) { c.Legacy? || MIN_VOLUME <= c.percent <= MAX_VOLUME }

  lemma {:induction false} CurrentForHas(m: Method, percent: nat, c: Config)
    ensures c in CurrentFor(m, percent) <==> c.Current? && c.m == m && percent <= c.percent <= MAX_VOLUME
    decreases MAX_VOLUME + 1 - percent
  {
    if percent <= MAX_VOLUME { CurrentForHas(m, percent + 1, c); }
  }

  lemma KnownIsListed(c: Config)
    ensures c in CurrentConfigs() + LegacyConfigs() <==> Known(c)
  {
    hide CurrentConfigs, LegacyConfigs, CurrentFor;
    CurrentForHas(Webrtc, MIN_VOLUME, c);
    CurrentForHas(Speex, MIN_VOLUME, c);
    CurrentForHas(Adrian, MIN_VOLUME, c);
    LegacyIsListed(c);
    CurrentIsListed(c);
  }

  lemma CurrentIsListed(c: Config)
    ensures c in CurrentConfigs() <==>
      c in CurrentFor(Webrtc, MIN_VOLUME) || c in CurrentFor(Speex, MIN_VOLUME) || c in CurrentFor(Adrian, MIN_VOLUME)
  {}

  lemma LegacyIsListed(c: Config)
    ensures c in LegacyConfigs() <==> c.Legacy?
  {
    var all := LegacyConfigs();
    assert all[0] == Legacy(Webrtc) && all[1] == Legacy(Speex) && all[2] == Legacy(Adrian);
    assert c.Legacy? ==> c.m.Webrtc? || c.m.Speex? || c.m.Adrian?;
    assert c.Legacy? ==> c == all[0] || c == all[1] || c == all[2];
  }

  lemma FindsTheBlock(t: Template, contents: string, c: Config)
    requires Good(t) && Known(c)
    ensures Installed(t, contents + Suffix(t, c), CurrentConfigs() + LegacyConfigs()) == Some(c)
  {
    hide Good, Suffix, Installed, CurrentConfigs, LegacyConfigs;
    KnownIsListed(c);
    var text := contents + Suffix(t, c);
    assert text[|text| - |Suffix(t, c)|..] == Suffix(t, c);
    InstalledEnds(t, text, CurrentConfigs() + LegacyConfigs());
    var found := Installed(t, text, CurrentConfigs() + LegacyConfigs());
    AtMostOneBlockMatches(t, text, c, found.value);
  }

  predicate Unmarked(t: Template, contents: string)
    requires Markers(t)
  {
    Count(contents, t.begin) == 0 && Count(contents, t.end) == 0
  }

  /** Removing what an install added gives back the original text, for every text it accepts. */
  lemma RemoveUndoesInstall(t: Template, contents: string, m: Method, percent: nat, source: Lookup, sink: Lookup)
    requires Good(t) && Markers(t)
    ensures var r := RenderInstall(t, contents, m, percent, source, sink);
      r.Rendered? && r.changed ==> r.text != contents && RenderRemove(t, r.text) == Rendered(contents, true)
  {
    hide Good, Suffix, Count, Installed, CurrentConfigs, LegacyConfigs;
    var r := RenderInstall(t, contents, m, percent, source, sink);
    if r.Rendered? && r.changed {
      var c := Current(m, percent);
      SuffixCounts(t, contents, c);
      FindsTheBlock(t, contents, c);
      SuffixIsLong(t, c);
      assert r.text[..|r.text| - |Suffix(t, c)|] == contents;
    }
  }

  lemma SuffixIsLong(t: Template, c: Config)
    ensures |Suffix(t, c)| >= 2
  {}

  /**
   Conversely, installing again what a remove took away gives back the installed text, for every
   text whose remainder the installer accepts; and a removal leaves nothing more to remove.
   */
  lemma InstallUndoesRemove(t: Template, contents: string, m: Method, percent: nat)
    requires Good(t) && Markers(t) && MIN_VOLUME <= percent <= MAX_VOLUME
    requires EndsWith(contents, Suffix(t, Current(m, percent))) && RenderRemove(t, contents).Rendered?
    requires RenderRemove(t, contents).changed
    ensures var rest := RenderRemove(t, contents).text;
      && RenderRemove(t, rest) == Rendered(rest, false)
      && (!Contains(rest, t.sourceName) && !Contains(rest, t.sinkName) ==>
            RenderInstall(t, rest, m, percent, Found, Found) == Rendered(contents, true))
  {
    hide Good, Suffix, Count, Installed, CurrentConfigs, LegacyConfigs, Contains;
    var c := Current(m, percent);
    var rest := contents[..|contents| - |Suffix(t, c)|];
    assert contents == rest + Suffix(t, c);
    FindsTheBlock(t, rest, c);
    SuffixCounts(t, rest, c);
  }

  /**
   On an installed text another install is a no-op exactly for the same method and volume; a different
   one is refused, naming what is installed, and a legacy block is refused whatever is requested.
   */
  lemma InstallOverInstalled(t: Template, contents: string, c: Config, m: Method, percent: nat, source: Lookup, sink: Lookup)
    requires Good(t) && Markers(t) && Known(c) && Unmarked(t, contents) && MIN_VOLUME <= percent <= MAX_VOLUME
    ensures var text := contents + Suffix(t, c);
      RenderInstall(t, text, m, percent, source, sink) ==
        match c {
          case Legacy(n) => Refused(IsLegacy(n))
          case Current(n, v) =>
            if n != m then Refused(OtherMethod(n, v)) else if v != percent then Refused(OtherVolume(v)) else Rendered(text, false)
        }
  {
    hide Good, Suffix, Count, Installed, CurrentConfigs, LegacyConfigs;
    SuffixCounts(t, contents, c);
    FindsTheBlock(t, contents, c);
  }

  // ----- reading the installed block back -----

  /** The number a run of decimal digits spells. */
  function ValueOf(digits: string): int {
    if digits == [] then 0 else ValueOf(digits[..|digits| - 1]) * 10 + (digits[|digits| - 1] as int - '0' as int)
  }

  predicate AllDigits(s: string) { forall c | c in s :: '0' <= c <= '9' }

  lemma {:induction false} DecimalReads(n: nat)
    ensures AllDigits(Decimal(n)) && ValueOf(Decimal(n)) == n
  {
    var s := Decimal(n);
    if n < 10 {
      assert s[..0] == [];
    } else {
      DecimalReads(n / 10);
      assert s[..|s| - 1] == Decimal(n / 10) && s[|s| - 1] == Digit(n % 10);
      assert s == s[..|s| - 1] + [s[|s| - 1]];
    }
  }

  /** The method a name is for, as PulseAudio spells them. */
  function Spelled(name: string): Option<Method> {
    if name == "webrtc" then Some(Webrtc)
    else if name == "speex" then Some(Speex)
    else if name == "adrian" then Some(Adrian)
    else None
  }

  /** The raw volume is the percentage of 65,536, cut to a whole number. */
  lemma RawVolumeIsFloor(percent: nat)
    ensures var raw := RawVolume(percent); 100 * raw <= VOLUME_NORMAL * percent < 100 * (raw + 1)
  {}

  predicate Accepts(t: Template, contents: string, percent: nat, source: Lookup, sink: Lookup)
    requires Markers(t)
  {
    && MIN_VOLUME <= percent <= MAX_VOLUME && Count(contents, t.begin) == 0 && Count(contents, t.end) == 0
    && !Contains(contents, t.sourceName) && !Contains(contents, t.sinkName) && source.Found? && sink.Found?
  }

  /** The block's module line spells the method, and its volume line, in decimal, the raw volume of the percentage. */
  predicate BlockOf(t: Template, block: string, name: string, digits: string) {
    block == "\n" + Join([t.begin] + t.comments + [t.loadPrefix + name + t.loadSuffix] + [t.volumePrefix + digits]
                         + t.defaults + [t.end]) + "\n"
  }

  predicate ReadsBack(name: string, digits: string, m: Method, percent: nat) {
    && Spelled(name) == Some(m) && AllDigits(digits)
    && 100 * ValueOf(digits) <= VOLUME_NORMAL * percent < 100 * (ValueOf(digits) + 1)
  }

  lemma SuffixReadsBack(t: Template, m: Method, percent: nat)
    ensures BlockOf(t, Suffix(t, Current(m, percent)), MethodName(m), Decimal(RawVolume(percent)))
    ensures ReadsBack(MethodName(m), Decimal(RawVolume(percent)), m, percent)
  {
    hide Join, Decimal;
    DecimalReads(RawVolume(percent));
    RawVolumeIsFloor(percent);
    NameReads(m);
  }

  /**
   A text is installed into exactly when it holds no marker and no managed name, has both masters and the percentage
   is from 1 to 60. What is added is one block whose module line spells the method, and whose volume line spells, in
   decimal, the greatest whole number that is at most that percentage of 65,536.
   */
  lemma InstalledReadsBack(t: Template, contents: string, m: Method, percent: nat, source: Lookup, sink: Lookup)
    requires Markers(t)
    ensures var r := RenderInstall(t, contents, m, percent, source, sink);
      && (r.Rendered? && r.changed <==> Accepts(t, contents, percent, source, sink))
      && (r.Rendered? && r.changed ==>
            contents <= r.text && exists name: string, digits: string ::
                                    BlockOf(t, r.text[|contents|..], name, digits) && ReadsBack(name, digits, m, percent))
  {
    hide Count, Contains, Installed, BlockOf, ReadsBack, Suffix, Decimal, MethodName;
    SuffixReadsBack(t, m, percent);
    var r := RenderInstall(t, contents, m, percent, source, sink);
    if r.Rendered? && r.changed { assert r.text[|contents|..] == Suffix(t, Current(m, percent)); }
  }

  lemma NameReads(m: Method)
    ensures Spelled(MethodName(m)) == Some(m)
  {}

  // ----- the installer's own wording -----

  function Words(words: seq<string>): string {
    if words == [] then "" else if |words| == 1 then words[0] else words[0] + " " + Words(words[1..])
  }

  function Begin(): seq<string> { ["BEGIN", "HA", "CODEX", "VOICE", "AEC", "(managed)"] }

  function End(): seq<string> { ["END", "HA", "CODEX", "VOICE", "AEC", "(managed)"] }

  function Remain(): seq<string> {
    ["This", "block", "must", "remain", "after", "the", "raw", "module-alsa-source/sink", "definitions."]
  }

  function Fail(): seq<string> {
    [".fail", "makes", "a", "missing/broken", "AEC", "module", "fail", "voice", "startup", "instead", "of"]
  }

  function Permitting(): seq<string> {
    ["permitting", "an", "unsafe", "full-duplex", "route", "without", "echo", "cancellation."]
  }

  function LoadMasters(): seq<string> {
    ["load-module", "module-echo-cancel", "source_master=" + "alsa_input.hw_0_2", "sink_master=" + "alsa_output.hw_0_1"]
  }

  function LoadNames(): seq<string> {
    ["source_name=" + SourceName(), "sink_name=" + SinkName(), "aec_method="]
  }

  function SourceName(): string { "codex_echo_cancel_source" }

  function SinkName(): string { "codex_echo_cancel_sink" }

  function Deployed(): Template {
    Template(
      "### " + Words(Begin()), "### " + Words(End()),
      ["# " + Words(Remain()), "# " + Words(Fail()), "# " + Words(Permitting()), ".fail"],
      Words(LoadMasters()) + " " + Words(LoadNames()), " use_master_format=1",
      "set-sink-volume " + SinkName() + " ",
      ["set-default-source " + SourceName(), "set-default-sink " + SinkName()],
      SourceName(), SinkName())
  }

  lemma {:induction false} WordsAreUnhashed(words: seq<string>)
    requires words != [] && forall i | 0 <= i < |words| :: Unhashed(words[i])
    ensures Unhashed(Words(words)) && words[0] <= Words(words)
  {
    if |words| > 1 { WordsAreUnhashed(words[1..]); }
  }

  lemma MarkersAreUnhashed()
    ensures Unhashed(Words(Begin())) && Unhashed(Words(End()))
    ensures Words(Begin()) != [] && Words(Begin())[0] == 'B' && Words(End()) != [] && Words(End())[0] == 'E'
  {
    hide Words;
    WordsAreUnhashed(Begin());
    WordsAreUnhashed(End());
    assert Begin()[0][0] == 'B' && End()[0][0] == 'E';
  }

  lemma RemainIsUnhashed()
    ensures Unhashed(Words(Remain()))
  {
    hide Words;
    WordsAreUnhashed(Remain());
  }

  lemma FailIsUnhashed()
    ensures Unhashed(Words(Fail()))
  {
    hide Words;
    WordsAreUnhashed(Fail());
  }

  lemma PermittingIsUnhashed()
    ensures Unhashed(Words(Permitting()))
  {
    hide Words;
    WordsAreUnhashed(Permitting());
  }

  lemma NamesAreUnhashed()
    ensures Unhashed(SourceName()) && Unhashed(SinkName())
  {}

  lemma LoadMastersAreUnhashed()
    ensures Unhashed(Words(LoadMasters()))
  {
    hide Words;
    assert Unhashed("alsa_input.hw_0_2") && Unhashed("alsa_output.hw_0_1");
    WordsAreUnhashed(LoadMasters());
  }

  lemma LoadNamesAreUnhashed()
    ensures Unhashed(Words(LoadNames()))
  {
    hide Words, SourceName, SinkName;
    NamesAreUnhashed();
    WordsAreUnhashed(LoadNames());
  }

  lemma JoinedAreUnhashed(a: string, b: string)
    requires Unhashed(a) && Unhashed(b)
    ensures Unhashed(a + " " + b) && Unhashed(a + b) && Unhashed(a + " ")
  {}

  /** A single number sign at the front leaves a line plain. */
  lemma CommentIsPlain(rest: string)
    requires Unhashed(rest)
    ensures Plain("# " + rest)
  {}

  lemma DeployedLines()
    ensures var t := Deployed();
      && (forall s | s in t.comments + t.defaults :: Plain(s))
      && Unhashed(t.loadPrefix) && Unhashed(t.loadSuffix) && Unhashed(t.volumePrefix)
  {
    hide Plain, Words, Remain, Fail, Permitting, LoadMasters, LoadNames, SourceName, SinkName, Unhashed;
    RemainIsUnhashed();
    FailIsUnhashed();
    PermittingIsUnhashed();
    LoadMastersAreUnhashed();
    LoadNamesAreUnhashed();
    JoinedAreUnhashed(Words(LoadMasters()), Words(LoadNames()));
    CommentIsPlain(Words(Remain()));
    CommentIsPlain(Words(Fail()));
    CommentIsPlain(Words(Permitting()));
    ShortLines();
  }

  lemma ShortLines()
    ensures Plain(".fail") && Plain("set-default-source " + SourceName()) && Plain("set-default-sink " + SinkName())
    ensures Unhashed(" use_master_format=1") && Unhashed("set-sink-volume " + SinkName() + " ")
  {
    hide SourceName, SinkName;
    NamesAreUnhashed();
    UnhashedIsPlain("set-default-source " + SourceName());
    UnhashedIsPlain("set-default-sink " + SinkName());
    JoinedAreUnhashed("set-sink-volume " + SinkName(), "");
  }

  /** A marker does not occur in another one that begins differently. */
  lemma OtherMarker(rest: string, marker: string)
    requires Unhashed(rest) && rest != [] && |marker| > 4 && marker[..4] == "### " && marker[4] != rest[0] && MarkerLike(marker)
    ensures Count("### " + rest, marker) == 0
  {
    var s := "### " + rest;
    assert marker[0] == marker[..4][0] && marker[1] == marker[..4][1] && marker[2] == marker[..4][2];
    var s1, s2 := s[1..], s[1..][1..];
    assert s[4] == rest[0] && s1 == "## " + rest && s2 == "# " + rest;
    assert s1[2] == ' ' && s2[1] == ' ';
    CommentIsPlain(rest);
    PlainHoldsNoMarker(s2, marker);
    assert Count(s1, marker) == Count(s2, marker);
    assert Count(s, marker) == Count(s1, marker);
  }

  lemma DeployedMarkers()
    ensures var t := Deployed();
      MarkerLike(t.begin) && MarkerLike(t.end) && Count(t.begin, t.end) == 0 && Count(t.end, t.begin) == 0
  {
    hide Words, Begin, End, Remain, Fail, Permitting, LoadMasters, LoadNames, SourceName, SinkName, Count;
    MarkersAreUnhashed();
    var begin, end := "### " + Words(Begin()), "### " + Words(End());
    assert begin[..4] == "### " && end[..4] == "### ";
    OneLineMarker(Words(Begin()));
    OneLineMarker(Words(End()));
    OtherMarker(Words(Begin()), end);
    OtherMarker(Words(End()), begin);
  }

  lemma OneLineMarker(rest: string)
    requires Unhashed(rest)
    ensures MarkerLike("### " + rest)
  {}

  /** The block the installer writes meets the conditions of everything proved above. */
  lemma DeployedIsGood()
    ensures Good(Deployed()) && Markers(Deployed())
  {
    hide Deployed, Plain, Count, Unhashed;
    DeployedMarkers();
    DeployedLines();
  }

  /** With the installer's own wording: install then remove, install twice, and one block at most. */
  lemma DeployedRoundTrip(contents: string, m: Method, percent: nat, source: Lookup, sink: Lookup)
    ensures var t := Deployed();
      Markers(t) &&
      var r := RenderInstall(t, contents, m, percent, source, sink);
      r.Rendered? && r.changed ==>
        && RenderRemove(t, r.text) == Rendered(contents, true)
        && RenderInstall(t, r.text, m, percent, source, sink) == Rendered(r.text, false)
  {
    hide Deployed, Good, Suffix, Count, Installed, CurrentConfigs, LegacyConfigs, Contains;
    DeployedIsGood();
    var t := Deployed();
    RemoveUndoesInstall(t, contents, m, percent, source, sink);
    if MIN_VOLUME <= percent <= MAX_VOLUME && Unmarked(t, contents) {
      InstallOverInstalled(t, contents, Current(m, percent), m, percent, source, sink);
    }
  }
}
