/** The YouTube `contentDetails.duration` value: the time-designator form of ISO 8601
    (section 4.4.3.2 of ISO 8601:2004), read with `PT(?:(\d+)H)?(?:(\d+)M)?(?:(\d+)S)?`.
    Python uses `re.match` (anchored at the start); JavaScript's `String.match` finds
    the leftmost "PT" anywhere in the string. */
module Duration {
  import opened Text
  import opened Wrappers

  datatype Parts = Parts(hours: nat, minutes: nat, seconds: nat)

  /** Length of the longest ASCII-digit prefix. */
  function DigitRun(s: string): (n: nat)
    ensures n <= |s| && AllDigits(s[..n])
    ensures n < |s| ==> !IsDigit(s[n])
  {
    if |s| == 0 || !IsDigit(s[0]) then 0
    else
      var k := DigitRun(s[1..]);
      assert s[..k + 1] == [s[0]] + s[1..][..k];
      k + 1
  }

  /** One optional group `(?:(\d+)U)?`: the greedy digit run is taken only when the
      unit letter follows it; otherwise the group is skipped and nothing is consumed. */
  function Component(s: string, unit: char): (r: (nat, string))
    ensures |r.1| <= |s|
  {
    var d := DigitRun(s);
    if 0 < d < |s| && s[d] == unit then (DigitsToNat(s[..d]), s[d + 1..]) else (0, s)
  }

  /** The three optional groups read after a leading "PT". */
  function Groups(s: string): Parts
    requires StartsWith(s, "PT")
  {
    var (h, r1) := Component(s[2..], 'H');
    var (m, r2) := Component(r1, 'M');
    var (sec, _) := Component(r2, 'S');
    Parts(h, m, sec)
  }

  /** Python `re.match(pattern, s)`: a match exists iff `s` starts with "PT". */
  function PyMatch(s: string): (r: Option<Parts>)
    ensures r.Some? <==> StartsWith(s, "PT")
  {
    if StartsWith(s, "PT") then Some(Groups(s)) else None
  }

  /** JavaScript `s.match(pattern)`: the match starts at the leftmost "PT". */
  function JsMatch(s: string): (r: Option<Parts>)
    ensures r.Some? <==> Contains(s, "PT")
    decreases |s|
  {
    if StartsWith(s, "PT") then Some(Groups(s))
    else if |s| == 0 then None
    else JsMatch(s[1..])
  }

  function TotalSeconds(p: Parts): nat { p.hours * 3600 + p.minutes * 60 + p.seconds }

  /** main.py:1084-1089 (and 1257-1262): seconds of a duration, 0 when it does not match. */
  function PySeconds(s: string): nat
  {
    match PyMatch(s)
    case None => 0
    case Some(p) => TotalSeconds(p)
  }

  /** `m:SS` clock text. */
  function Clock(minutes: nat, seconds: nat): string
  {
    NatToString(minutes) + ":" + Pad2(seconds)
  }

  /** `h:MM:SS` clock text. */
  function LongClock(hours: nat, minutes: nat, seconds: nat): string
  {
    NatToString(hours) + ":" + Pad2(minutes) + ":" + Pad2(seconds)
  }

  /** Keyword worker's `_format_duration` (main.py:1790-1813): hours are folded into
      the minutes. Both inner branches of the source print the same text. */
  function KeywordFormat(s: string): string
  {
    match PyMatch(s)
    case None => "0:00"
    case Some(p) =>
      if p.hours > 0 then Clock(p.hours * 60 + p.minutes, p.seconds)
      else if p.minutes == 0 && p.seconds > 0 then "0:" + Pad2(p.seconds)
      else Clock(p.minutes, p.seconds)
  }

  /** Similar-video worker's `_format_duration` (main.py:970-991): `h:MM:SS` when hours > 0. */
  function SimilarFormat(s: string): string
  {
    if |s| == 0 then "0:00"
    else match PyMatch(s)
      case None => "0:00"
      case Some(p) =>
        if p.hours > 0 then LongClock(p.hours, p.minutes, p.seconds) else Clock(p.minutes, p.seconds)
  }

  /** `parseDurationToSeconds` (lib/youtube.ts:91-104). */
  function TsSeconds(s: string): nat
  {
    if |s| == 0 then 0
    else match JsMatch(s)
      case None => 0
      case Some(p) => TotalSeconds(p)
  }

  /** `formatDuration` (lib/youtube.ts:109-126). */
  function TsFormat(s: string): string
  {
    if |s| == 0 then "0:00"
    else match JsMatch(s)
      case None => "0:00"
      case Some(p) =>
        if p.hours > 0 then LongClock(p.hours, p.minutes, p.seconds) else Clock(p.minutes, p.seconds)
  }

  /** The canonical text of a duration, with every designator present. */
  function Render(p: Parts): string
  {
    "PT" + NatToString(p.hours) + "H" + NatToString(p.minutes) + "M" + NatToString(p.seconds) + "S"
  }

  lemma {:induction false} DigitRunOfRendered(n: nat, rest: string)
    requires |rest| > 0 && !IsDigit(rest[0])
    ensures DigitRun(NatToString(n) + rest) == |NatToString(n)|
    ensures (NatToString(n) + rest)[..|NatToString(n)|] == NatToString(n)
  {
    var s := NatToString(n);
    DigitRunPrefix(s, rest);
  }

  lemma {:induction false} DigitRunPrefix(s: string, rest: string)
    requires AllDigits(s) && |rest| > 0 && !IsDigit(rest[0])
    ensures DigitRun(s + rest) == |s|
    ensures (s + rest)[..|s|] == s
    decreases |s|
  {
    if |s| > 0 {
      assert (s + rest)[1..] == s[1..] + rest;
      DigitRunPrefix(s[1..], rest);
    } else {
      assert s + rest == rest;
    }
  }

  lemma ComponentOfRendered(n: nat, unit: char, rest: string)
    requires !IsDigit(unit)
    ensures Component(NatToString(n) + [unit] + rest, unit) == (n, rest)
  {
    var t := NatToString(n) + [unit] + rest;
    assert t == NatToString(n) + ([unit] + rest);
    DigitRunOfRendered(n, [unit] + rest);
    DigitsRoundTrip(n);
    assert t[|NatToString(n)| + 1..] == rest;
  }

  /** Round trip: reading the canonical text gives the duration back, in both engines. */
  lemma RenderRoundTrip(p: Parts)
    ensures PyMatch(Render(p)) == Some(p)
    ensures JsMatch(Render(p)) == Some(p)
  {
    var hs, ms, ss := NatToString(p.hours), NatToString(p.minutes), NatToString(p.seconds);
    var s := Render(p);
    assert s == "PT" + (hs + ['H'] + (ms + ['M'] + (ss + ['S'])));
    assert s[..2] == "PT";
    assert s[2..] == hs + ['H'] + (ms + ['M'] + (ss + ['S']));
    ComponentOfRendered(p.hours, 'H', ms + ['M'] + (ss + ['S']));
    ComponentOfRendered(p.minutes, 'M', ss + ['S']);
    ComponentOfRendered(p.seconds, 'S', []);
    assert ss + ['S'] == ss + ['S'] + [];
  }

  /** Keyword formatting shows whole minutes then two-digit seconds: when the seconds
      field is below 60 it is the `m:SS` rendering of the total number of seconds. */
  lemma KeywordFormatIsTotalClock(s: string)
    requires PyMatch(s).Some? && PyMatch(s).value.seconds < 60
    ensures KeywordFormat(s) == Clock(PySeconds(s) / 60, PySeconds(s) % 60)
  {
    var p := PyMatch(s).value;
    var t := p.hours * 60 + p.minutes;
    assert PySeconds(s) == t * 60 + p.seconds;
    DivMod60(t, p.seconds);
    KeywordFormatParts(s, p);
  }

  lemma KeywordFormatParts(s: string, p: Parts)
    requires PyMatch(s) == Some(p)
    ensures KeywordFormat(s) == Clock(p.hours * 60 + p.minutes, p.seconds)
  {
    var m := p.hours * 60 + p.minutes;
    if p.hours == 0 {
      assert m == p.minutes;
      if p.minutes == 0 && p.seconds > 0 {
        ClockOfZero(p.seconds);
      }
    }
  }

  lemma ClockOfZero(sec: nat)
    ensures Clock(0, sec) == "0:" + Pad2(sec)
  {
    ZeroString();
    assert Clock(0, sec) == "0" + ":" + Pad2(sec);
  }

  lemma ZeroString()
    ensures NatToString(0) == "0"
  {
    assert DigitChar(0) == '0';
  }

  lemma DivMod60(t: nat, sec: nat)
    requires sec < 60
    ensures (t * 60 + sec) / 60 == t && (t * 60 + sec) % 60 == sec
  {
  }

  /** Input not starting with "PT" (including the empty string) formats as "0:00". */
  lemma KeywordFormatNoMatch(s: string)
    requires !StartsWith(s, "PT")
    ensures KeywordFormat(s) == "0:00" && PySeconds(s) == 0
  {
  }

  function Colons(s: string): nat { CountWhere(s, c => c == ':') }

  lemma ColonsOfDigits(s: string)
    requires AllDigits(s)
    ensures Colons(s) == 0
  {
    CountWhereZero(s, c => c == ':');
  }

  lemma ClockColons(m: nat, sec: nat)
    ensures Colons(Clock(m, sec)) == 1
  {
    ColonsOfDigits(NatToString(m));
    ColonsOfDigits(Pad2(sec));
    CountWhereAppend(NatToString(m), ":", c => c == ':');
    CountWhereAppend(NatToString(m) + ":", Pad2(sec), c => c == ':');
  }

  lemma LongClockColons(h: nat, m: nat, sec: nat)
    ensures Colons(LongClock(h, m, sec)) == 2
  {
    ColonsOfDigits(NatToString(h));
    ColonsOfDigits(Pad2(m));
    ColonsOfDigits(Pad2(sec));
    var a := NatToString(h) + ":";
    CountWhereAppend(NatToString(h), ":", c => c == ':');
    CountWhereAppend(a, Pad2(m), c => c == ':');
    CountWhereAppend(a + Pad2(m), ":", c => c == ':');
    CountWhereAppend(a + Pad2(m) + ":", Pad2(sec), c => c == ':');
  }

  /** The two Python formatters agree exactly on durations under an hour and disagree
      on every duration with an hours field: the keyword form never shows hours. */
  lemma FormattersAgreeIffNoHours(s: string)
    requires PyMatch(s).Some?
    ensures KeywordFormat(s) == SimilarFormat(s) <==> PyMatch(s).value.hours == 0
    ensures Colons(KeywordFormat(s)) == 1
  {
    var p := PyMatch(s).value;
    KeywordFormatParts(s, p);
    ClockColons(p.hours * 60 + p.minutes, p.seconds);
    assert |s| > 0;
    if p.hours > 0 {
      assert SimilarFormat(s) == LongClock(p.hours, p.minutes, p.seconds);
      LongClockColons(p.hours, p.minutes, p.seconds);
    } else {
      assert SimilarFormat(s) == Clock(p.minutes, p.seconds);
    }
  }

  /** The TypeScript reader agrees with Python's on every string that starts with "PT";
      it also reads durations that merely contain "PT" further on, where Python gives 0. */
  lemma TsAgreesWithPython(s: string)
    ensures StartsWith(s, "PT") ==> TsSeconds(s) == PySeconds(s) && TsFormat(s) == SimilarFormat(s)
    ensures !Contains(s, "PT") ==> TsSeconds(s) == 0 && TsFormat(s) == "0:00"
  {
  }

  /** A seconds count is recovered from its rendering: parse(render(p)) == total seconds. */
  lemma SecondsOfRendered(p: Parts)
    ensures PySeconds(Render(p)) == TotalSeconds(p) && TsSeconds(Render(p)) == TotalSeconds(p)
  {
    RenderRoundTrip(p);
  }
}
