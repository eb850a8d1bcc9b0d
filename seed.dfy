/** Resolving the seed of a similar-video search: the 11-character video id inside a
    YouTube URL (main.py:720-743; lib/youtube.ts:64-86 has the same six patterns),
    the language-to-region table, and the upload-period window. */
module Seed {
  import opened Text
  import opened Wrappers
  import Language

  /** `[a-zA-Z0-9_-]` */
  predicate IsIdChar(c: char) { IsAsciiWord(c) || c == '-' }

  predicate IsVideoId(id: string) { |id| == 11 && forall i :: 0 <= i < 11 ==> IsIdChar(id[i]) }

  /** Eleven id characters start at index `i` of `s`. */
  predicate IdAt(s: string, i: nat)
  {
    i + 11 <= |s| && IsVideoId(s[i..i + 11])
  }

  /** `lit([a-zA-Z0-9_-]{11})` searched anywhere: the group after the leftmost
      occurrence of `lit` that is followed by eleven id characters. The optional
      `(?:https?://)?(?:www\.)?` prefixes of the source patterns only move the start of
      the match, never which occurrence of the literal is taken. */
  function FindLiteral(s: string, lit: string): (r: Option<string>)
    requires |lit| > 0
    ensures r.Some? ==> IsVideoId(r.value)
    decreases |s|
  {
    if StartsWith(s, lit) && IdAt(s, |lit|) then Some(s[|lit|..|lit| + 11])
    else if |s| == 0 then None
    else FindLiteral(s[1..], lit)
  }

  /** `.*v=([a-zA-Z0-9_-]{11})` anchored at the start of `t`: the greedy `.*` (which
      does not cross a newline) makes the LAST `v=` on the line that is followed by
      eleven id characters win. */
  function LastVId(t: string): (r: Option<string>)
    ensures r.Some? ==> IsVideoId(r.value)
    decreases |t|
  {
    var here := if StartsWith(t, "v=") && IdAt(t, 2) then Some(t[2..13]) else None;
    if |t| == 0 || t[0] == '\n' then here
    else match LastVId(t[1..])
      case Some(x) => Some(x)
      case None => here
  }

  /** `lit.*v=([a-zA-Z0-9_-]{11})` searched anywhere. */
  function FindWatch(s: string, lit: string): (r: Option<string>)
    requires |lit| > 0
    ensures r.Some? ==> IsVideoId(r.value)
    decreases |s|
  {
    if StartsWith(s, lit) && LastVId(s[|lit|..]).Some? then LastVId(s[|lit|..])
    else if |s| == 0 then None
    else FindWatch(s[1..], lit)
  }

  const Shorts := "youtube.com/shorts/"
  const Watch := "youtube.com/watch?"
  const ShortLink := "youtu.be/"
  const Embed := "youtube.com/embed/"
  const MobileWatch := "m.youtube.com/watch?"

  /** The six patterns in source order; the first that matches decides. Pattern 2,
      `(?:m\.)?youtube\.com/shorts/…`, searches for the same literal as pattern 1 and
      so can only match where pattern 1 already did; it is not repeated here. Pattern
      6 is kept as written; `MobileWatchSubsumed` shows it never decides either. */
  function ExtractVideoId(url: string): (r: Option<string>)
    ensures |url| == 0 ==> r == None
    ensures r.Some? ==> IsVideoId(r.value)
    ensures FindLiteral(url, Shorts).Some? ==> r == FindLiteral(url, Shorts)
  {
    if |url| == 0 then None
    else if FindLiteral(url, Shorts).Some? then FindLiteral(url, Shorts)
    else if FindWatch(url, Watch).Some? then FindWatch(url, Watch)
    else if FindLiteral(url, ShortLink).Some? then FindLiteral(url, ShortLink)
    else if FindLiteral(url, Embed).Some? then FindLiteral(url, Embed)
    else FindWatch(url, MobileWatch)
  }

  // ---------------------------------------------------------------- facts about the search

  lemma {:induction false} FindLiteralShort(s: string, lit: string)
    requires |lit| > 0 && |s| < |lit|
    ensures FindLiteral(s, lit) == None
    decreases |s|
  {
    if |s| > 0 { FindLiteralShort(s[1..], lit); }
  }

  lemma {:induction false} FindLiteralSkip(s: string, lit: string, k: nat)
    requires |lit| > 0 && k <= |s|
    requires forall p :: 0 <= p < k ==> s[p] != lit[0]
    ensures FindLiteral(s, lit) == FindLiteral(s[k..], lit)
    decreases k
  {
    if k > 0 {
      if |lit| <= |s| { assert s[..|lit|][0] == s[0]; }
      assert forall p :: 0 <= p < k - 1 ==> s[1..][p] == s[p + 1];
      FindLiteralSkip(s[1..], lit, k - 1);
      assert s[1..][k - 1..] == s[k..];
    }
  }

  lemma {:induction false} FindWatchSkip(s: string, lit: string, k: nat)
    requires |lit| > 0 && k <= |s|
    requires forall p :: 0 <= p < k ==> s[p] != lit[0]
    ensures FindWatch(s, lit) == FindWatch(s[k..], lit)
    decreases k
  {
    if k > 0 {
      if |lit| <= |s| { assert s[..|lit|][0] == s[0]; }
      assert forall p :: 0 <= p < k - 1 ==> s[1..][p] == s[p + 1];
      FindWatchSkip(s[1..], lit, k - 1);
      assert s[1..][k - 1..] == s[k..];
    }
  }

  lemma {:induction false} FindWatchShort(s: string, lit: string)
    requires |lit| > 0 && |s| < |lit|
    ensures FindWatch(s, lit) == None
    decreases |s|
  {
    if |s| > 0 { FindWatchShort(s[1..], lit); }
  }

  /** A prefix without the literal's first character is skipped over. */
  lemma FindLiteralAfter(pre: string, rest: string, lit: string)
    requires |lit| > 0 && forall p :: 0 <= p < |pre| ==> pre[p] != lit[0]
    ensures FindLiteral(pre + rest, lit) == FindLiteral(rest, lit)
  {
    var s := pre + rest;
    assert forall p :: 0 <= p < |pre| ==> s[p] == pre[p];
    FindLiteralSkip(s, lit, |pre|);
    assert s[|pre|..] == rest;
  }

  lemma FindWatchAfter(pre: string, rest: string, lit: string)
    requires |lit| > 0 && forall p :: 0 <= p < |pre| ==> pre[p] != lit[0]
    ensures FindWatch(pre + rest, lit) == FindWatch(rest, lit)
  {
    var s := pre + rest;
    assert forall p :: 0 <= p < |pre| ==> s[p] == pre[p];
    FindWatchSkip(s, lit, |pre|);
    assert s[|pre|..] == rest;
  }

  /** Where the literal does not start, the search moves one character on. */
  lemma FindLiteralNotHere(c: char, rest: string, lit: string)
    requires |lit| > 0 && !StartsWith([c] + rest, lit)
    ensures FindLiteral([c] + rest, lit) == FindLiteral(rest, lit)
  {
    assert ([c] + rest)[1..] == rest;
  }

  lemma FindWatchNotHere(c: char, rest: string, lit: string)
    requires |lit| > 0 && !StartsWith([c] + rest, lit)
    ensures FindWatch([c] + rest, lit) == FindWatch(rest, lit)
  {
    assert ([c] + rest)[1..] == rest;
  }

  /** An id right after the literal is found there. */
  lemma LiteralThenId(lit: string, id: string)
    requires |lit| > 0 && IsVideoId(id)
    ensures FindLiteral(lit + id, lit) == Some(id)
  {
    var t := lit + id;
    assert t[..|lit|] == lit;
    assert t[|lit|..|lit| + 11] == id;
  }

  lemma {:induction false} LastVIdNoEquals(t: string)
    requires forall i :: 0 <= i < |t| ==> t[i] != '='
    ensures LastVId(t) == None
    decreases |t|
  {
    if |t| > 0 { LastVIdNoEquals(t[1..]); }
  }

  lemma IdHasNoSeparators(id: string)
    requires IsVideoId(id)
    ensures forall i :: 0 <= i < |id| ==> id[i] != '=' && id[i] != '.' && id[i] != '/' && id[i] != '?'
  {
  }

  /** The scheme and host part in front of "youtube.com/…" or "youtu.be/…", such as
      "https://www." or "http://", which every URL form allows and none contains a 'y'. */
  predicate NoY(pre: string) { forall p :: 0 <= p < |pre| ==> pre[p] != 'y' }

  /** Round trip for the shorts form: the id is read back. */
  lemma ShortsUrlRoundTrip(pre: string, id: string)
    requires NoY(pre) && IsVideoId(id)
    ensures ExtractVideoId(pre + Shorts + id) == Some(id)
  {
    assert pre + Shorts + id == pre + (Shorts + id);
    FindLiteralAfter(pre, Shorts + id, Shorts);
    LiteralThenId(Shorts, id);
  }

  lemma ShortsNotAtWatchStart(id: string)
    ensures FindLiteral(Watch + "v=" + id, Shorts) == FindLiteral("outube.com/watch?v=" + id, Shorts)
  {
    var rest := "outube.com/watch?v=" + id;
    assert Watch + "v=" + id == ['y'] + rest;
    assert (['y'] + rest)[12] == 'w';
    FindLiteralNotHere('y', rest, Shorts);
  }

  lemma ShortsNotInWatchTail(id: string)
    requires IsVideoId(id)
    ensures FindLiteral("outube.com/watch?v=" + id, Shorts) == None
  {
    FindLiteralAfter("outube.com/watch?v=", id, Shorts);
    FindLiteralShort(id, Shorts);
  }

  lemma ShortsAbsentFromWatchUrl(pre: string, id: string)
    requires NoY(pre) && IsVideoId(id)
    ensures FindLiteral(pre + Watch + "v=" + id, Shorts) == None
  {
    assert pre + Watch + "v=" + id == pre + (Watch + "v=" + id);
    FindLiteralAfter(pre, Watch + "v=" + id, Shorts);
    ShortsNotAtWatchStart(id);
    ShortsNotInWatchTail(id);
  }

  lemma LastVIdOfParameter(id: string)
    requires IsVideoId(id)
    ensures LastVId("v=" + id) == Some(id)
  {
    var t := "v=" + id;
    IdHasNoSeparators(id);
    assert t[1..] == "=" + id;
    assert t[1..][1..] == id;
    LastVIdNoEquals(id);
    assert LastVId(t[1..]) == None;
    assert t[2..13] == id;
  }

  lemma FindWatchHere(s: string, lit: string)
    requires |lit| > 0 && StartsWith(s, lit) && LastVId(s[|lit|..]).Some?
    ensures FindWatch(s, lit) == LastVId(s[|lit|..])
  {
  }

  lemma WatchFoundAfterHost(id: string)
    requires IsVideoId(id)
    ensures FindWatch(Watch + "v=" + id, Watch) == Some(id)
  {
    var u := Watch + "v=" + id;
    assert u[..|Watch|] == Watch;
    assert u[|Watch|..] == "v=" + id;
    LastVIdOfParameter(id);
    FindWatchHere(u, Watch);
  }

  lemma WatchFoundInWatchUrl(pre: string, id: string)
    requires NoY(pre) && IsVideoId(id)
    ensures FindWatch(pre + Watch + "v=" + id, Watch) == Some(id)
  {
    assert pre + Watch + "v=" + id == pre + (Watch + "v=" + id);
    FindWatchAfter(pre, Watch + "v=" + id, Watch);
    WatchFoundAfterHost(id);
  }

  /** Round trip for the watch form: neither shorts pattern fires, the watch pattern does. */
  lemma WatchUrlRoundTrip(pre: string, id: string)
    requires NoY(pre) && IsVideoId(id)
    ensures ExtractVideoId(pre + Watch + "v=" + id) == Some(id)
  {
    ShortsAbsentFromWatchUrl(pre, id);
    WatchFoundInWatchUrl(pre, id);
  }

  /** Round trip for the short-link form. */
  lemma ShortLinkRoundTrip(pre: string, id: string)
    requires NoY(pre) && IsVideoId(id)
    ensures ExtractVideoId(pre + ShortLink + id) == Some(id)
  {
    assert pre + ShortLink + id == pre + (ShortLink + id);
    FindLiteralAfter(pre, ShortLink + id, Shorts);
    FindWatchAfter(pre, ShortLink + id, Watch);
    FindLiteralAfter(pre, ShortLink + id, ShortLink);
    ShortsNotInShortLink(id);
    WatchNotInShortLink(id);
    LiteralThenId(ShortLink, id);
  }

  lemma ShortsNotInShortLink(id: string)
    requires IsVideoId(id)
    ensures FindLiteral(ShortLink + id, Shorts) == None
  {
    var rest := "outu.be/" + id;
    assert ShortLink + id == ['y'] + rest;
    assert (['y'] + rest)[5] == '.';
    FindLiteralNotHere('y', rest, Shorts);
    FindLiteralAfter("outu.be/", id, Shorts);
    FindLiteralShort(id, Shorts);
  }

  lemma WatchNotInShortLink(id: string)
    requires IsVideoId(id)
    ensures FindWatch(ShortLink + id, Watch) == None
  {
    var rest := "outu.be/" + id;
    assert ShortLink + id == ['y'] + rest;
    assert (['y'] + rest)[5] == '.';
    FindWatchNotHere('y', rest, Watch);
    FindWatchAfter("outu.be/", id, Watch);
    FindWatchShort(id, Watch);
  }

  lemma {:induction false} FindLiteralSound(s: string, lit: string)
    requires |lit| > 0 && FindLiteral(s, lit).Some?
    ensures Contains(s, lit + FindLiteral(s, lit).value)
    decreases |s|
  {
    if StartsWith(s, lit) && IdAt(s, |lit|) {
      ContainsAt(s, lit + s[|lit|..|lit| + 11], 0);
    } else {
      FindLiteralSound(s[1..], lit);
    }
  }

  /** A shorts-pattern result is literally present in the URL after "youtube.com/shorts/". */
  lemma ShortsResultIsInUrl(url: string)
    requires FindLiteral(url, Shorts).Some?
    ensures ExtractVideoId(url).Some? && Contains(url, Shorts + ExtractVideoId(url).value)
  {
    FindLiteralSound(url, Shorts);
  }

  lemma {:induction false} FindWatchWitness(s: string, lit: string) returns (p: nat)
    requires |lit| > 0 && FindWatch(s, lit).Some?
    ensures p <= |s| && StartsWith(s[p..], lit) && LastVId(s[p..][|lit|..]) == FindWatch(s, lit)
    decreases |s|
  {
    if StartsWith(s, lit) && LastVId(s[|lit|..]).Some? {
      p := 0;
    } else {
      var q := FindWatchWitness(s[1..], lit);
      assert s[1..][q..] == s[q + 1..];
      p := q + 1;
    }
  }

  lemma {:induction false} FindWatchFromWitness(s: string, lit: string, q: nat)
    requires |lit| > 0 && q <= |s| && StartsWith(s[q..], lit) && LastVId(s[q..][|lit|..]).Some?
    ensures FindWatch(s, lit).Some?
    decreases q
  {
    if q > 0 && !(StartsWith(s, lit) && LastVId(s[|lit|..]).Some?) {
      assert s[1..][q - 1..] == s[q..];
      FindWatchFromWitness(s[1..], lit, q - 1);
    }
  }

  /** Pattern 6 (`m\.youtube\.com/watch\?.*v=…`) can only match where pattern 3
      (`youtube\.com/watch\?.*v=…`) already matched, so it never decides. */
  lemma MobileWatchSubsumed(url: string)
    ensures FindWatch(url, MobileWatch).Some? ==> FindWatch(url, Watch).Some?
  {
    if FindWatch(url, MobileWatch).Some? {
      var p := FindWatchWitness(url, MobileWatch);
      var t := url[p..];
      assert t[..|MobileWatch|] == MobileWatch;
      assert t[2..][..|Watch|] == t[..|MobileWatch|][2..] == Watch;
      assert url[p + 2..] == t[2..];
      assert t[2..][|Watch|..] == t[|MobileWatch|..];
      FindWatchFromWitness(url, Watch, p + 2);
    }
  }

  // ---------------------------------------------------------------- region and period tables

  const SafeLanguages: set<string> := {"ko", "en", "ja", "zh", "es", "fr", "de", "ru", "pt", "it"}

  /** `language_to_region.get(lang, 'KR')` (main.py:1068, 1080) and `getRegionCode`
      (lib/youtube.ts:153-159). */
  function RegionCode(lang: string): (r: string)
    ensures lang !in SafeLanguages ==> r == "KR"
    ensures r == "KR" <==> lang == "ko" || lang !in SafeLanguages
  {
    match lang
    case "ko" => "KR"
    case "en" => "US"
    case "ja" => "JP"
    case "zh" => "CN"
    case "es" => "ES"
    case "fr" => "FR"
    case "de" => "DE"
    case "ru" => "RU"
    case "pt" => "BR"
    case "it" => "IT"
    case _ => "KR"
  }

  /** The region table is one-to-one on the listed languages. */
  lemma RegionCodeInjective(a: string, b: string)
    requires a in SafeLanguages && b in SafeLanguages && RegionCode(a) == RegionCode(b)
    ensures a == b
  {
  }

  /** The language/region choice of `run` (main.py:1067-1081). `actual` is the
      similar-video detector's value and `defaultAudio` the seed's
      `defaultAudioLanguage`. */
  function RunLocale(actual: string, defaultAudio: string): (string, string)
  {
    var detected := if actual in SafeLanguages then actual else "ko";
    var apiLang := if |defaultAudio| >= 2 then defaultAudio[..2] else "ko";
    var detected2 := if apiLang in SafeLanguages && actual == "ko" && apiLang != "ko" then "ko" else detected;
    var detected3 := if detected2 !in SafeLanguages then "ko" else detected2;
    (detected3, RegionCode(detected3))
  }

  /** The detector's values are never two-letter codes, so `run` always searches with
      language 'ko' and region 'KR', whatever the seed's audio language is. */
  lemma RunLocaleAlwaysKorean(title: string, channelTitle: string, defaultAudio: string)
    ensures RunLocale(Language.SimilarDetect(title, channelTitle), defaultAudio) == ("ko", "KR")
  {
  }

  /** TypeScript: `(defaultAudioLanguage || 'ko').substring(0, 2) || 'ko'`
      (lib/youtube.ts:482-484). */
  function TsLanguageCode(defaultAudio: string): (r: string)
    ensures 1 <= |r| <= 2
    ensures |defaultAudio| == 0 ==> r == "ko"
    ensures |defaultAudio| >= 2 ==> r == defaultAudio[..2]
  {
    var d := if |defaultAudio| == 0 then "ko" else defaultAudio;
    d[..if |d| < 2 then |d| else 2]
  }

  const DayMs: nat := 86_400_000

  /** Days of an upload-period code: None for 'all', the table value, 60 otherwise
      (main.py:860-885 and 1815-1838; lib/youtube.ts:131-148). The source's
      `days == 0` branch is unreachable because no entry is 0. */
  function PeriodDays(period: string): (r: Option<nat>)
    ensures r.None? <==> period == "all"
    ensures r.Some? ==> r.value in {1, 7, 30, 60, 90, 180, 365}
  {
    match period
    case "all" => None
    case "day" => Some(1)
    case "week" => Some(7)
    case "month" => Some(30)
    case "month2" => Some(60)
    case "month3" => Some(90)
    case "month6" => Some(180)
    case "year" => Some(365)
    case _ => Some(60)
  }

  /** The `publishedAfter` instant, in milliseconds, for a search made at `nowMs`. */
  function PublishedAfter(period: string, nowMs: int): (r: Option<int>)
    ensures r.None? <==> period == "all"
    ensures r.Some? ==> r.value < nowMs && (nowMs - r.value) % DayMs == 0
    ensures r.Some? ==> (nowMs - r.value) / DayMs == PeriodDays(period).value
  {
    match PeriodDays(period)
    case None => None
    case Some(d) => Some(nowMs - d * DayMs)
  }

  /** An unknown period code is treated exactly like 'month2'. */
  lemma UnknownPeriodIsTwoMonths(period: string, nowMs: int)
    requires period !in {"all", "day", "week", "month", "month2", "month3", "month6", "year"}
    ensures PublishedAfter(period, nowMs) == PublishedAfter("month2", nowMs)
  {
  }

  /** lib/youtube.ts:479: the similar-video search sends no window when the period is
      empty, where Python's table would give 60 days. */
  function TsSimilarPublishedAfter(period: string, nowMs: int): (r: Option<int>)
    ensures |period| == 0 ==> r.None?
    ensures |period| > 0 ==> r == PublishedAfter(period, nowMs)
  {
    if |period| == 0 then None else PublishedAfter(period, nowMs)
  }
}
