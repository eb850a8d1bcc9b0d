/** The two content-language detectors of main.py and their match rules.
    The keyword worker (main.py:1840-1898) scores ko/en/ja/zh and takes the first
    maximum; the similar-video worker (main.py:918-968) returns
    'english'/'korean'/'chinese'/'japanese'. */
module Language {
  import opened Text

  // ---------------------------------------------------------------- keyword worker

  /** Hangul syllables plus Hangul compatibility jamo (U+3131-U+3163). */
  function KoreanScore(t: string): nat
  {
    CountWhere(t, IsHangulSyllable) + CountWhere(t, IsHangulJamo)
  }

  function JapaneseScore(t: string): nat
  {
    CountWhere(t, IsHiragana) + CountWhere(t, IsKatakana)
  }

  function ChineseScore(t: string): nat
  {
    CountWhere(t, IsCjkUnified)
  }

  predicate IsLowerLetter(c: char) { 'a' <= c <= 'z' }

  /** Length of the leading run of a-z letters. */
  function LetterRun(t: string): (k: nat)
    ensures k <= |t|
    ensures forall i :: 0 <= i < k ==> IsLowerLetter(t[i])
    ensures k < |t| ==> !IsLowerLetter(t[k])
  {
    if |t| == 0 || !IsLowerLetter(t[0]) then 0 else 1 + LetterRun(t[1..])
  }

  /** Number of matches of `\b[a-z]+\b` (findall): maximal runs of a-z letters with a
      non-word character (or the text's edge) on both sides. `prevWord` says whether
      the character before `t` is a word character. */
  function EnglishWords(t: string, prevWord: bool): nat
    decreases |t|
  {
    if |t| == 0 then 0
    else if IsLowerLetter(t[0]) && !prevWord then
      var k := LetterRun(t);
      (if k == |t| || !IsPyWord(t[k]) then 1 else 0) + EnglishWords(t[k..], true)
    else EnglishWords(t[1..], IsPyWord(t[0]))
  }

  function EnglishScore(t: string): nat { EnglishWords(t, false) }

  /** `max(scores, key=scores.get)` over the insertion order ko, en, ja, zh: the first
      language whose score is maximal. */
  function FirstMax(ko: nat, en: nat, ja: nat, zh: nat): (r: string)
    ensures r in {"ko", "en", "ja", "zh"}
    ensures r == "ko" <==> ko >= en && ko >= ja && ko >= zh
    ensures r == "en" <==> en > ko && en >= ja && en >= zh
    ensures r == "ja" <==> ja > ko && ja > en && ja >= zh
    ensures r == "zh" <==> zh > ko && zh > en && zh > ja
  {
    if ko >= en && ko >= ja && ko >= zh then "ko"
    else if en >= ja && en >= zh then "en"
    else if ja >= zh then "ja"
    else "zh"
  }

  /** `Worker._detect_content_language` (main.py:1840-1883). */
  function KeywordDetect(title: string, channelTitle: string): string
  {
    var t := Lower(title + " " + channelTitle);
    FirstMax(KoreanScore(t), EnglishScore(t), JapaneseScore(t), ChineseScore(t))
  }

  /** `Worker._is_similar_language_content` (main.py:1885-1898): exact equality only. */
  predicate StrictMatch(title: string, channelTitle: string, reference: string)
  {
    KeywordDetect(title, channelTitle) == reference
  }

  /** The keyword filter's language gate (reference 'ko', main.py:1462-1485): a video
      passes iff its Korean score is at least each other score. Text with no scored
      characters at all therefore passes. */
  lemma KeywordGateIsKoreanFirstMax(title: string, channelTitle: string)
    ensures var t := Lower(title + " " + channelTitle);
      StrictMatch(title, channelTitle, "ko") <==>
        KoreanScore(t) >= EnglishScore(t) && KoreanScore(t) >= JapaneseScore(t) && KoreanScore(t) >= ChineseScore(t)
  {
  }

  lemma {:induction false} EnglishWordsZeroWithoutLetters(t: string, prevWord: bool)
    requires forall i :: 0 <= i < |t| ==> !IsLowerLetter(t[i])
    ensures EnglishWords(t, prevWord) == 0
    decreases |t|
  {
    if |t| > 0 {
      EnglishWordsZeroWithoutLetters(t[1..], IsPyWord(t[0]));
    }
  }

  /** Text with none of the characters any keyword-detector score counts. */
  predicate NothingScored(t: string)
  {
    forall i :: 0 <= i < |t| ==>
      !IsLowerLetter(t[i]) && !IsHangulSyllable(t[i]) && !IsHangulJamo(t[i])
      && !IsHiragana(t[i]) && !IsKatakana(t[i]) && !IsCjkUnified(t[i])
  }

  /** All-zero scores give 'ko', the first language in the order. */
  lemma KeywordDetectDefaultsToKorean(title: string, channelTitle: string)
    requires NothingScored(Lower(title + " " + channelTitle))
    ensures KeywordDetect(title, channelTitle) == "ko"
  {
    var t := Lower(title + " " + channelTitle);
    assert forall i :: 0 <= i < |t| ==> !IsLowerLetter(t[i]);
    EnglishWordsZeroWithoutLetters(t, false);
    CountWhereZero(t, IsHangulSyllable);
    CountWhereZero(t, IsHangulJamo);
    CountWhereZero(t, IsHiragana);
    CountWhereZero(t, IsKatakana);
    CountWhereZero(t, IsCjkUnified);
  }

  // ---------------------------------------------------------------- similar-video worker

  predicate IsChinese(c: char) { IsCjkUnified(c) || IsCjkExtA(c) }
  predicate IsJapanese(c: char) { IsHiragana(c) || IsKatakana(c) }
  predicate IsAsianScored(c: char) { IsHangulSyllable(c) || IsChinese(c) || IsJapanese(c) }

  /** `SimilarVideoWorker._detect_content_language` (main.py:918-945). */
  function SimilarDetect(title: string, channelTitle: string): (r: string)
    ensures r in {"english", "korean", "chinese", "japanese"}
  {
    var t := title + " " + channelTitle;
    var k, c, j := CountWhere(t, IsHangulSyllable), CountWhere(t, IsChinese), CountWhere(t, IsJapanese);
    if k + c + j == 0 then "english"
    else if k >= c && k >= j then "korean"
    else if c >= j then "chinese"
    else "japanese"
  }

  /** The decision table of the similar-video detector, stated on the character counts. */
  lemma SimilarDetectTable(title: string, channelTitle: string)
    ensures var t := title + " " + channelTitle;
      var k, c, j := CountWhere(t, IsHangulSyllable), CountWhere(t, IsChinese), CountWhere(t, IsJapanese);
      var r := SimilarDetect(title, channelTitle);
      && (r == "english" <==> forall i :: 0 <= i < |t| ==> !IsAsianScored(t[i]))
      && (r == "korean" <==> k + c + j > 0 && k >= c && k >= j)
      && (r == "chinese" <==> k + c + j > 0 && (k < c || k < j) && c >= j)
      && (r == "japanese" <==> k + c + j > 0 && (k < c || k < j) && c < j)
  {
    var t := title + " " + channelTitle;
    CountWhereZero(t, IsHangulSyllable);
    CountWhereZero(t, IsChinese);
    CountWhereZero(t, IsJapanese);
  }

  /** The lenient rule of `SimilarVideoWorker._is_similar_language_content`
      (main.py:947-968) applied to a detected content language. */
  predicate LenientMatch(content: string, reference: string)
  {
    content == reference
    || (reference == "ko" && content in ["en", "korean"])
    || (reference == "en" && content in ["ko", "korean"])
  }

  predicate SimilarLanguageMatch(title: string, channelTitle: string, reference: string)
  {
    LenientMatch(SimilarDetect(title, channelTitle), reference)
  }

  /** What the lenient rule accepts, spelled out: exact matches, Korean content or the
      code 'en' under reference 'ko', and 'korean' or 'ko' under reference 'en'. */
  lemma LenientTable(content: string, reference: string)
    ensures LenientMatch(content, reference) <==>
      content == reference
      || (reference == "ko" && (content == "en" || content == "korean"))
      || (reference == "en" && (content == "ko" || content == "korean"))
  {
  }

  /** `run` passes the detector's own value (main.py:1228) as the reference, so the
      two-letter branches can never fire there: the gate is plain equality. */
  lemma RunLanguageGateIsEquality(title: string, channelTitle: string, seedTitle: string, seedChannel: string)
    ensures SimilarLanguageMatch(title, channelTitle, SimilarDetect(seedTitle, seedChannel))
      <==> SimilarDetect(title, channelTitle) == SimilarDetect(seedTitle, seedChannel)
  {
  }
}
