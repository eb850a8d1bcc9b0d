/** The additive similarity score of a candidate against the seed video: the Python
    version (main.py:1179-1210) and the TypeScript version (lib/youtube.ts:656-700). */
module Score {
  import opened Text
  import opened Seqs
  import opened Videos

  // ---------------------------------------------------------------- tokenising

  /** Length of the run of word characters at the start of `s`. */
  function WordRun(s: string, isWord: char -> bool): (n: nat)
    ensures n <= |s|
    ensures forall i :: 0 <= i < n ==> isWord(s[i])
    ensures n < |s| ==> !isWord(s[n])
  {
    if |s| == 0 || !isWord(s[0]) then 0 else 1 + WordRun(s[1..], isWord)
  }

  /** `re.findall(r"#(\w+)", s)` / `s.match(/#(\w+)/g)` without the '#': the word after
      each '#' that is followed by a word character, scanning left to right without
      overlap. `isWord` is the dialect's `\w`. */
  function Hashtags(s: string, isWord: char -> bool): seq<string>
    decreases |s|
  {
    if |s| == 0 then []
    else if s[0] == '#' && WordRun(s[1..], isWord) > 0 then
      var n := WordRun(s[1..], isWord);
      [s[1..1 + n]] + Hashtags(s[1 + n..], isWord)
    else Hashtags(s[1..], isWord)
  }

  /** Non-empty runs of word characters. */
  predicate AllWordRuns(ws: seq<string>, isWord: char -> bool)
  {
    forall i :: 0 <= i < |ws| ==> |ws[i]| > 0 && forall j :: 0 <= j < |ws[i]| ==> isWord(ws[i][j])
  }

  /** Every hashtag found is a non-empty run of word characters. */
  lemma {:induction false} HashtagsAreWords(s: string, isWord: char -> bool)
    ensures AllWordRuns(Hashtags(s, isWord), isWord)
    decreases |s|
  {
    if |s| > 0 {
      var n := WordRun(s[1..], isWord);
      if s[0] == '#' && n > 0 {
        HashtagsAreWords(s[1 + n..], isWord);
        assert Hashtags(s, isWord) == [s[1..1 + n]] + Hashtags(s[1 + n..], isWord);
      } else {
        HashtagsAreWords(s[1..], isWord);
        assert Hashtags(s, isWord) == Hashtags(s[1..], isWord);
      }
    }
  }

  lemma {:induction false} WordRunAgree(s: string, p: char -> bool, q: char -> bool)
    requires forall i :: 0 <= i < |s| ==> p(s[i]) == q(s[i])
    ensures WordRun(s, p) == WordRun(s, q)
    decreases |s|
  {
    if |s| > 0 { WordRunAgree(s[1..], p, q); }
  }

  lemma {:induction false} HashtagsAgree(s: string, p: char -> bool, q: char -> bool)
    requires forall i :: 0 <= i < |s| ==> p(s[i]) == q(s[i])
    ensures Hashtags(s, p) == Hashtags(s, q)
    decreases |s|
  {
    if |s| > 0 {
      WordRunAgree(s[1..], p, q);
      var n := WordRun(s[1..], p);
      if s[0] == '#' && n > 0 {
        HashtagsAgree(s[1 + n..], p, q);
      } else {
        HashtagsAgree(s[1..], p, q);
      }
    }
  }

  predicate IsAscii(c: char) { c < 128 as char }

  /** On ASCII text Python's Unicode `\w` and JavaScript's ASCII `\w` find the same
      hashtags; they part only on letters such as Hangul. */
  lemma HashtagsAgreeOnAscii(s: string)
    requires forall i :: 0 <= i < |s| ==> IsAscii(s[i])
    ensures Hashtags(s, IsPyWord) == Hashtags(s, IsAsciiWord)
  {
    HashtagsAgree(s, IsPyWord, IsAsciiWord);
  }

  /** A single hashtag is read back. */
  lemma HashtagOfTag(w: string, isWord: char -> bool)
    requires |w| > 0 && forall i :: 0 <= i < |w| ==> isWord(w[i])
    ensures Hashtags("#" + w, isWord) == [w]
  {
    var s := "#" + w;
    assert s[1..] == w;
    WordRunAll(w, isWord);
    assert s[1..1 + |w|] == w;
    assert s[1 + |w|..] == [];
    assert Hashtags(s, isWord) == [w] + Hashtags([], isWord);
  }

  lemma {:induction false} WordRunAll(w: string, isWord: char -> bool)
    requires forall i :: 0 <= i < |w| ==> isWord(w[i])
    ensures WordRun(w, isWord) == |w|
    decreases |w|
  {
    if |w| > 0 { WordRunAll(w[1..], isWord); }
  }

  /** Characters `str.isspace()` accepts. */
  predicate IsPySpace(c: char)
  {
    c == ' ' || ('\t' <= c <= '\r') || ('\U{1c}' <= c <= '\U{1f}') || c == '\U{85}' || c == '\U{a0}'
    || c == '\U{1680}' || ('\U{2000}' <= c <= '\U{200a}') || c == '\U{2028}' || c == '\U{2029}'
    || c == '\U{202f}' || c == '\U{205f}' || c == '\U{3000}'
  }

  function NonSpaceRun(s: string): (n: nat)
    ensures n <= |s|
    ensures forall i :: 0 <= i < n ==> !IsPySpace(s[i])
    ensures n < |s| ==> IsPySpace(s[n])
  {
    if |s| == 0 || IsPySpace(s[0]) then 0 else 1 + NonSpaceRun(s[1..])
  }

  /** `s.split()`: the maximal runs of non-space characters. */
  function PyWords(s: string): seq<string>
    decreases |s|
  {
    if |s| == 0 then []
    else if IsPySpace(s[0]) then PyWords(s[1..])
    else
      var n := NonSpaceRun(s);
      [s[..n]] + PyWords(s[n..])
  }

  /** Non-empty pieces without whitespace. */
  predicate AllWords(ws: seq<string>)
  {
    forall i :: 0 <= i < |ws| ==> |ws[i]| > 0 && forall j :: 0 <= j < |ws[i]| ==> !IsPySpace(ws[i][j])
  }

  /** Every word is non-empty and holds no whitespace. */
  lemma {:induction false} PyWordsAreWords(s: string)
    ensures AllWords(PyWords(s))
    decreases |s|
  {
    if |s| > 0 {
      if IsPySpace(s[0]) {
        PyWordsAreWords(s[1..]);
        assert PyWords(s) == PyWords(s[1..]);
      } else {
        var n := NonSpaceRun(s);
        PyWordsAreWords(s[n..]);
        assert PyWords(s) == [s[..n]] + PyWords(s[n..]);
        assert n > 0 && forall j :: 0 <= j < n ==> !IsPySpace(s[..n][j]);
      }
    }
  }

  /** JavaScript `s.split(' ')`: pieces between single spaces, empty pieces included. */
  function SplitSpace(s: string): (r: seq<string>)
    ensures |r| >= 1
    ensures forall i :: 0 <= i < |r| ==> ' ' !in r[i]
    decreases |s|
  {
    if |s| == 0 then [""]
    else
      var rest := SplitSpace(s[1..]);
      if s[0] == ' ' then [""] + rest
      else [[s[0]] + rest[0]] + rest[1..]
  }

  /** Splitting on spaces and joining with spaces gives the text back. */
  function JoinSpace(ws: seq<string>): string
  {
    if |ws| == 0 then "" else if |ws| == 1 then ws[0] else ws[0] + " " + JoinSpace(ws[1..])
  }

  lemma {:induction false} SplitSpaceRoundTrip(s: string)
    ensures JoinSpace(SplitSpace(s)) == s
    decreases |s|
  {
    if |s| > 0 {
      var rest := SplitSpace(s[1..]);
      SplitSpaceRoundTrip(s[1..]);
      if s[0] == ' ' {
        assert s == " " + s[1..];
      } else {
        var r := [[s[0]] + rest[0]] + rest[1..];
        if |rest| == 1 {
          assert s == [s[0]] + s[1..];
        } else {
          assert rest == [rest[0]] + rest[1..];
          assert JoinSpace(rest) == rest[0] + " " + JoinSpace(rest[1..]);
          assert r[1..] == rest[1..];
          assert s == [s[0]] + s[1..];
        }
      }
    }
  }

  /** The seed's title words longer than two characters, as a set. */
  function TitleKeywords(words: seq<string>): (r: set<string>)
    ensures forall w :: w in r <==> w in words && |w| > 2
  {
    set w | w in words && |w| > 2
  }

  function AsSet(s: seq<string>): set<string> { set x | x in s }

  // ---------------------------------------------------------------- Python score

  /** The seed's part of the Python score: its channel, tags, hashtags from title and
      description (as a set), and title keywords. */
  datatype PySeed = PySeed(channelId: string, tags: seq<string>, hashtags: set<string>, keywords: set<string>)

  function MakePySeed(v: Video): (s: PySeed)
    ensures s.keywords == TitleKeywords(PyWords(v.title))
  {
    PySeed(v.channelId, v.tags,
      AsSet(Hashtags(v.title, IsPyWord) + Hashtags(v.description, IsPyWord)),
      TitleKeywords(PyWords(v.title)))
  }

  function CommonTags(seed: PySeed, v: Video): set<string>
  {
    if |v.tags| > 0 && |seed.tags| > 0 then AsSet(seed.tags) * AsSet(v.tags) else {}
  }

  /** Only the candidate's DESCRIPTION is searched for hashtags. */
  function CommonHashtags(seed: PySeed, v: Video): set<string>
  {
    var vh := Hashtags(v.description, IsPyWord);
    if |vh| > 0 && |seed.hashtags| > 0 then seed.hashtags * AsSet(vh) else {}
  }

  function MatchedKeywords(seed: PySeed, v: Video): set<string>
  {
    set k | k in seed.keywords && Contains(Lower(v.title), Lower(k))
  }

  function PyScore(seed: PySeed, v: Video): nat
  {
    (if v.channelId == seed.channelId then 30 else 0)
    + 15 * |CommonTags(seed, v)| + 8 * |CommonHashtags(seed, v)| + 5 * |MatchedKeywords(seed, v)|
  }

  lemma SubsetCard<T>(a: set<T>, b: set<T>)
    requires a <= b
    ensures |a| <= |b|
  {
    assert b == a + (b - a);
  }

  /** The score never exceeds what a perfect match could earn: the channel bonus, every
      distinct seed tag and hashtag, and every title keyword. */
  lemma PyScoreBound(seed: PySeed, v: Video)
    ensures PyScore(seed, v) <= 30 + 15 * |AsSet(seed.tags)| + 8 * |seed.hashtags| + 5 * |seed.keywords|
  {
    SubsetCard(CommonTags(seed, v), AsSet(seed.tags));
    SubsetCard(CommonHashtags(seed, v), seed.hashtags);
    SubsetCard(MatchedKeywords(seed, v), seed.keywords);
  }

  /** The score is zero exactly when nothing matches. */
  lemma PyScoreZero(seed: PySeed, v: Video)
    ensures PyScore(seed, v) == 0 <==>
      v.channelId != seed.channelId
      && (forall t :: t in seed.tags ==> t !in v.tags)
      && (forall h :: h in seed.hashtags ==> h !in Hashtags(v.description, IsPyWord))
      && (forall k :: k in seed.keywords ==> !Contains(Lower(v.title), Lower(k)))
  {
    var vh := Hashtags(v.description, IsPyWord);
    if (exists t :: t in seed.tags && t in v.tags) {
      var t :| t in seed.tags && t in v.tags;
      assert t in CommonTags(seed, v);
    }
    if (exists h :: h in seed.hashtags && h in vh) {
      var h :| h in seed.hashtags && h in vh;
      assert h in CommonHashtags(seed, v);
    }
    if (exists k :: k in seed.keywords && Contains(Lower(v.title), Lower(k))) {
      var k :| k in seed.keywords && Contains(Lower(v.title), Lower(k));
      assert k in MatchedKeywords(seed, v);
    }
  }

  /** The seed scored against itself earns the channel bonus and every tag. */
  lemma PyScoreOfSeed(v: Video)
    ensures PyScore(MakePySeed(v), v) >= 30 + 15 * |AsSet(v.tags)|
  {
    var seed := MakePySeed(v);
    if |v.tags| > 0 {
      assert CommonTags(seed, v) == AsSet(v.tags);
    } else {
      assert AsSet(v.tags) == {};
    }
  }

  // ---------------------------------------------------------------- TypeScript score

  datatype TsSeed = TsSeed(channelId: string, tags: seq<string>, hashtags: seq<string>, keywords: set<string>)

  /** Hashtags from title and description, de-duplicated in first-seen order; keywords
      from `title.split(' ')`. */
  function MakeTsSeed(v: Video): (s: TsSeed)
    ensures forall i, j :: 0 <= i < j < |s.hashtags| ==> s.hashtags[i] != s.hashtags[j]
  {
    TsSeed(v.channelId, v.tags,
      FirstOccurrences(Hashtags(v.title, IsAsciiWord) + Hashtags(v.description, IsAsciiWord), (h: string) => h),
      TitleKeywords(SplitSpace(v.title)))
  }

  /** `xs.filter(x => ys.includes(x))` */
  function FilterIn(xs: seq<string>, ys: seq<string>): (r: seq<string>)
    ensures |r| <= |xs|
  {
    if |xs| == 0 then []
    else (if xs[0] in ys then [xs[0]] else []) + FilterIn(xs[1..], ys)
  }

  /** The TypeScript score: seed tags are counted with repetition, hashtags come from the
      candidate's title and description, and a different channel earns +2. */
  function TsScore(seed: TsSeed, v: Video): nat
  {
    var tagScore := if |seed.tags| > 0 then 15 * |FilterIn(seed.tags, v.tags)| else 0;
    var vh := Hashtags(v.title, IsAsciiWord) + Hashtags(v.description, IsAsciiWord);
    var hashScore := if |seed.hashtags| > 0 then 8 * |FilterIn(seed.hashtags, vh)| else 0;
    var keywordScore := 5 * |set k | k in seed.keywords && Contains(Lower(v.title), Lower(k))|;
    (if v.channelId == seed.channelId then 30 else 2) + tagScore + hashScore + keywordScore
  }

  /** Every candidate scores at least 2; the seed's own channel at least 30. */
  lemma TsScoreFloor(seed: TsSeed, v: Video)
    ensures TsScore(seed, v) >= (if v.channelId == seed.channelId then 30 else 2)
  {
  }

  /** `filter(t => ys.includes(t))` keeps exactly the elements found in `ys`. */
  lemma {:induction false} FilterInMembers(xs: seq<string>, ys: seq<string>, x: string)
    ensures x in FilterIn(xs, ys) <==> x in xs && x in ys
    decreases |xs|
  {
    if |xs| > 0 {
      FilterInMembers(xs[1..], ys, x);
      assert xs == [xs[0]] + xs[1..];
    }
  }

  lemma DistinctHead(xs: seq<string>)
    requires |xs| > 0 && forall i, j :: 0 <= i < j < |xs| ==> xs[i] != xs[j]
    ensures forall i, j :: 0 <= i < j < |xs[1..]| ==> xs[1..][i] != xs[1..][j]
    ensures xs[0] !in AsSet(xs[1..]) && AsSet(xs) == {xs[0]} + AsSet(xs[1..])
  {
    var tail := xs[1..];
    forall i, j | 0 <= i < j < |tail| ensures tail[i] != tail[j] {
      assert tail[i] == xs[i + 1] && tail[j] == xs[j + 1];
    }
    assert xs == [xs[0]] + tail;
  }

  lemma {:induction false} FilterInDistinct(xs: seq<string>, ys: seq<string>)
    requires forall i, j :: 0 <= i < j < |xs| ==> xs[i] != xs[j]
    ensures |FilterIn(xs, ys)| == |AsSet(xs) * AsSet(ys)|
    decreases |xs|
  {
    if |xs| > 0 {
      var tail := xs[1..];
      DistinctHead(xs);
      FilterInDistinct(tail, ys);
      var rest := AsSet(tail) * AsSet(ys);
      if xs[0] in ys {
        assert AsSet(xs) * AsSet(ys) == {xs[0]} + rest;
        assert xs[0] !in rest;
        assert FilterIn(xs, ys) == [xs[0]] + FilterIn(tail, ys);
      } else {
        assert AsSet(xs) * AsSet(ys) == rest;
        assert FilterIn(xs, ys) == FilterIn(tail, ys);
      }
    }
  }

  /** When the seed's tags have no repeats, the TypeScript tag term equals Python's:
      15 per distinct common tag. */
  lemma TagTermsAgree(v: Video, c: Video)
    requires forall i, j :: 0 <= i < j < |v.tags| ==> v.tags[i] != v.tags[j]
    requires |v.tags| > 0 && |c.tags| > 0
    ensures |FilterIn(MakeTsSeed(v).tags, c.tags)| == |CommonTags(MakePySeed(v), c)|
  {
    FilterInDistinct(v.tags, c.tags);
  }
}
