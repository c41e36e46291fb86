/**
 * The sing-along display's mapper (`singalongapp/maptranscript.py`): it reads a
 * TextGrid word tier, keeps the intervals that carry a word, and times every
 * transcript word by the first interval anywhere in the tier with the same
 * lower-cased text.
 */
module SingAlong {
  import opened Wrappers
  import opened Text
  import opened Alignment

  // ---------------------------------------------------------------------------
  // Transcript

  /** The token lists of the non-blank lines, in file order. */
  function KeptLines(raws: seq<String>): (r: seq<seq<String>>)
    ensures |r| <= |raws|
    ensures forall k :: 0 <= k < |r| ==> r[k] != [] && forall j :: 0 <= j < |r[k]| ==> IsToken(r[k][j])
  {
    if raws == [] then []
    else
      var kept := KeptLines(raws[..|raws| - 1]);
      var raw := raws[|raws| - 1];
      if Strip(raw) != [] then
        StripNonEmptySplits(raw);
        kept + [Split(Strip(raw))]
      else kept
  }

  /** `process_transcript`: any failure to read the file yields no lines. */
  function SingAlongTranscript(file: LyricsFile): (r: seq<seq<String>>)
    ensures file.LyricsNotFound? ==> r == []
    ensures file.Lyrics? ==> r == KeptLines(file.lines)
  {
    if file.LyricsNotFound? then [] else KeptLines(file.lines)
  }

  /** Every non-blank line, and only those, contributes one token list. */
  lemma KeptLinesAppend(raws: seq<String>, raw: String)
    ensures KeptLines(raws + [raw]) ==
      KeptLines(raws) + (if Strip(raw) != [] then [Split(Strip(raw))] else [])
  {
    assert (raws + [raw])[..|raws|] == raws;
  }

  // ---------------------------------------------------------------------------
  // TextGrid

  /** An interval of a TextGrid tier. */
  datatype TGInterval = TGInterval(minTime: real, maxTime: real, mark: String)

  datatype Tier = Tier(name: String, intervals: seq<TGInterval>)

  /** A TextGrid file: unreadable (any exception while loading), or its tiers. */
  datatype TextGridFile = UnreadableTextGrid | TextGrid(tiers: seq<Tier>)

  /** `tg.getFirst(name)`: the first tier with that name. */
  function FirstTier(tiers: seq<Tier>, name: String): (r: Option<Tier>)
    ensures r.Some? ==> r.value in tiers && r.value.name == name
    ensures r.Some? ==> exists i :: 0 <= i < |tiers| && tiers[i] == r.value && forall j :: 0 <= j < i ==> tiers[j].name != name
    ensures r.None? ==> forall t :: t in tiers ==> t.name != name
  {
    if tiers == [] then None
    else if tiers[0].name == name then Some(tiers[0])
    else FirstTier(tiers[1..], name)
  }

  /** An element of the alignment dictionary's interval list. */
  datatype WordInterval = WordInterval(word: String, xmin: real, xmax: real)

  datatype AlignmentDict = AlignmentDict(tierName: String, intervals: seq<WordInterval>)

  /** What `create_alignment_dict` returns: `{}` on any failure, otherwise the
      dictionary and the tuple of intervals that carry a word. */
  datatype AlignmentOutcome = EmptyDict | DictAndWords(dict: AlignmentDict, wordIntervals: seq<WordInterval>)

  function AsWordInterval(iv: TGInterval): WordInterval {
    WordInterval(iv.mark, iv.minTime, iv.maxTime)
  }

  /** The intervals whose word is not blank after stripping, in tier order. */
  function WordIntervals(ivs: seq<WordInterval>): (r: seq<WordInterval>)
    ensures |r| <= |ivs|
    ensures forall k :: 0 <= k < |r| ==> Strip(r[k].word) != []
  {
    if ivs == [] then []
    else
      var kept := WordIntervals(ivs[..|ivs| - 1]);
      var iv := ivs[|ivs| - 1];
      if Strip(iv.word) != [] then kept + [iv] else kept
  }

  /** The filter keeps tier order: the kept intervals of a concatenation are
      those of its parts. */
  lemma {:induction false} WordIntervalsAppend(a: seq<WordInterval>, b: seq<WordInterval>)
    ensures WordIntervals(a + b) == WordIntervals(a) + WordIntervals(b)
    decreases |b|
  {
    if b == [] {
      assert a + b == a;
    } else {
      var n := |b| - 1;
      assert (a + b)[..|a + b| - 1] == a + b[..n];
      assert (a + b)[|a + b| - 1] == b[n];
      WordIntervalsAppend(a, b[..n]);
    }
  }

  /** The filter keeps exactly the intervals that carry a word. */
  lemma {:induction false} WordIntervalsExactly(ivs: seq<WordInterval>, iv: WordInterval)
    ensures iv in WordIntervals(ivs) <==> iv in ivs && Strip(iv.word) != []
  {
    if ivs != [] {
      var n := |ivs| - 1;
      assert ivs == ivs[..n] + [ivs[n]];
      WordIntervalsExactly(ivs[..n], iv);
    }
  }

  /** `create_alignment_dict`.  A missing `words` tier, and an empty one (a tier
      with no intervals is falsy), raise inside the `try` and so yield `{}`. */
  function CreateAlignmentDict(file: TextGridFile): (r: AlignmentOutcome)
    ensures r.EmptyDict? <==>
      file.UnreadableTextGrid? || FirstTier(file.tiers, "words").None? || FirstTier(file.tiers, "words").value.intervals == []
    ensures r.DictAndWords? ==>
      var tier := FirstTier(file.tiers, "words").value;
      && r.dict.tierName == tier.name == "words"
      && |r.dict.intervals| == |tier.intervals|
      && (forall k :: 0 <= k < |tier.intervals| ==> r.dict.intervals[k] == AsWordInterval(tier.intervals[k]))
      && r.wordIntervals == WordIntervals(r.dict.intervals)
  {
    if file.UnreadableTextGrid? then EmptyDict
    else
      match FirstTier(file.tiers, "words")
      case None => EmptyDict
      case Some(tier) =>
        if tier.intervals == [] then EmptyDict
        else
          var all := seq(|tier.intervals|, i requires 0 <= i < |tier.intervals| => AsWordInterval(tier.intervals[i]));
          DictAndWords(AlignmentDict(tier.name, all), WordIntervals(all))
  }

  // ---------------------------------------------------------------------------
  // Punctuation

  /** The characters `remove_punctuation` deletes. */
  predicate IsRemovedPunct(c: char) {
    c == ',' || c == '.' || c == '!' || c == '?'
  }

  /** `text.translate(str.maketrans('', '', ',.!?'))`: the text with every
      occurrence of the four characters deleted, wherever it stands. */
  function RemovePunctuation(text: String): (r: String)
    ensures |r| <= |text|
    ensures forall c :: c in r <==> c in text && !IsRemovedPunct(c)
  {
    if text == [] then []
    else
      var rest := RemovePunctuation(text[..|text| - 1]);
      var c := text[|text| - 1];
      assert text == text[..|text| - 1] + [c];
      if IsRemovedPunct(c) then rest else rest + [c]
  }

  /** Removal keeps the order of what remains: the result for a concatenation is
      the concatenation of the results, so with the one-character case (a
      removed character vanishes, any other stays) it is the text's
      subsequence of kept characters. */
  lemma {:induction false} RemovePunctuationAppend(a: String, b: String)
    ensures RemovePunctuation(a + b) == RemovePunctuation(a) + RemovePunctuation(b)
    decreases |b|
  {
    if b == [] {
      assert a + b == a;
    } else {
      var n := |b| - 1;
      assert (a + b)[..|a + b| - 1] == a + b[..n];
      assert (a + b)[|a + b| - 1] == b[n];
      RemovePunctuationAppend(a, b[..n]);
    }
  }

  lemma RemovePunctuationChar(c: char)
    ensures RemovePunctuation([c]) == if IsRemovedPunct(c) then [] else [c]
  {
    assert [c][..0] == [];
  }

  /** Removing punctuation from text that has none changes nothing. */
  lemma {:induction false} RemovePunctuationKeepsClean(text: String)
    requires forall c :: c in text ==> !IsRemovedPunct(c)
    ensures RemovePunctuation(text) == text
  {
    if text != [] {
      var n := |text| - 1;
      assert text == text[..n] + [text[n]];
      RemovePunctuationKeepsClean(text[..n]);
    }
  }

  /** Removing punctuation is idempotent. */
  lemma RemovePunctuationIdempotent(text: String)
    ensures RemovePunctuation(RemovePunctuation(text)) == RemovePunctuation(text)
  {
    RemovePunctuationKeepsClean(RemovePunctuation(text));
  }

  // ---------------------------------------------------------------------------
  // Synchronisation

  /** One element of a timed line, `(xmin, xmax, word)`. */
  datatype TimedEntry = TimedEntry(xmin: real, xmax: real, word: String)

  /** The first interval at or after `from` whose lower-cased word equals `wordLower`. */
  function FirstMarkMatch(ivs: seq<WordInterval>, from: nat, wordLower: String): (r: Option<nat>)
    ensures r.Some? ==> from <= r.value < |ivs| && Lower(ivs[r.value].word) == wordLower
    ensures r.Some? ==> forall j :: from <= j < r.value ==> Lower(ivs[j].word) != wordLower
    ensures r.None? ==> forall j :: from <= j < |ivs| ==> Lower(ivs[j].word) != wordLower
    decreases |ivs| - from
  {
    if from >= |ivs| then None
    else if Lower(ivs[from].word) == wordLower then Some(from)
    else FirstMarkMatch(ivs, from + 1, wordLower)
  }

  /** The entry for one transcript token: its punctuation is removed, and the
      search always starts at the first interval. */
  function TimeWord(ivs: seq<WordInterval>, token: String): Option<TimedEntry> {
    var word := RemovePunctuation(token);
    match FirstMarkMatch(ivs, 0, Lower(word))
    case None => None
    case Some(i) => Some(TimedEntry(ivs[i].xmin, ivs[i].xmax, word))
  }

  /** The timed line of one transcript line: the matched tokens' entries, in
      order; an unmatched token leaves nothing behind. */
  function TimedLine(ivs: seq<WordInterval>, tokens: seq<String>): seq<TimedEntry> {
    if tokens == [] then []
    else
      var e := TimeWord(ivs, tokens[|tokens| - 1]);
      TimedLine(ivs, tokens[..|tokens| - 1]) + (if e.Some? then [e.value] else [])
  }

  /** Some interval carries the token's word, ignoring case and punctuation. */
  ghost predicate HasInterval(ivs: seq<WordInterval>, token: String) {
    exists i :: 0 <= i < |ivs| && Lower(ivs[i].word) == Lower(RemovePunctuation(token))
  }

  /** Because every search starts at the first interval, tokens that agree up to
      case and punctuation get the same times, however often they recur. */
  lemma SameWordSameTimes(ivs: seq<WordInterval>, a: String, b: String)
    requires Lower(RemovePunctuation(a)) == Lower(RemovePunctuation(b))
    ensures TimeWord(ivs, a).Some? <==> TimeWord(ivs, b).Some?
    ensures TimeWord(ivs, a).Some? ==>
      TimeWord(ivs, a).value.xmin == TimeWord(ivs, b).value.xmin &&
      TimeWord(ivs, a).value.xmax == TimeWord(ivs, b).value.xmax
  {
  }

  /** A token is timed exactly when some interval carries its word. */
  lemma TimeWordFound(ivs: seq<WordInterval>, token: String)
    ensures TimeWord(ivs, token).Some? <==> HasInterval(ivs, token)
  {
    var w := Lower(RemovePunctuation(token));
    if HasInterval(ivs, token) {
      var i :| 0 <= i < |ivs| && Lower(ivs[i].word) == w;
      assert FirstMarkMatch(ivs, 0, w).Some?;
    }
  }

  /** Every entry of a timed line is the times of an interval with the same
      lower-cased word, and its word is free of the removed punctuation. */
  ghost predicate EntryIsSound(ivs: seq<WordInterval>, e: TimedEntry) {
    && (forall c :: c in e.word ==> !IsRemovedPunct(c))
    && exists i :: 0 <= i < |ivs| && ivs[i].xmin == e.xmin && ivs[i].xmax == e.xmax && Lower(ivs[i].word) == Lower(e.word)
  }

  lemma {:induction false} TimedLineSound(ivs: seq<WordInterval>, tokens: seq<String>)
    ensures |TimedLine(ivs, tokens)| <= |tokens|
    ensures forall k :: 0 <= k < |TimedLine(ivs, tokens)| ==> EntryIsSound(ivs, TimedLine(ivs, tokens)[k])
  {
    if tokens != [] {
      var n := |tokens| - 1;
      TimedLineSound(ivs, tokens[..n]);
      var e := TimeWord(ivs, tokens[n]);
      if e.Some? {
        var i := FirstMarkMatch(ivs, 0, Lower(RemovePunctuation(tokens[n]))).value;
        assert ivs[i].xmin == e.value.xmin && ivs[i].xmax == e.value.xmax;
        assert EntryIsSound(ivs, e.value);
      }
    }
  }

  /** Timing keeps token order: the timed line of a concatenation is the timed
      lines of its parts. */
  lemma {:induction false} TimedLineAppend(ivs: seq<WordInterval>, a: seq<String>, b: seq<String>)
    ensures TimedLine(ivs, a + b) == TimedLine(ivs, a) + TimedLine(ivs, b)
    decreases |b|
  {
    if b == [] {
      assert a + b == a;
    } else {
      var n := |b| - 1;
      assert (a + b)[..|a + b| - 1] == a + b[..n];
      assert (a + b)[|a + b| - 1] == b[n];
      TimedLineAppend(ivs, a, b[..n]);
    }
  }

  /** The values of the `Some`s of a sequence, in order. */
  function Somes<T>(os: seq<Option<T>>): seq<T> {
    if os == [] then []
    else Somes(os[..|os| - 1]) + (if os[|os| - 1].Some? then [os[|os| - 1].value] else [])
  }

  /** Each value of `Somes(os)` comes from its own `Some`, in order, and every
      `Some` contributes one. */
  lemma {:induction false} SomesOrder<T>(os: seq<Option<T>>) returns (js: seq<nat>)
    ensures |js| == |Somes(os)|
    ensures forall k :: 0 <= k < |js| ==> js[k] < |os| && os[js[k]] == Some(Somes(os)[k])
    ensures forall a, b :: 0 <= a < b < |js| ==> js[a] < js[b]
    ensures forall j :: 0 <= j < |os| && os[j].Some? ==> j in js
  {
    if os == [] {
      js := [];
    } else {
      var n := |os| - 1;
      var init := os[..n];
      var prev := SomesOrder(init);
      js := if os[n].Some? then prev + [n] else prev;
      forall k | 0 <= k < |js|
        ensures js[k] < |os| && os[js[k]] == Some(Somes(os)[k])
      {
        if k < |prev| {
          assert os[prev[k]] == init[prev[k]];
        }
      }
      forall j | 0 <= j < |os| && os[j].Some?
        ensures j in js
      {
        if j < n {
          assert init[j] == os[j];
        }
      }
    }
  }

  /** Nothing is lost exactly when every element is a `Some`. */
  lemma {:induction false} SomesComplete<T>(os: seq<Option<T>>)
    ensures |Somes(os)| <= |os|
    ensures |Somes(os)| == |os| <==> forall j :: 0 <= j < |os| ==> os[j].Some?
  {
    if os != [] {
      var n := |os| - 1;
      SomesComplete(os[..n]);
      assert forall j :: 0 <= j < n ==> os[..n][j] == os[j];
    }
  }

  /** The outcome of timing each token, one per token. */
  function TokenTimes(ivs: seq<WordInterval>, tokens: seq<String>): (r: seq<Option<TimedEntry>>)
    ensures |r| == |tokens|
  {
    seq(|tokens|, i requires 0 <= i < |tokens| => TimeWord(ivs, tokens[i]))
  }

  lemma {:induction false} TimedLineIsSomes(ivs: seq<WordInterval>, tokens: seq<String>)
    ensures TimedLine(ivs, tokens) == Somes(TokenTimes(ivs, tokens))
  {
    if tokens != [] {
      var n := |tokens| - 1;
      TimedLineIsSomes(ivs, tokens[..n]);
      assert TokenTimes(ivs, tokens)[..n] == TokenTimes(ivs, tokens[..n]);
    }
  }

  /** The entries of a timed line come from the timed tokens, one each, in token
      order: entry `k` is the entry of token `js[k]` (its word is that token with
      the punctuation removed), the indices strictly increase, and every token
      that has an interval is among them. */
  lemma TimedLineOrder(ivs: seq<WordInterval>, tokens: seq<String>) returns (js: seq<nat>)
    ensures |js| == |TimedLine(ivs, tokens)|
    ensures forall k :: 0 <= k < |js| ==>
      js[k] < |tokens| && TimeWord(ivs, tokens[js[k]]) == Some(TimedLine(ivs, tokens)[k])
    ensures forall k :: 0 <= k < |js| ==> TimedLine(ivs, tokens)[k].word == RemovePunctuation(tokens[js[k]])
    ensures forall a, b :: 0 <= a < b < |js| ==> js[a] < js[b]
    ensures forall j :: 0 <= j < |tokens| && TimeWord(ivs, tokens[j]).Some? ==> j in js
  {
    TimedLineIsSomes(ivs, tokens);
    var times := TokenTimes(ivs, tokens);
    js := SomesOrder(times);
    assert forall j :: 0 <= j < |tokens| ==> times[j] == TimeWord(ivs, tokens[j]);
  }

  /** A timed line has as many entries as its transcript line has tokens exactly
      when every token has an interval. */
  lemma TimedLineComplete(ivs: seq<WordInterval>, tokens: seq<String>)
    ensures |TimedLine(ivs, tokens)| == |tokens| <==> forall k :: 0 <= k < |tokens| ==> HasInterval(ivs, tokens[k])
  {
    TimedLineIsSomes(ivs, tokens);
    var times := TokenTimes(ivs, tokens);
    SomesComplete(times);
    forall k | 0 <= k < |tokens|
      ensures times[k].Some? <==> HasInterval(ivs, tokens[k])
    {
      TimeWordFound(ivs, tokens[k]);
    }
  }

  /** `[remove_punctuation(word) for word in line]` */
  function CleanTokens(tokens: seq<String>): (r: seq<String>)
    ensures |r| == |tokens| && forall i :: 0 <= i < |tokens| ==> r[i] == RemovePunctuation(tokens[i])
  {
    seq(|tokens|, i requires 0 <= i < |tokens| => RemovePunctuation(tokens[i]))
  }

  /** The cleaned tokens carry none of the four characters, so cleaning them
      again changes nothing. */
  lemma CleanTokensAreClean(tokens: seq<String>)
    ensures |CleanTokens(tokens)| == |tokens|
    ensures forall i :: 0 <= i < |tokens| ==>
      (forall c :: c in CleanTokens(tokens)[i] ==> !IsRemovedPunct(c)) && RemovePunctuation(CleanTokens(tokens)[i]) == CleanTokens(tokens)[i]
  {
    forall i | 0 <= i < |tokens|
      ensures RemovePunctuation(CleanTokens(tokens)[i]) == CleanTokens(tokens)[i]
    {
      RemovePunctuationIdempotent(tokens[i]);
    }
  }

  /** Timing a line whose punctuation was already removed gives the same timed
      line, since removing it again changes nothing. */
  lemma {:induction false} TimedLineIgnoresPunctuation(ivs: seq<WordInterval>, tokens: seq<String>)
    ensures TimedLine(ivs, CleanTokens(tokens)) == TimedLine(ivs, tokens)
  {
    if tokens != [] {
      var n := |tokens| - 1;
      var clean := CleanTokens(tokens);
      assert clean[..n] == CleanTokens(tokens[..n]);
      TimedLineIgnoresPunctuation(ivs, tokens[..n]);
      RemovePunctuationIdempotent(tokens[n]);
      assert TimeWord(ivs, clean[n]) == TimeWord(ivs, tokens[n]);
    }
  }

  /** The loop over one line's words, already free of punctuation, with the
      inner loop over the word intervals; `raw` is the line before the
      punctuation was removed. */
  method SyncLine(wordIntervals: seq<WordInterval>, line: seq<String>, ghost raw: seq<String>) returns (timedLine: seq<TimedEntry>)
    requires line == CleanTokens(raw)
    ensures timedLine == TimedLine(wordIntervals, raw)
  {
    timedLine := [];
    for w := 0 to |line|
      invariant timedLine == TimedLine(wordIntervals, raw[..w])
    {
      assert raw[..w + 1][..w] == raw[..w];
      var word := line[w];
      var wordLower := Lower(word);
      var j := 0;
      while j < |wordIntervals|
        invariant j <= |wordIntervals|
        invariant FirstMarkMatch(wordIntervals, j, wordLower) == FirstMarkMatch(wordIntervals, 0, wordLower)
      {
        var interval := wordIntervals[j];
        if Lower(interval.word) == wordLower {
          timedLine := timedLine + [TimedEntry(interval.xmin, interval.xmax, word)];
          break;
        }
        j := j + 1;
      }
    }
    assert raw[..|raw|] == raw;
  }

  /** `sync_alignment_dict_with_transcript_lines`: exactly one timed line per
      transcript line, in order, each holding the entries of its matched words. */
  method SyncAlignmentWithTranscript(wordIntervals: seq<WordInterval>, transcriptLines: seq<seq<String>>)
    returns (synchronized: seq<seq<TimedEntry>>)
    ensures |synchronized| == |transcriptLines|
    ensures forall k :: 0 <= k < |transcriptLines| ==> synchronized[k] == TimedLine(wordIntervals, transcriptLines[k])
    ensures forall k, j :: 0 <= k < |synchronized| && 0 <= j < |synchronized[k]| ==> EntryIsSound(wordIntervals, synchronized[k][j])
  {
    var transcriptLinesNoPunc := seq(|transcriptLines|, i requires 0 <= i < |transcriptLines| => CleanTokens(transcriptLines[i]));
    synchronized := [];
    for i := 0 to |transcriptLinesNoPunc|
      invariant |synchronized| == i
      invariant forall k :: 0 <= k < i ==> synchronized[k] == TimedLine(wordIntervals, transcriptLines[k])
      invariant forall k, j :: 0 <= k < i && 0 <= j < |synchronized[k]| ==> EntryIsSound(wordIntervals, synchronized[k][j])
    {
      var timedLine := SyncLine(wordIntervals, transcriptLinesNoPunc[i], transcriptLines[i]);
      TimedLineSound(wordIntervals, transcriptLines[i]);
      synchronized := synchronized + [timedLine];
    }
  }
}
