/**
 * The older transcript mapper (`musicprocessing/map_transcript.py`).  Lines are
 * bare word lists, words lose only `.,!?` at their ends and may become empty,
 * and the search for a word looks only at the first entry after the cursor
 * that has text: entries without text are skipped, and the first one with
 * different text ends the search.
 */
module LegacyMapping {
  import opened Wrappers
  import opened Text
  import opened Alignment

  /** The characters `strip(".,!?")` removes from both ends of a word. */
  predicate IsLegacyPunct(c: char) {
    c == '.' || c == ',' || c == '!' || c == '?'
  }

  /** `word.lower().strip(".,!?")` */
  function LegacyNormalize(w: String): String {
    Trim(Lower(w), IsLegacyPunct)
  }

  /** Normalising twice is normalising once. */
  lemma LegacyNormalizeIdempotent(w: String)
    ensures LegacyNormalize(LegacyNormalize(w)) == LegacyNormalize(w)
  {
    assert CaseBlind(IsLegacyPunct);
    LowerTrimIsNormal(w, IsLegacyPunct);
    TrimUnchanged(LegacyNormalize(w), IsLegacyPunct);
  }

  /** The words of one raw line: every token of the stripped line, normalised;
      a word made only of punctuation becomes `""` and stays in the list. */
  function LineWords(raw: String): (r: seq<String>)
    ensures |r| == |Split(Strip(raw))|
  {
    var tokens := Split(Strip(raw));
    seq(|tokens|, i requires 0 <= i < |tokens| => LegacyNormalize(tokens[i]))
  }

  /** A word is empty exactly when its token is made only of `.,!?`. */
  lemma LegacyNormalizeEmpty(t: String)
    ensures LegacyNormalize(t) == [] <==> forall k :: 0 <= k < |t| ==> IsLegacyPunct(t[k])
  {
    TrimEmpty(Lower(t), IsLegacyPunct);
    assert forall k :: 0 <= k < |t| ==> IsLegacyPunct(Lower(t)[k]) == IsLegacyPunct(t[k]);
  }

  /** One word per token of the line (surrounding whitespace aside), each
      already normal, and empty exactly when its token is all punctuation. */
  lemma LineWordsFacts(raw: String)
    ensures |LineWords(raw)| == |Split(raw)|
    ensures forall i :: 0 <= i < |LineWords(raw)| ==> LegacyNormalize(LineWords(raw)[i]) == LineWords(raw)[i]
    ensures forall i :: 0 <= i < |LineWords(raw)| ==>
      (LineWords(raw)[i] == [] <==> forall k :: 0 <= k < |Split(raw)[i]| ==> IsLegacyPunct(Split(raw)[i][k]))
  {
    SplitIgnoresStrip(raw);
    var tokens := Split(raw);
    forall i | 0 <= i < |tokens|
      ensures LegacyNormalize(LineWords(raw)[i]) == LineWords(raw)[i]
      ensures LineWords(raw)[i] == [] <==> forall k :: 0 <= k < |tokens[i]| ==> IsLegacyPunct(tokens[i][k])
    {
      LegacyNormalizeIdempotent(tokens[i]);
      LegacyNormalizeEmpty(tokens[i]);
    }
  }

  /** The word lists `process_transcript` keeps, in file order: every line that
      is not blank. */
  function LegacyProcessedLines(raws: seq<String>): (r: seq<seq<String>>)
    ensures |r| <= |raws|
    ensures forall k :: 0 <= k < |r| ==> r[k] != []
  {
    if raws == [] then []
    else
      var kept := LegacyProcessedLines(raws[..|raws| - 1]);
      var words := LineWords(raws[|raws| - 1]);
      if words != [] then kept + [words] else kept
  }

  /** A line is kept exactly when it is not blank after stripping. */
  lemma LegacyKeepsNonBlank(raws: seq<String>, raw: String)
    ensures LegacyProcessedLines(raws + [raw]) ==
      LegacyProcessedLines(raws) + (if Strip(raw) != [] then [LineWords(raw)] else [])
  {
    assert (raws + [raw])[..|raws|] == raws;
    StripNonEmptySplits(raw);
  }

  function LegacyTranscript(file: LyricsFile): seq<seq<String>> {
    if file.LyricsNotFound? then [] else LegacyProcessedLines(file.lines)
  }

  /** `process_transcript` of the older mapper: a missing file yields no lines. */
  method LegacyProcessTranscript(file: LyricsFile) returns (lines: seq<seq<String>>)
    ensures file.LyricsNotFound? ==> lines == []
    ensures file.Lyrics? ==> lines == LegacyProcessedLines(file.lines)
    ensures forall k :: 0 <= k < |lines| ==> lines[k] != []
  {
    if file.LyricsNotFound? {
      return [];
    }
    var raws := file.lines;
    lines := [];
    for i := 0 to |raws|
      invariant lines == LegacyProcessedLines(raws[..i])
    {
      assert raws[..i + 1][..i] == raws[..i];
      var tokens := Split(Strip(raws[i]));
      var words := seq(|tokens|, j requires 0 <= j < |tokens| => LegacyNormalize(tokens[j]));
      if words != [] {
        lines := lines + [words];
      }
    }
    assert raws[..|raws|] == raws;
  }

  // ---------------------------------------------------------------------------
  // Matching with a bounded lookahead

  /** The aligned text of an entry as this mapper normalises it. */
  function LegacyWord(iv: Interval): String {
    AlignedWord(iv, IsLegacyPunct)
  }

  /** The search of the older mapper: entries without text are skipped, and the
      first entry with text decides — it is the match if its text equals `word`,
      otherwise there is no match. */
  function LookaheadMatch(ivs: seq<Interval>, from: nat, word: String): (r: Option<nat>)
    ensures r.Some? ==> from <= r.value < |ivs| && LegacyWord(ivs[r.value]) == word
    ensures r.Some? ==> forall j :: from <= j < r.value ==> LegacyWord(ivs[j]) == []
    ensures r.None? ==> forall j :: from <= j < |ivs| && LegacyWord(ivs[j]) == word ==>
                          exists i :: from <= i < j && LegacyWord(ivs[i]) != []
    decreases |ivs| - from
  {
    if from >= |ivs| then None
    else
      var t := LegacyWord(ivs[from]);
      if t == word then Some(from)
      else if t == [] then LookaheadMatch(ivs, from + 1, word)
      else None
  }

  /** Whenever the bounded search finds an entry, the unbounded search of the
      current mapper (with the same normalisation) finds the same one. */
  lemma {:induction false} LookaheadAgreesWhenFound(ivs: seq<Interval>, from: nat, word: String)
    requires word != [] && LookaheadMatch(ivs, from, word).Some?
    ensures FirstMatch(ivs, from, word, IsLegacyPunct) == LookaheadMatch(ivs, from, word)
    decreases |ivs| - from
  {
    if LegacyWord(ivs[from]) != word {
      LookaheadAgreesWhenFound(ivs, from + 1, word);
    }
  }

  /** The converse fails: one entry with other text in front of the word is
      enough for the older mapper to leave the word untimed, where the current
      mapper would skip over it and find the word. */
  lemma LookaheadGivesUpEarly()
    ensures var ivs := [Interval(Some(0.0), Some(0.4), Some("oh")), Interval(Some(0.5), Some(0.9), Some("hello"))];
      LookaheadMatch(ivs, 0, "hello") == None && FirstMatch(ivs, 0, "hello", IsLegacyPunct) == Some(1)
  {
    var ivs := [Interval(Some(0.0), Some(0.4), Some("oh")), Interval(Some(0.5), Some(0.9), Some("hello"))];
    assert Lower("oh") == "oh";
    assert Lower("hello") == "hello";
    TrimUnchanged("oh", IsLegacyPunct);
    TrimUnchanged("hello", IsLegacyPunct);
    assert LegacyWord(ivs[0]) == "oh";
    assert LegacyWord(ivs[1]) == "hello";
  }

  /** The state of the scan over one line: records so far, the entry each record
      used, and the cursor (`interval_index`). */
  datatype LegacyScan = LegacyScan(entries: seq<WordTiming>, picks: seq<Option<nat>>, cursor: nat)

  /** One word: it is normalised again, skipped when empty, and otherwise
      looked up from the cursor; the cursor moves past a match and stays put
      otherwise. */
  function LegacyScanWord(ivs: seq<Interval>, s: LegacyScan, raw: String): LegacyScan {
    var word := LegacyNormalize(raw);
    if word == [] then s
    else
      match LookaheadMatch(ivs, s.cursor, word)
      case None => LegacyScan(s.entries + [WordTiming(word, None, None)], s.picks + [None], s.cursor)
      case Some(i) => LegacyScan(s.entries + [TimingOf(ivs[i])], s.picks + [Some(i)], i + 1)
  }

  function LegacyScanLine(ivs: seq<Interval>, from: nat, words: seq<String>): LegacyScan {
    if words == [] then LegacyScan([], [], from)
    else LegacyScanWord(ivs, LegacyScanLine(ivs, from, words[..|words| - 1]), words[|words| - 1])
  }

  /** The non-empty normalised words of a line, in order: the words that get a record. */
  function RecordedWords(words: seq<String>): (r: seq<String>)
    ensures |r| <= |words|
  {
    if words == [] then []
    else
      var w := LegacyNormalize(words[|words| - 1]);
      RecordedWords(words[..|words| - 1]) + (if w != [] then [w] else [])
  }

  /** The records of a line match its non-empty words one for one: a matched
      word copies its entry, an unmatched one has no times, and each record's
      word normalises to the word. */
  ghost predicate LegacyRecordsMatch(ivs: seq<Interval>, words: seq<String>, s: LegacyScan) {
    && |s.entries| == |words| && |s.picks| == |words|
    && (forall k :: 0 <= k < |words| && s.picks[k].None? ==> s.entries[k] == WordTiming(words[k], None, None))
    && (forall k :: 0 <= k < |words| && s.picks[k].Some? ==>
          s.picks[k].value < |ivs| && ivs[s.picks[k].value].text.Some? && s.entries[k] == TimingOf(ivs[s.picks[k].value]))
    && (forall k :: 0 <= k < |words| ==> LegacyNormalize(s.entries[k].word) == words[k])
  }

  lemma LegacyMatchedEntry(iv: Interval, w: String)
    requires w != [] && LegacyWord(iv) == w
    ensures iv.text.Some? && LegacyNormalize(TimingOf(iv).word) == w
  {
  }

  lemma LegacyRecordsAppend(ivs: seq<Interval>, words: seq<String>, s: LegacyScan, w: String, x: WordTiming, m: Option<nat>)
    requires LegacyRecordsMatch(ivs, words, s)
    requires m.None? ==> x == WordTiming(w, None, None)
    requires m.Some? ==> m.value < |ivs| && ivs[m.value].text.Some? && x == TimingOf(ivs[m.value])
    requires LegacyNormalize(x.word) == w
    ensures LegacyRecordsMatch(ivs, words + [w], LegacyScan(s.entries + [x], s.picks + [m], s.cursor))
  {
  }

  lemma LegacyScanWordShape(ivs: seq<Interval>, words: seq<String>, s: LegacyScan, raw: String)
    requires LegacyRecordsMatch(ivs, words, s)
    ensures var w := LegacyNormalize(raw);
      LegacyRecordsMatch(ivs, words + (if w != [] then [w] else []), LegacyScanWord(ivs, s, raw))
  {
    var w := LegacyNormalize(raw);
    if w == [] {
      assert words + [] == words;
    } else {
      var m := LookaheadMatch(ivs, s.cursor, w);
      var x: WordTiming;
      if m.Some? {
        LegacyMatchedEntry(ivs[m.value], w);
        x := TimingOf(ivs[m.value]);
      } else {
        LegacyNormalizeIdempotent(raw);
        x := WordTiming(w, None, None);
      }
      assert LegacyScanWord(ivs, s, raw).entries == s.entries + [x];
      assert LegacyScanWord(ivs, s, raw).picks == s.picks + [m];
      LegacyRecordsAppend(ivs, words, s, w, x, m);
    }
  }

  /** Empty words get no record, every other word exactly one, in order; so a
      line never has more records than words. */
  lemma {:induction false} LegacyScanLineShape(ivs: seq<Interval>, from: nat, words: seq<String>)
    ensures LegacyRecordsMatch(ivs, RecordedWords(words), LegacyScanLine(ivs, from, words))
  {
    if words != [] {
      var n := |words| - 1;
      LegacyScanLineShape(ivs, from, words[..n]);
      LegacyScanWordShape(ivs, RecordedWords(words[..n]), LegacyScanLine(ivs, from, words[..n]), words[n]);
    }
  }

  /** The cursor never moves backwards and the entries used strictly increase. */
  lemma {:induction false} LegacyScanLineCursor(ivs: seq<Interval>, from: nat, words: seq<String>)
    ensures var s := LegacyScanLine(ivs, from, words);
      from <= s.cursor && (from <= |ivs| ==> s.cursor <= |ivs|) && IncreasingPicks(s.picks, from, s.cursor)
  {
    if words != [] {
      var n := |words| - 1;
      LegacyScanLineCursor(ivs, from, words[..n]);
      var s := LegacyScanLine(ivs, from, words[..n]);
      var w := LegacyNormalize(words[n]);
      if w != [] {
        var m := LookaheadMatch(ivs, s.cursor, w);
        if m.Some? {
          IncreasingPicksAppend(s.picks, [m], from, s.cursor, m.value + 1);
        } else {
          IncreasingPicksAppend(s.picks, [None], from, s.cursor, s.cursor);
        }
      }
    }
  }
  /** The line's final cursor is one past the last entry a word used, or where
      the search started when no word matched. */
  lemma {:induction false} LegacyScanLineCursorEnd(ivs: seq<Interval>, from: nat, words: seq<String>)
    ensures var s := LegacyScanLine(ivs, from, words);
      s.cursor == CursorAfter(s.picks, from)
  {
    if words != [] {
      var n := |words| - 1;
      LegacyScanLineCursorEnd(ivs, from, words[..n]);
      var s := LegacyScanLine(ivs, from, words[..n]);
      var w := LegacyNormalize(words[n]);
      if w != [] {
        var m := LookaheadMatch(ivs, s.cursor, w);
        assert LegacyScanLine(ivs, from, words).picks == s.picks + [m];
        assert (s.picks + [m])[..|s.picks|] == s.picks;
      }
    }
  }


  /** The scan over all lines: the output lines (bare record lists), every entry
      used, and the cursor. */
  datatype LegacySongScan = LegacySongScan(lines: seq<seq<WordTiming>>, picks: seq<Option<nat>>, cursor: nat)

  function LegacyScanSong(ivs: seq<Interval>, lines: seq<seq<String>>): LegacySongScan {
    if lines == [] then LegacySongScan([], [], 0)
    else
      var s := LegacyScanSong(ivs, lines[..|lines| - 1]);
      var ls := LegacyScanLine(ivs, s.cursor, lines[|lines| - 1]);
      LegacySongScan(s.lines + (if ls.entries != [] then [ls.entries] else []), s.picks + ls.picks, ls.cursor)
  }

  lemma LegacyScanSongStep(ivs: seq<Interval>, lines: seq<seq<String>>, i: nat)
    requires i < |lines|
    ensures var s := LegacyScanSong(ivs, lines[..i]);
      var ls := LegacyScanLine(ivs, s.cursor, lines[i]);
      var next := LegacyScanSong(ivs, lines[..i + 1]);
      next.cursor == ls.cursor && next.lines == s.lines + (if ls.entries != [] then [ls.entries] else [])
  {
    assert lines[..i + 1][..i] == lines[..i];
  }

  /** Lines without records are left out, so there are never more output lines
      than transcript lines and none of them is empty; the entries used strictly
      increase over the whole song. */
  lemma {:induction false} LegacyScanSongFacts(ivs: seq<Interval>, lines: seq<seq<String>>)
    ensures var s := LegacyScanSong(ivs, lines);
      && |s.lines| <= |lines|
      && (forall k :: 0 <= k < |s.lines| ==> s.lines[k] != [])
      && s.cursor <= |ivs| && IncreasingPicks(s.picks, 0, s.cursor)
  {
    if lines != [] {
      var n := |lines| - 1;
      LegacyScanSongFacts(ivs, lines[..n]);
      var s := LegacyScanSong(ivs, lines[..n]);
      LegacyScanLineCursor(ivs, s.cursor, lines[n]);
      var ls := LegacyScanLine(ivs, s.cursor, lines[n]);
      IncreasingPicksAppend(s.picks, ls.picks, 0, s.cursor, ls.cursor);
    }
  }

  /** The inner `while` over `start_index`. */
  method LookaheadSearch(ivs: seq<Interval>, from: nat, word: String) returns (found: Option<nat>)
    ensures found == LookaheadMatch(ivs, from, word)
  {
    var startIndex := from;
    while startIndex < |ivs|
      invariant from <= startIndex
      invariant LookaheadMatch(ivs, startIndex, word) == LookaheadMatch(ivs, from, word)
      decreases |ivs| - startIndex
    {
      var intervalWord := LegacyWord(ivs[startIndex]);
      if intervalWord == word {
        return Some(startIndex);
      } else if intervalWord == [] {
        startIndex := startIndex + 1;
      } else {
        return None;
      }
    }
    return None;
  }

  /** The loop over one line's words. */
  method LegacyMapLine(ivs: seq<Interval>, from: nat, words: seq<String>)
    returns (lineResult: seq<WordTiming>, cursor: nat)
    ensures var s := LegacyScanLine(ivs, from, words);
      lineResult == s.entries && cursor == s.cursor
  {
    lineResult, cursor := [], from;
    for i := 0 to |words|
      invariant var s := LegacyScanLine(ivs, from, words[..i]);
        lineResult == s.entries && cursor == s.cursor
    {
      assert words[..i + 1][..i] == words[..i];
      var word := LegacyNormalize(words[i]);
      if word == [] {
        continue;
      }
      var found := LookaheadSearch(ivs, cursor, word);
      if found.Some? {
        var iv := ivs[found.value];
        lineResult := lineResult + [WordTiming(iv.text.value, iv.start, iv.end)];
        cursor := found.value + 1;
      } else {
        lineResult := lineResult + [WordTiming(word, None, None)];
      }
    }
    assert words[..|words|] == words;
  }

  /** `map_transcript` of the older mapper: `None` for a missing or undecodable
      alignment file, otherwise the non-empty record lists of the lines in order. */
  method LegacyMapTranscript(alignment: AlignmentFile, lyrics: LyricsFile) returns (result: Option<seq<seq<WordTiming>>>)
    ensures !alignment.Decoded? <==> result.None?
    ensures alignment.Decoded? ==> result == Some(LegacyScanSong(EntriesOf(alignment), LegacyTranscript(lyrics)).lines)
    ensures result.Some? ==> |result.value| <= |LegacyTranscript(lyrics)|
    ensures result.Some? ==> forall k :: 0 <= k < |result.value| ==> result.value[k] != []
  {
    if !alignment.Decoded? {
      return None;
    }
    var transcriptLines := LegacyProcessTranscript(lyrics);
    var ivs := if alignment.wordEntries.Some? then alignment.wordEntries.value else [];
    var mapped: seq<seq<WordTiming>> := [];
    if transcriptLines != [] {
      var intervalIndex: nat := 0;
      for i := 0 to |transcriptLines|
        invariant var s := LegacyScanSong(ivs, transcriptLines[..i]);
          mapped == s.lines && intervalIndex == s.cursor
      {
        LegacyScanSongStep(ivs, transcriptLines, i);
        var lineResult, cursor := LegacyMapLine(ivs, intervalIndex, transcriptLines[i]);
        intervalIndex := cursor;
        if lineResult != [] {
          mapped := mapped + [lineResult];
        }
      }
      assert transcriptLines[..|transcriptLines|] == transcriptLines;
    }
    LegacyScanSongFacts(ivs, transcriptLines);
    return Some(mapped);
  }
}
