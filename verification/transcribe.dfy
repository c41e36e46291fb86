/**
 * The current transcript mapper (`musicprocessing/transcribe.py`): lyric lines
 * are normalised into word lists, then every word is looked up in the
 * aligner's word entries with a cursor that only moves forward, and each
 * line gets the earliest start and latest end of its timed words.
 */
module Transcribe {
  import opened Wrappers
  import opened Text
  import opened Alignment

  /** The characters `strip(".,!?;:")` removes from both ends of a word. */
  predicate IsEdgePunct(c: char) {
    c == '.' || c == ',' || c == '!' || c == '?' || c == ';' || c == ':'
  }

  lemma EdgePunctIsCaseBlind()
    ensures CaseBlind(IsEdgePunct)
  {
  }

  /** `word.lower().strip(".,!?;:")` */
  function Normalize(w: String): String {
    Trim(Lower(w), IsEdgePunct)
  }

  /** A word as the transcript keeps it: non-empty, lower-case, no edge punctuation. */
  ghost predicate IsNormalWord(w: String) {
    w != [] && Lower(w) == w && !IsEdgePunct(w[0]) && !IsEdgePunct(w[|w| - 1])
  }

  /** Normalising is the identity on normal words, so a kept word normalises to itself. */
  lemma NormalWordIsFixed(w: String)
    requires IsNormalWord(w)
    ensures Normalize(w) == w
  {
    TrimUnchanged(w, IsEdgePunct);
  }

  /** A non-empty normalised word is a normal word. */
  lemma NormalizeIsNormal(t: String)
    ensures Normalize(t) != [] ==> IsNormalWord(Normalize(t))
  {
    EdgePunctIsCaseBlind();
    LowerTrimIsNormal(t, IsEdgePunct);
  }

  /** One kept lyric line: its stripped text and its normalised words. */
  datatype TranscriptLine = TranscriptLine(originalText: String, wordList: seq<String>)

  ghost predicate WellFormedLine(l: TranscriptLine) {
    l.originalText != [] && l.wordList != [] && forall k :: 0 <= k < |l.wordList| ==> IsNormalWord(l.wordList[k])
  }

  /** The non-empty normalised forms of `tokens`, in order. */
  function NormalizedWords(tokens: seq<String>): (r: seq<String>)
    ensures |r| <= |tokens|
    ensures forall k :: 0 <= k < |r| ==> IsNormalWord(r[k])
  {
    if tokens == [] then []
    else
      var w := Normalize(tokens[0]);
      NormalizeIsNormal(tokens[0]);
      (if w != [] then [w] else []) + NormalizedWords(tokens[1..])
  }

  /** Normalising keeps token order: the words of a concatenation are the
      words of its parts. */
  lemma {:induction false} NormalizedWordsAppend(a: seq<String>, b: seq<String>)
    ensures NormalizedWords(a + b) == NormalizedWords(a) + NormalizedWords(b)
  {
    if a == [] {
      assert a + b == b;
    } else {
      assert (a + b)[0] == a[0];
      assert (a + b)[1..] == a[1..] + b;
      NormalizedWordsAppend(a[1..], b);
    }
  }

  /** The kept words are exactly the non-empty normalised forms of the tokens. */
  lemma {:induction false} NormalizedWordsMembers(tokens: seq<String>, w: String)
    ensures w in NormalizedWords(tokens) <==> w != [] && exists t :: t in tokens && Normalize(t) == w
  {
    if tokens != [] {
      NormalizedWordsMembers(tokens[1..], w);
      assert forall t :: t in tokens <==> t == tokens[0] || t in tokens[1..];
    }
  }

  /** What one raw line contributes: nothing when it is blank or has no word left
      after normalisation; otherwise its stripped text and the normalised words
      of its tokens. */
  function ProcessLine(raw: String): (r: Option<TranscriptLine>)
    ensures r.Some? <==> Strip(raw) != [] && NormalizedWords(Split(raw)) != []
    ensures r.Some? ==> WellFormedLine(r.value) && r.value.originalText == Strip(raw)
    ensures r.Some? ==> r.value.wordList == NormalizedWords(Split(raw))
  {
    var text := Strip(raw);
    SplitIgnoresStrip(text);
    SplitIgnoresStrip(raw);
    if text == [] then None
    else
      var words := NormalizedWords(Split(Strip(text)));
      if words == [] then None else Some(TranscriptLine(text, words))
  }

  /** The lines `process_transcript` collects from the raw lines, in file order. */
  function ProcessedLines(raws: seq<String>): (r: seq<TranscriptLine>)
    ensures |r| <= |raws|
    ensures forall k :: 0 <= k < |r| ==> WellFormedLine(r[k])
  {
    if raws == [] then []
    else
      var kept := ProcessedLines(raws[..|raws| - 1]);
      var line := ProcessLine(raws[|raws| - 1]);
      if line.Some? then kept + [line.value] else kept
  }

  /** Processing keeps file order: the lines of a concatenation are the
      concatenation of the lines of its parts. */
  lemma {:induction false} ProcessedLinesAppend(a: seq<String>, b: seq<String>)
    ensures ProcessedLines(a + b) == ProcessedLines(a) + ProcessedLines(b)
    decreases |b|
  {
    if b != [] {
      assert (a + b)[..|a + b| - 1] == a + b[..|b| - 1];
      ProcessedLinesAppend(a, b[..|b| - 1]);
    } else {
      assert a + b == a;
    }
  }

  /** The transcript `process_transcript` returns for a lyrics file. */
  function Transcript(file: LyricsFile): seq<TranscriptLine> {
    if file.LyricsNotFound? then [] else ProcessedLines(file.lines)
  }

  lemma ProcessedLinesStep(raws: seq<String>, i: nat)
    requires i < |raws|
    ensures var line := ProcessLine(raws[i]);
      ProcessedLines(raws[..i + 1]) == ProcessedLines(raws[..i]) + (if line.Some? then [line.value] else [])
  {
    assert raws[..i + 1][..i] == raws[..i];
  }

  /** `process_transcript`: a missing file yields no lines; otherwise the kept
      lines, every one with a non-empty list of normal words. */
  method ProcessTranscript(file: LyricsFile) returns (lines: seq<TranscriptLine>)
    ensures file.LyricsNotFound? ==> lines == []
    ensures file.Lyrics? ==> lines == ProcessedLines(file.lines)
    ensures forall k :: 0 <= k < |lines| ==> WellFormedLine(lines[k])
  {
    if file.LyricsNotFound? {
      return [];
    }
    var raws := file.lines;
    lines := [];
    for i := 0 to |raws|
      invariant lines == ProcessedLines(raws[..i])
    {
      ProcessedLinesStep(raws, i);
      var text := Strip(raws[i]);
      if text == [] {
        continue;
      }
      var words := NormalizedWords(Split(Strip(text)));
      if words != [] {
        lines := lines + [TranscriptLine(text, words)];
      }
    }
    assert raws[..|raws|] == raws;
  }

  // ---------------------------------------------------------------------------
  // Mapping words to aligner entries

  /** The running minimum of the non-null start times. */
  function EarlierStart(acc: Option<real>, t: Option<real>): Option<real> {
    if t.Some? && (acc.None? || t.value < acc.value) then t else acc
  }

  /** The running maximum of the non-null end times. */
  function LaterEnd(acc: Option<real>, t: Option<real>): Option<real> {
    if t.Some? && (acc.None? || t.value > acc.value) then t else acc
  }

  /** The state of the scan over one line: the word records so far, the entry each
      word used, the search cursor, and the line's running start and end. */
  datatype LineScan = LineScan(words: seq<WordTiming>, picks: seq<Option<nat>>, cursor: nat,
                               start: Option<real>, end: Option<real>)

  /** One transcript word: an empty word is skipped; otherwise the first matching
      entry at or after the cursor is used and the cursor moves past it, and a
      word without a match gets no times and leaves the cursor where it was. */
  function ScanWord(ivs: seq<Interval>, s: LineScan, w: String): LineScan {
    if w == [] then s
    else
      match FirstMatch(ivs, s.cursor, w, IsEdgePunct)
      case None =>
        s.(words := s.words + [WordTiming(w, None, None)], picks := s.picks + [None])
      case Some(i) =>
        LineScan(s.words + [TimingOf(ivs[i])], s.picks + [Some(i)], i + 1,
                 EarlierStart(s.start, ivs[i].start), LaterEnd(s.end, ivs[i].end))
  }

  /** The scan of a whole line whose search starts at `from`. */
  function ScanLine(ivs: seq<Interval>, from: nat, words: seq<String>): LineScan {
    if words == [] then LineScan([], [], from, None, None)
    else ScanWord(ivs, ScanLine(ivs, from, words[..|words| - 1]), words[|words| - 1])
  }

  /** The records of a scan match `words` one for one: a matched word copies its
      entry's raw text and times, an unmatched one is `{word, None, None}`, and
      either way the record's word normalises to the transcript word. */
  ghost predicate RecordsMatchWords(ivs: seq<Interval>, words: seq<String>, s: LineScan) {
    && |s.words| == |words| && |s.picks| == |words|
    && (forall k :: 0 <= k < |words| && s.picks[k].None? ==> s.words[k] == WordTiming(words[k], None, None))
    && (forall k :: 0 <= k < |words| && s.picks[k].Some? ==>
          s.picks[k].value < |ivs| && ivs[s.picks[k].value].text.Some? && s.words[k] == TimingOf(ivs[s.picks[k].value]))
    && (forall k :: 0 <= k < |words| ==> Normalize(s.words[k].word) == words[k])
  }

  lemma ScanWordShape(ivs: seq<Interval>, words: seq<String>, s: LineScan, w: String)
    requires RecordsMatchWords(ivs, words, s) && IsNormalWord(w)
    ensures RecordsMatchWords(ivs, words + [w], ScanWord(ivs, s, w))
  {
    var m := FirstMatch(ivs, s.cursor, w, IsEdgePunct);
    var x: WordTiming;
    if m.Some? {
      MatchedEntryHasText(ivs[m.value], w);
      x := TimingOf(ivs[m.value]);
    } else {
      NormalWordIsFixed(w);
      x := WordTiming(w, None, None);
    }
    assert ScanWord(ivs, s, w).words == s.words + [x];
    assert ScanWord(ivs, s, w).picks == s.picks + [m];
    RecordsAppend(ivs, words, s, w, x, m);
  }

  lemma MatchedEntryHasText(iv: Interval, w: String)
    requires w != [] && AlignedWord(iv, IsEdgePunct) == w
    ensures iv.text.Some? && Normalize(TimingOf(iv).word) == w
  {
  }

  lemma RecordsAppend(ivs: seq<Interval>, words: seq<String>, s: LineScan, w: String, x: WordTiming, m: Option<nat>)
    requires RecordsMatchWords(ivs, words, s)
    requires m.None? ==> x == WordTiming(w, None, None)
    requires m.Some? ==> m.value < |ivs| && ivs[m.value].text.Some? && x == TimingOf(ivs[m.value])
    requires Normalize(x.word) == w
    ensures RecordsMatchWords(ivs, words + [w], s.(words := s.words + [x], picks := s.picks + [m]))
  {
  }

  /** One record per word of a line of normal words, in order. */
  lemma {:induction false} ScanLineShape(ivs: seq<Interval>, from: nat, words: seq<String>)
    requires forall k :: 0 <= k < |words| ==> IsNormalWord(words[k])
    ensures RecordsMatchWords(ivs, words, ScanLine(ivs, from, words))
  {
    if words != [] {
      var n := |words| - 1;
      var prefix := words[..n];
      assert prefix + [words[n]] == words;
      ScanLineShape(ivs, from, prefix);
      var s := ScanLine(ivs, from, prefix);
      assert IsNormalWord(words[n]);
      ScanWordShape(ivs, prefix, s, words[n]);
    }
  }

  /** The cursor never moves backwards, and the entries the words use strictly
      increase between where the line's search started and where it ended. */
  lemma {:induction false} ScanLineCursor(ivs: seq<Interval>, from: nat, words: seq<String>)
    ensures var s := ScanLine(ivs, from, words);
      from <= s.cursor && (from <= |ivs| ==> s.cursor <= |ivs|) && IncreasingPicks(s.picks, from, s.cursor)
  {
    if words != [] {
      var n := |words| - 1;
      ScanLineCursor(ivs, from, words[..n]);
      var s := ScanLine(ivs, from, words[..n]);
      var w := words[n];
      if w != [] {
        var m := FirstMatch(ivs, s.cursor, w, IsEdgePunct);
        if m.Some? {
          IncreasingPicksAppend(s.picks, [m], from, s.cursor, m.value + 1);
        } else {
          IncreasingPicksAppend(s.picks, [None], from, s.cursor, s.cursor);
        }
      }
    }
  }
  /** The line's final cursor is one past the last entry a word used, or where
      the search started when no word matched. */
  lemma {:induction false} ScanLineCursorEnd(ivs: seq<Interval>, from: nat, words: seq<String>)
    ensures var s := ScanLine(ivs, from, words);
      s.cursor == CursorAfter(s.picks, from)
  {
    if words != [] {
      var n := |words| - 1;
      ScanLineCursorEnd(ivs, from, words[..n]);
      var s := ScanLine(ivs, from, words[..n]);
      var w := words[n];
      if w != [] {
        var m := FirstMatch(ivs, s.cursor, w, IsEdgePunct);
        assert ScanLine(ivs, from, words).picks == s.picks + [m];
        assert (s.picks + [m])[..|s.picks|] == s.picks;
      }
    }
  }


  /** `m` is the smallest non-null start among the records, and `None` exactly when there is none. */
  ghost predicate IsEarliestStart(ws: seq<WordTiming>, m: Option<real>) {
    && (m.None? <==> forall k :: 0 <= k < |ws| ==> ws[k].start.None?)
    && (m.Some? ==> exists k :: 0 <= k < |ws| && ws[k].start == m)
    && (m.Some? ==> forall k :: 0 <= k < |ws| && ws[k].start.Some? ==> m.value <= ws[k].start.value)
  }

  /** `m` is the largest non-null end among the records, and `None` exactly when there is none. */
  ghost predicate IsLatestEnd(ws: seq<WordTiming>, m: Option<real>) {
    && (m.None? <==> forall k :: 0 <= k < |ws| ==> ws[k].end.None?)
    && (m.Some? ==> exists k :: 0 <= k < |ws| && ws[k].end == m)
    && (m.Some? ==> forall k :: 0 <= k < |ws| && ws[k].end.Some? ==> ws[k].end.value <= m.value)
  }

  lemma EarlierStartStep(ws: seq<WordTiming>, acc: Option<real>, x: WordTiming)
    requires IsEarliestStart(ws, acc)
    ensures IsEarliestStart(ws + [x], EarlierStart(acc, x.start))
  {
    var ws' := ws + [x];
    var m := EarlierStart(acc, x.start);
    if m.Some? {
      if m == x.start {
        assert ws'[|ws|].start == m;
      } else {
        var k :| 0 <= k < |ws| && ws[k].start == m;
        assert ws'[k].start == m;
      }
    }
  }

  lemma LaterEndStep(ws: seq<WordTiming>, acc: Option<real>, x: WordTiming)
    requires IsLatestEnd(ws, acc)
    ensures IsLatestEnd(ws + [x], LaterEnd(acc, x.end))
  {
    var ws' := ws + [x];
    var m := LaterEnd(acc, x.end);
    if m.Some? {
      if m == x.end {
        assert ws'[|ws|].end == m;
      } else {
        var k :| 0 <= k < |ws| && ws[k].end == m;
        assert ws'[k].end == m;
      }
    }
  }

  /** A line's start is the minimum non-null start of its records and its end the
      maximum non-null end; each is `None` when no record has one. */
  lemma {:induction false} ScanLineSpan(ivs: seq<Interval>, from: nat, words: seq<String>)
    ensures var s := ScanLine(ivs, from, words);
      IsEarliestStart(s.words, s.start) && IsLatestEnd(s.words, s.end)
  {
    if words != [] {
      var n := |words| - 1;
      ScanLineSpan(ivs, from, words[..n]);
      var s := ScanLine(ivs, from, words[..n]);
      var w := words[n];
      if w != [] {
        var m := FirstMatch(ivs, s.cursor, w, IsEdgePunct);
        if m.Some? {
          EarlierStartStep(s.words, s.start, TimingOf(ivs[m.value]));
          LaterEndStep(s.words, s.end, TimingOf(ivs[m.value]));
        } else {
          EarlierStartStep(s.words, s.start, WordTiming(w, None, None));
          LaterEndStep(s.words, s.end, WordTiming(w, None, None));
        }
      }
    }
  }

  /** `search_lookahead_idx` walking the entries from the cursor (the inner `while`). */
  method SearchAlignment(ivs: seq<Interval>, from: nat, word: String) returns (found: Option<nat>)
    ensures found == FirstMatch(ivs, from, word, IsEdgePunct)
  {
    var k := from;
    while k < |ivs|
      invariant from <= k
      invariant FirstMatch(ivs, k, word, IsEdgePunct) == FirstMatch(ivs, from, word, IsEdgePunct)
      decreases |ivs| - k
    {
      if AlignedWord(ivs[k], IsEdgePunct) == word {
        return Some(k);
      }
      k := k + 1;
    }
    return None;
  }

  /** The loop over one line's words, with `temp_interval_search_idx` as the cursor
      and the running line start and end. */
  method MapLine(ivs: seq<Interval>, from: nat, words: seq<String>)
    returns (entries: seq<WordTiming>, cursor: nat, lineStart: Option<real>, lineEnd: Option<real>)
    ensures var s := ScanLine(ivs, from, words);
      entries == s.words && cursor == s.cursor && lineStart == s.start && lineEnd == s.end
  {
    entries, cursor, lineStart, lineEnd := [], from, None, None;
    for i := 0 to |words|
      invariant var s := ScanLine(ivs, from, words[..i]);
        entries == s.words && cursor == s.cursor && lineStart == s.start && lineEnd == s.end
    {
      assert words[..i + 1][..i] == words[..i];
      var word := words[i];
      if word == [] {
        continue;
      }
      var found := SearchAlignment(ivs, cursor, word);
      if found.Some? {
        var iv := ivs[found.value];
        entries := entries + [WordTiming(iv.text.value, iv.start, iv.end)];
        if iv.start.Some? {
          if lineStart.None? || iv.start.value < lineStart.value {
            lineStart := iv.start;
          }
        }
        if iv.end.Some? {
          if lineEnd.None? || iv.end.value > lineEnd.value {
            lineEnd := iv.end;
          }
        }
        cursor := found.value + 1;
      } else {
        entries := entries + [WordTiming(word, None, None)];
      }
    }
    assert words[..|words|] == words;
  }

  // ---------------------------------------------------------------------------
  // The whole song

  /** One output line: the line's text, its word records and its span. */
  datatype MappedLine = MappedLine(lineText: String, words: seq<WordTiming>,
                                   lineStart: Option<real>, lineEnd: Option<real>)

  /** The scan over all lines: the output so far, every entry used, and the cursor
      (`interval_index`) the next line starts from. */
  datatype SongScan = SongScan(lines: seq<MappedLine>, picks: seq<Option<nat>>, cursor: nat)

  function ScanSong(ivs: seq<Interval>, lines: seq<TranscriptLine>): SongScan {
    if lines == [] then SongScan([], [], 0)
    else
      var s := ScanSong(ivs, lines[..|lines| - 1]);
      var l := lines[|lines| - 1];
      var ls := ScanLine(ivs, s.cursor, l.wordList);
      var out := if ls.words != [] then [MappedLine(l.originalText, ls.words, ls.start, ls.end)] else [];
      SongScan(s.lines + out, s.picks + ls.picks, ls.cursor)
  }

  lemma ScanSongStep(ivs: seq<Interval>, lines: seq<TranscriptLine>, i: nat)
    requires i < |lines|
    ensures var s := ScanSong(ivs, lines[..i]);
      var l := lines[i];
      var ls := ScanLine(ivs, s.cursor, l.wordList);
      var next := ScanSong(ivs, lines[..i + 1]);
      next.cursor == ls.cursor &&
      next.lines == s.lines + (if ls.words != [] then [MappedLine(l.originalText, ls.words, ls.start, ls.end)] else [])
  {
    assert lines[..i + 1][..i] == lines[..i];
  }

  /** An output line belongs to a transcript line: same text, one record per
      word whose word normalises to the transcript word, and the span of its
      timed records. */
  ghost predicate LineMatches(l: TranscriptLine, m: MappedLine) {
    && m.lineText == l.originalText
    && |m.words| == |l.wordList|
    && (forall j :: 0 <= j < |l.wordList| ==> Normalize(m.words[j].word) == l.wordList[j])
    && IsEarliestStart(m.words, m.lineStart)
    && IsLatestEnd(m.words, m.lineEnd)
  }

  lemma ScanLineMatches(ivs: seq<Interval>, from: nat, l: TranscriptLine)
    requires WellFormedLine(l)
    ensures var ls := ScanLine(ivs, from, l.wordList);
      ls.words != [] && LineMatches(l, MappedLine(l.originalText, ls.words, ls.start, ls.end))
  {
    ScanLineShape(ivs, from, l.wordList);
    ScanLineSpan(ivs, from, l.wordList);
  }

  /** Exactly one output line per transcript line, in order, each matching its line. */
  lemma {:induction false} ScanSongShape(ivs: seq<Interval>, lines: seq<TranscriptLine>)
    requires forall k :: 0 <= k < |lines| ==> WellFormedLine(lines[k])
    ensures var out := ScanSong(ivs, lines).lines;
      |out| == |lines| && forall k :: 0 <= k < |lines| ==> LineMatches(lines[k], out[k])
  {
    if lines != [] {
      var n := |lines| - 1;
      var prefix := lines[..n];
      assert lines == prefix + [lines[n]];
      var s := ScanSong(ivs, prefix);
      var ls := ScanLine(ivs, s.cursor, lines[n].wordList);
      var m := MappedLine(lines[n].originalText, ls.words, ls.start, ls.end);
      ScanLineMatches(ivs, s.cursor, lines[n]);
      assert ScanSong(ivs, lines).lines == s.lines + [m];
      assert forall k :: 0 <= k < n ==> prefix[k] == lines[k];
      ScanSongShape(ivs, prefix);
      LinesMatchAppend(prefix, s.lines, lines[n], m);
    }
  }

  lemma LinesMatchAppend(lines: seq<TranscriptLine>, out: seq<MappedLine>, l: TranscriptLine, m: MappedLine)
    requires |out| == |lines| && forall k :: 0 <= k < |lines| ==> LineMatches(lines[k], out[k])
    requires LineMatches(l, m)
    ensures var lines', out' := lines + [l], out + [m];
      |out'| == |lines'| && forall k :: 0 <= k < |lines'| ==> LineMatches(lines'[k], out'[k])
  {
  }

  /** Across the whole song the cursor never goes back and the entries used
      strictly increase, so no aligner entry is given to two words. */
  lemma {:induction false} ScanSongCursor(ivs: seq<Interval>, lines: seq<TranscriptLine>)
    ensures var s := ScanSong(ivs, lines);
      s.cursor <= |ivs| && IncreasingPicks(s.picks, 0, s.cursor)
  {
    if lines != [] {
      var n := |lines| - 1;
      ScanSongCursor(ivs, lines[..n]);
      var s := ScanSong(ivs, lines[..n]);
      ScanLineCursor(ivs, s.cursor, lines[n].wordList);
      var ls := ScanLine(ivs, s.cursor, lines[n].wordList);
      IncreasingPicksAppend(s.picks, ls.picks, 0, s.cursor, ls.cursor);
    }
  }

  /** `map_transcript`: `None` when the alignment file is missing or not JSON,
      otherwise one mapped line per transcript line (none when the lyrics yield
      no line), each with as many records as the line has words. */
  method MapTranscript(alignment: AlignmentFile, lyrics: LyricsFile) returns (result: Option<seq<MappedLine>>)
    ensures !alignment.Decoded? <==> result.None?
    ensures alignment.Decoded? ==> result == Some(ScanSong(EntriesOf(alignment), Transcript(lyrics)).lines)
    ensures result.Some? ==> var lines := Transcript(lyrics);
      |result.value| == |lines| && forall k :: 0 <= k < |lines| ==> LineMatches(lines[k], result.value[k])
  {
    if !alignment.Decoded? {
      return None;
    }
    var transcriptLines := ProcessTranscript(lyrics);
    var ivs := if alignment.wordEntries.Some? then alignment.wordEntries.value else [];
    var mapped: seq<MappedLine> := [];
    if transcriptLines != [] {
      var intervalIndex: nat := 0;
      for i := 0 to |transcriptLines|
        invariant var s := ScanSong(ivs, transcriptLines[..i]);
          mapped == s.lines && intervalIndex == s.cursor
      {
        ScanSongStep(ivs, transcriptLines, i);
        var line := transcriptLines[i];
        var entries, cursor, lineStart, lineEnd := MapLine(ivs, intervalIndex, line.wordList);
        intervalIndex := cursor;
        if entries != [] {
          mapped := mapped + [MappedLine(line.originalText, entries, lineStart, lineEnd)];
        }
      }
      assert transcriptLines[..|transcriptLines|] == transcriptLines;
    }
    ScanSongShape(ivs, transcriptLines);
    return Some(mapped);
  }
}
