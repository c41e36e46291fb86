/**
 * What both transcript mappers read: the word tier of the forced aligner's JSON
 * output (`tiers.words.entries`) and the lyrics file, and what they produce
 * for one transcript word.
 */
module Alignment {
  import opened Wrappers
  import opened Text

  /** One aligner entry, the JSON list `[start, end, text]`.  Either time may be
      `null`; an entry with fewer than three elements has no text. */
  datatype Interval = Interval(start: Option<real>, end: Option<real>, text: Option<String>)

  /** The alignment file: missing, not valid JSON, or decoded.  A decoded document
      without a `tiers.words.entries` path is `Decoded(None)`. */
  datatype AlignmentFile = AlignmentNotFound | Undecodable | Decoded(wordEntries: Option<seq<Interval>>)

  /** The lyrics file: missing, or the lines `readlines()` returns. */
  datatype LyricsFile = LyricsNotFound | Lyrics(lines: seq<String>)

  /** `alignment_json.get('tiers', {}).get('words', {}).get('entries', [])` */
  function EntriesOf(file: AlignmentFile): seq<Interval>
    requires file.Decoded?
  {
    if file.wordEntries.Some? then file.wordEntries.value else []
  }

  /** One transcript word with the times the aligner gave it (both `None` when unmatched). */
  datatype WordTiming = WordTiming(word: String, start: Option<real>, end: Option<real>)

  /** The normalised text of an entry, `interval[2].lower().strip(chars)`, or `''`
      when the entry has no text; `punct` is the stripped character set. */
  function AlignedWord(iv: Interval, punct: char -> bool): String {
    if iv.text.Some? then Trim(Lower(iv.text.value), punct) else []
  }

  /** The timing record a matched word copies from its entry: the raw text and both times. */
  function TimingOf(iv: Interval): (t: WordTiming)
    requires iv.text.Some?
    ensures t.word == iv.text.value && t.start == iv.start && t.end == iv.end
  {
    WordTiming(iv.text.value, iv.start, iv.end)
  }

  /** The first entry at or after `from` whose normalised text equals `word`,
      however many other entries lie in between. */
  function FirstMatch(ivs: seq<Interval>, from: nat, word: String, punct: char -> bool): (r: Option<nat>)
    ensures r.Some? ==> from <= r.value < |ivs| && AlignedWord(ivs[r.value], punct) == word
    ensures r.Some? ==> forall j :: from <= j < r.value ==> AlignedWord(ivs[j], punct) != word
    ensures r.None? ==> forall j :: from <= j < |ivs| ==> AlignedWord(ivs[j], punct) != word
    decreases |ivs| - from
  {
    if from >= |ivs| then None
    else if AlignedWord(ivs[from], punct) == word then Some(from)
    else FirstMatch(ivs, from + 1, word, punct)
  }

  /** The entry indices a run of words used (`None` for an unmatched word) all lie
      in `[lo, hi)` and strictly increase, so no entry is used twice. */
  ghost predicate IncreasingPicks(picks: seq<Option<nat>>, lo: nat, hi: nat) {
    && (forall k :: 0 <= k < |picks| && picks[k].Some? ==> lo <= picks[k].value < hi)
    && (forall j, k :: 0 <= j < k < |picks| && picks[j].Some? && picks[k].Some? ==> picks[j].value < picks[k].value)
  }

  /** Where a cursor that started at `from` stands after `picks`: one past the
      last entry used, or `from` when no word was matched. */
  function CursorAfter(picks: seq<Option<nat>>, from: nat): nat {
    if picks == [] then from
    else if picks[|picks| - 1].Some? then picks[|picks| - 1].value + 1
    else CursorAfter(picks[..|picks| - 1], from)
  }

  lemma IncreasingPicksAppend(p: seq<Option<nat>>, q: seq<Option<nat>>, a: nat, b: nat, c: nat)
    requires a <= b <= c
    requires IncreasingPicks(p, a, b) && IncreasingPicks(q, b, c)
    ensures IncreasingPicks(p + q, a, c)
  {
    var pq := p + q;
    forall k | 0 <= k < |pq| && pq[k].Some?
      ensures a <= pq[k].value < c
    {
      if k >= |p| {
        assert pq[k] == q[k - |p|];
      }
    }
    forall j, k | 0 <= j < k < |pq| && pq[j].Some? && pq[k].Some?
      ensures pq[j].value < pq[k].value
    {
      if k < |p| {
      } else if j >= |p| {
        assert pq[j] == q[j - |p|] && pq[k] == q[k - |p|];
      } else {
        assert pq[j] == p[j] && pq[k] == q[k - |p|];
      }
    }
  }
}
