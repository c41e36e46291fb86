# Music translator: lyric mapping, analysis clients and drum segmentation

This project models the Python back end of a music translator in Dafny. The
back end splits a song into stems, aligns the lyrics to the vocals, and
analyses pitch, volume and drum hits. The model covers:

- **Transcript mapping.** Three mappers turn a lyrics file and a forced
  aligner's word timings into timed lines:
  - the current mapper, `musicprocessing/transcribe.py`, modelled in `transcribe.dfy`;
  - the older mapper, `musicprocessing/map_transcript.py`, modelled in `legacy_mapping.dfy`;
  - the sing-along display's TextGrid mapper, `singalongapp/maptranscript.py`, modelled in `sing_along.dfy`.

  The aligner's JSON word entries are modelled in `alignment.dfy`. The Python
  string operations the mappers use (`split`, `strip`, `lower`) are in `text.dfy`.
- **Analysis clients.** The clients of the fundamental-frequency (F0) and volume
  services, `musicprocessing/F0.py` and `musicprocessing/volume.py`, are modelled
  in `analysis_clients.dfy`. Each client filters its argument dictionary, posts
  one JSON body, and turns the reply or the exception into a result dictionary.
- **Drum analysis.** The drum analysis service's segmentation and orchestration,
  `drum_analysis_service/drum_analysis.py`, is modelled in `drum_analysis.dfy`:
  - the cut of one onset's segment, ending at the first of the end of the
    audio, the next onset, the maximum duration and the RMS decay point;
  - the default features of an empty segment;
  - the per-onset helper;
  - the concurrent analysis, whose results are sorted by onset time.

Files and services are inputs of the model:
- a lyrics file is `Lyrics(lines)` or `LyricsNotFound`;
- an alignment file is `Decoded(entries)`, `Undecodable` or `AlignmentNotFound`;
- a TextGrid file is its tiers or unreadable;
- an HTTP exchange is the exception the POST raised, or the response's status,
  text and decoded body.

Loops in the source are methods with loop invariants. Each method's `ensures`
ties its result to a specification function. Most of these functions are left
folds, so a loop's invariant is the function applied to the prefix it has seen.
Lemmas then prove what the functions mean.

## Model

| member | source | states |
|---|---|---|
| Text.Split | musictranslator/musicprocessing/transcribe.py:21 | `str.split()`: every token is a non-empty run of non-whitespace, and there are no tokens exactly when the string is all whitespace |
| Text.SplitJoin | musictranslator/musicprocessing/transcribe.py:21 | the tokens of a concatenation cut at whitespace are the tokens of its parts, in order |
| Text.SplitSeparator | musictranslator/musicprocessing/transcribe.py:21 | a whitespace character separates: the tokens of `a`, a space, then `b` are the tokens of `a` followed by those of `b` |
| Text.SplitToken | musictranslator/musicprocessing/transcribe.py:21 | a run of non-whitespace is exactly one token; with `SplitSeparator` and the empty string this fixes which runs `split()` returns and their order |
| Text.SplitIgnoresStrip | musictranslator/musicprocessing/transcribe.py:17-21 | splitting the stripped line gives the same tokens as splitting the raw line |
| Text.StripIdempotent | musictranslator/musicprocessing/transcribe.py:17-21 | stripping the already stripped text again changes nothing |
| Text.TrimEmpty | musictranslator/musicprocessing/map_transcript.py:18 | `strip(chars)` leaves nothing exactly when every character is in the set |
| Text.StripNonEmptySplits | musictranslator/musicprocessing/transcribe.py:17-21 | a stripped line is non-empty exactly when it splits into at least one token |
| Text.TrimIsSlice | musictranslator/musicprocessing/transcribe.py:21 | `strip(chars)` removes exactly the leading and trailing characters in the set and keeps a slice whose ends are outside it |
| Text.LowerTrimIsNormal | musictranslator/musicprocessing/transcribe.py:21 | lower-casing then stripping punctuation gives a lower-case word with no punctuation at either end |
| Alignment.FirstMatch | musictranslator/musicprocessing/transcribe.py:85-110 | the first entry at or after the cursor whose normalised text equals the word; no earlier entry matches; `None` only when no entry from the cursor on matches |
| Transcribe.NormalizedWords | musictranslator/musicprocessing/transcribe.py:21-23 | the kept words are no more than the tokens, and each is non-empty, lower-case and free of `.,!?;:` at both ends |
| Transcribe.NormalizedWordsAppend | musictranslator/musicprocessing/transcribe.py:21-23 | normalising keeps token order: the words of a concatenation are the words of its parts |
| Transcribe.NormalizedWordsMembers | musictranslator/musicprocessing/transcribe.py:21-23 | a word is kept exactly when it is non-empty and is the normalised form of some token |
| Transcribe.NormalWordIsFixed | musictranslator/musicprocessing/transcribe.py:21-23 | normalising a kept word changes nothing |
| Transcribe.ProcessLine | musictranslator/musicprocessing/transcribe.py:17-29 | a line is kept exactly when its stripped text is non-empty and some token survives normalisation; a kept line stores the stripped text and the normalised words of its tokens, all normal |
| Transcribe.ProcessedLines | musictranslator/musicprocessing/transcribe.py:15-30 | no more lines than the file has, each well formed |
| Transcribe.ProcessedLinesAppend | musictranslator/musicprocessing/transcribe.py:15-30 | lines are processed independently and in file order: the result for a concatenation is the concatenation of the results |
| Transcribe.ProcessTranscript | musictranslator/musicprocessing/transcribe.py:7-33 | a missing file gives no lines; otherwise the loop returns exactly the processed lines, each well formed |
| Transcribe.EarlierStartStep | musictranslator/musicprocessing/transcribe.py:99-101 | the running start stays the smallest non-null start seen, and `None` while there is none |
| Transcribe.LaterEndStep | musictranslator/musicprocessing/transcribe.py:102-104 | the running end stays the largest non-null end seen, and `None` while there is none |
| Transcribe.ScanWordShape | musictranslator/musicprocessing/transcribe.py:81-113 | each word adds exactly one record: the matched entry's text and times, or the word with null times |
| Transcribe.ScanLineShape | musictranslator/musicprocessing/transcribe.py:77-113 | a line's records match its words one for one, in order |
| Transcribe.ScanLineCursor | musictranslator/musicprocessing/transcribe.py:75-117 | the cursor never moves back, and the entries the words use strictly increase and lie between the old and new cursor |
| Transcribe.ScanLineCursorEnd | musictranslator/musicprocessing/transcribe.py:75-117 | after a line the cursor is one past the last entry a word used, or where the line's search started when no word matched |
| Transcribe.ScanLineSpan | musictranslator/musicprocessing/transcribe.py:98-104 | a line's start is the minimum non-null start of its records and its end the maximum non-null end, each `None` exactly when there is none |
| Transcribe.SearchAlignment | musictranslator/musicprocessing/transcribe.py:85-110 | the inner `while` finds exactly `FirstMatch` from the cursor |
| Transcribe.MapLine | musictranslator/musicprocessing/transcribe.py:70-117 | the loop over one line's words returns the records, the new cursor and the span that the line scan specifies |
| Transcribe.ScanSongShape | musictranslator/musicprocessing/transcribe.py:66-125 | one output line per transcript line, in order, with the same text and one record per word |
| Transcribe.ScanSongCursor | musictranslator/musicprocessing/transcribe.py:64-117 | over the whole song, the entries used strictly increase and no entry is used twice |
| Transcribe.MapTranscript | musictranslator/musicprocessing/transcribe.py:35-127 | `None` exactly when the alignment file is missing or not JSON; otherwise the scan of the whole transcript, one line per kept lyric line |
| LegacyMapping.LegacyNormalizeIdempotent | musictranslator/musicprocessing/map_transcript.py:60 | normalising a word a second time changes nothing |
| LegacyMapping.LegacyNormalizeEmpty | musictranslator/musicprocessing/map_transcript.py:18 | a word normalises to `""` exactly when it consists only of `.,!?` |
| LegacyMapping.LineWordsFacts | musictranslator/musicprocessing/map_transcript.py:17-18 | one word per token of the line, each already normal, and `""` exactly when its token consists only of `.,!?` (such words stay in the list) |
| LegacyMapping.LegacyProcessedLines | musictranslator/musicprocessing/map_transcript.py:15-21 | no more word lists than lines, none empty |
| LegacyMapping.LegacyKeepsNonBlank | musictranslator/musicprocessing/map_transcript.py:17-20 | a line adds a word list exactly when it is not blank, and it adds that line's words |
| LegacyMapping.LegacyProcessTranscript | musictranslator/musicprocessing/map_transcript.py:9-24 | a missing file gives no lines; otherwise the loop returns exactly the processed word lists |
| LegacyMapping.LookaheadMatch | musictranslator/musicprocessing/map_transcript.py:64-84 | the search skips entries without text; the first entry with text decides; a match has only textless entries before it |
| LegacyMapping.LookaheadAgreesWhenFound | musictranslator/musicprocessing/map_transcript.py:67-84 | whenever the bounded search finds an entry, it is the one an unbounded first-match search finds |
| LegacyMapping.LookaheadGivesUpEarly | musictranslator/musicprocessing/map_transcript.py:80-84 | the converse fails: entries `oh`, `hello` and the word `hello` give no match, while the unbounded search finds entry 1 |
| LegacyMapping.LookaheadSearch | musictranslator/musicprocessing/map_transcript.py:67-84 | the inner `while` returns exactly `LookaheadMatch` |
| LegacyMapping.LegacyMatchedEntry | musictranslator/musicprocessing/map_transcript.py:71-76 | a matched entry has text, and that text normalises to the word |
| LegacyMapping.RecordedWords | musictranslator/musicprocessing/map_transcript.py:59-63 | the words that get a record are no more than the line's words |
| LegacyMapping.LegacyScanWordShape | musictranslator/musicprocessing/map_transcript.py:59-87 | an empty normalised word adds nothing; any other word adds exactly one record, matched or with null times |
| LegacyMapping.LegacyScanLineShape | musictranslator/musicprocessing/map_transcript.py:57-90 | a line's records match its non-empty words one for one, in order |
| LegacyMapping.LegacyScanLineCursor | musictranslator/musicprocessing/map_transcript.py:65-84 | the cursor never moves back, and the entries used strictly increase |
| LegacyMapping.LegacyScanLineCursorEnd | musictranslator/musicprocessing/map_transcript.py:65-84 | after a line the cursor is one past the last entry a word used, or where the line's search started when no word matched |
| LegacyMapping.LegacyScanSongFacts | musictranslator/musicprocessing/map_transcript.py:57-90 | no more output lines than transcript lines, none of them empty, and the entries used strictly increase over the song |
| LegacyMapping.LegacyMapLine | musictranslator/musicprocessing/map_transcript.py:58-87 | the loop over one line's words returns the records and cursor the line scan specifies |
| LegacyMapping.LegacyMapTranscript | musictranslator/musicprocessing/map_transcript.py:26-92 | `None` exactly when the alignment file is missing or not JSON; otherwise the song scan; no more lines than the transcript; no empty line |
| SingAlong.KeptLines | singalongapp/maptranscript.py:9 | one token list per non-blank line: none empty, every token a run of non-whitespace, no more lists than lines |
| SingAlong.KeptLinesAppend | singalongapp/maptranscript.py:9 | a line adds a token list exactly when it is not blank, and that list is its tokens |
| SingAlong.FirstTier | singalongapp/maptranscript.py:22 | `getFirst` returns a tier of that name with no earlier tier of that name, and `None` only when no tier has it |
| SingAlong.WordIntervals | singalongapp/maptranscript.py:39-46 | every kept interval has a word that is not blank after stripping |
| SingAlong.WordIntervalsAppend | singalongapp/maptranscript.py:39-46 | the filter keeps tier order: the kept intervals of a concatenation are those of its parts |
| SingAlong.WordIntervalsExactly | singalongapp/maptranscript.py:39-46 | an interval is kept exactly when it is in the tier and its word is not blank |
| SingAlong.CreateAlignmentDict | singalongapp/maptranscript.py:16-54 | `{}` exactly when the file is unreadable or its `words` tier is missing or empty; otherwise the tier's name, all its intervals, and the ones carrying a word |
| SingAlong.RemovePunctuation | singalongapp/maptranscript.py:61-63 | a character is in the result exactly when it is in the text and is not one of `,.!?`; the result is never longer |
| SingAlong.RemovePunctuationAppend | singalongapp/maptranscript.py:61-63 | the result for a concatenation is the concatenation of the results, so what remains keeps its order |
| SingAlong.RemovePunctuationChar | singalongapp/maptranscript.py:61-63 | a single `,.!?` vanishes and any other character stays; with `RemovePunctuationAppend` the result is the ordered subsequence of kept characters |
| SingAlong.RemovePunctuationKeepsClean | singalongapp/maptranscript.py:61-63 | text without `,.!?` comes back unchanged |
| SingAlong.RemovePunctuationIdempotent | singalongapp/maptranscript.py:61-63 | removing punctuation twice is removing it once |
| SingAlong.FirstMarkMatch | singalongapp/maptranscript.py:77-82 | the first interval whose lower-cased word equals the token's; none earlier matches; `None` only when none matches |
| SingAlong.SameWordSameTimes | singalongapp/maptranscript.py:75-82 | tokens that agree up to case and punctuation get the same times, because every search starts at the first interval |
| SingAlong.TimeWordFound | singalongapp/maptranscript.py:75-82 | a token gets an entry exactly when some interval carries its word |
| SingAlong.TimedLineSound | singalongapp/maptranscript.py:73-83 | a timed line is never longer than its line, and each entry carries the times of an interval with the same lower-cased word and a word free of `,.!?` |
| SingAlong.TimedLineAppend | singalongapp/maptranscript.py:73-83 | timing keeps token order: the timed line of a concatenation is the timed lines of its parts |
| SingAlong.TimedLineOrder | singalongapp/maptranscript.py:73-83 | entry `k` is the entry of a token `js[k]`, its word that token with `,.!?` removed; the indices strictly increase, and every token with an interval is among them |
| SingAlong.TimedLineComplete | singalongapp/maptranscript.py:74-83 | a timed line has one entry per token exactly when every token has an interval |
| SingAlong.CleanTokensAreClean | singalongapp/maptranscript.py:66-68 | every token of the punctuation-free copy is free of `,.!?`, so removing punctuation from it again changes nothing |
| SingAlong.TimedLineIgnoresPunctuation | singalongapp/maptranscript.py:66-83 | timing the punctuation-free copy gives the same timed line as timing the raw tokens |
| SingAlong.SyncLine | singalongapp/maptranscript.py:74-82 | the loop over one punctuation-free line returns the timed line of the raw line |
| SingAlong.SyncAlignmentWithTranscript | singalongapp/maptranscript.py:57-90 | one timed line per transcript line, each the specified timed line, every entry sound |
| AnalysisClients.FilteredExactly | musictranslator/musicprocessing/F0.py:36-58 | a key is in the payload exactly when some kept item has it with a string path, and its value is that path |
| AnalysisClients.FilterF0Stems | musictranslator/musicprocessing/F0.py:36-58 | the loop builds exactly the filtered payload: drums skipped, then usable paths of the five instruments |
| AnalysisClients.F0PayloadHasNoDrums | musictranslator/musicprocessing/F0.py:37-52 | every key sent for F0 analysis names one of the five instruments, none is `drums`, and every path is non-empty |
| AnalysisClients.FilterVolumeTracks | musictranslator/musicprocessing/volume.py:65-85 | the loop builds exactly the filtered payload: usable paths of the song and the six stems |
| AnalysisClients.DrumsOnlyForVolume | musictranslator/musicprocessing/volume.py:66-79 | a usable drums stem, at any position of an argument with distinct keys, reaches the volume service with its path but never the F0 service |
| AnalysisClients.StatusErrorHidesResponseText | musictranslator/musicprocessing/F0.py:96-99 | as written, the HTTP error message of any 4xx or 5xx response reads `No response text` |
| AnalysisClients.StatusErrorDetailExample | musictranslator/musicprocessing/volume.py:116-119 | for a 500 response with body `Internal Server Error`, the code as written gives `No response text` and the intended code gives the body |
| AnalysisClients.HandleCatchesExactly | musictranslator/musicprocessing/F0.py:96-107 | an exception becomes an error dictionary exactly when it belongs to a handled class, and propagates otherwise |
| AnalysisClients.ClauseOrderDecides | musictranslator/musicprocessing/F0.py:96-107 | the first matching clause decides: a connect timeout gives the connection message, and a request exception that is also a `ValueError` gives the request message |
| AnalysisClients.ReplyReturnsDocument | musictranslator/musicprocessing/F0.py:78-94 | the service's document is returned unchanged exactly when the POST succeeds, the status is below 400 and the body decodes to it |
| AnalysisClients.ErrorStatusMessageAsWritten | musictranslator/musicprocessing/volume.py:108-119 | as written, any 4xx or 5xx reply is the HTTP error message ending in ` - Response: No response text`, whatever body the service sent |
| AnalysisClients.ErrorStatusMessage | musictranslator/musicprocessing/volume.py:108-119 | as intended: a 4xx or 5xx status yields the HTTP error message with the response text |
| AnalysisClients.RequestF0Analysis | musictranslator/musicprocessing/F0.py:14-107 | non-dict or empty argument: the error dictionary and nothing sent; nothing left after filtering: the info dictionary and nothing sent; otherwise it sends `{"stem_paths": payload}` and returns the reply as the code computes it, so a 4xx or 5xx reply ends in ` - Response: No response text` |
| AnalysisClients.RequestVolumeAnalysis | musictranslator/musicprocessing/volume.py:14-127 | non-dict or empty argument: an error and nothing sent; nothing left after filtering: an error and nothing sent; otherwise it sends `{"audio_paths": payload}` and returns the reply as the code computes it, so a 4xx or 5xx reply ends in ` - Response: No response text` |
| DrumAnalysis.Trunc | musictranslator/drum_analysis_service/drum_analysis.py:107-114 | `int()` truncates toward zero: within one of the value, and never further from zero |
| DrumAnalysis.TruncMonotone | musictranslator/drum_analysis_service/drum_analysis.py:106-114 | a later time never gives an earlier sample |
| DrumAnalysis.CutOf | musictranslator/drum_analysis_service/drum_analysis.py:106-114 | both end limits lie within the audio; the duration limit is at most `max_duration` samples past the start; the next-onset limit is at most the next onset's sample |
| DrumAnalysis.Peak | musictranslator/drum_analysis_service/drum_analysis.py:150 | the peak is a value of the envelope and no value exceeds it |
| DrumAnalysis.FirstBelow | musictranslator/drum_analysis_service/drum_analysis.py:160-166 | the first frame whose RMS is below the threshold; every earlier frame is at or above it |
| DrumAnalysis.FindDecayEnd | musictranslator/drum_analysis_service/drum_analysis.py:159-166 | the loop returns the centre of the first decayed frame, or the chunk length when no frame decays |
| DrumAnalysis.SegmentEmptyExactly | musictranslator/drum_analysis_service/drum_analysis.py:118-148 | the segment is empty exactly when the candidate end is not after the start or the envelope is empty |
| DrumAnalysis.SegmentAfterStart | musictranslator/drum_analysis_service/drum_analysis.py:150-180 | a non-empty segment ends after its start and no later than the duration limit, so the final "not greater than start" case cannot arise |
| DrumAnalysis.SegmentStopsAtDecay | musictranslator/drum_analysis_service/drum_analysis.py:156-174 | unless the envelope is silent, the segment ends no later than the next onset and no later than the centre of the first decayed frame |
| DrumAnalysis.DynamicSegmentIsSlice | musictranslator/drum_analysis_service/drum_analysis.py:88-180 | the segment is the audio from the onset's sample on; it is empty exactly in the cases above, never longer than `max_duration`, and never past the next onset unless silent |
| DrumAnalysis.ExtractDynamicSegment | musictranslator/drum_analysis_service/drum_analysis.py:88-180 | computes exactly the specified segment |
| DrumAnalysis.SegmentAtCut | musictranslator/drum_analysis_service/drum_analysis.py:118-180 | from the known limits, the early returns, the silent case and the decay search give exactly the specified slice |
| DrumAnalysis.ProcessSingleOnset | musictranslator/drum_analysis_service/drum_analysis.py:309-326 | `None` exactly when the segment is empty or the feature computation fails; a hit carries its own onset time |
| DrumAnalysis.Outcomes | musictranslator/drum_analysis_service/drum_analysis.py:280-288 | one future result per onset, and each hit carries its onset's time |
| DrumAnalysis.CollectedAppend | musictranslator/drum_analysis_service/drum_analysis.py:290-301 | collecting two runs of completions one after the other collects their hits one after the other |
| DrumAnalysis.CollectedPermutation | musictranslator/drum_analysis_service/drum_analysis.py:290-301 | any two completion orders of the same tasks collect the same hits |
| DrumAnalysis.InsertByOnsetAdds | musictranslator/drum_analysis_service/drum_analysis.py:304 | insertion adds exactly the one hit |
| DrumAnalysis.InsertByOnsetSorted | musictranslator/drum_analysis_service/drum_analysis.py:304 | insertion into a list sorted by onset time keeps it sorted |
| DrumAnalysis.SortByOnsetFacts | musictranslator/drum_analysis_service/drum_analysis.py:304 | the sort orders the hits by onset time and keeps exactly the same hits |
| DrumAnalysis.SortedUnique | musictranslator/drum_analysis_service/drum_analysis.py:304 | when onset times are all different, a list sorted by onset is determined by its hits |
| DrumAnalysis.IndexOrderStrict | musictranslator/drum_analysis_service/drum_analysis.py:272-296 | with strictly increasing onsets, the hits in task order have strictly increasing onset times |
| DrumAnalysis.CompletionOrderIrrelevant | musictranslator/drum_analysis_service/drum_analysis.py:280-306 | whatever the completion order, the result is sorted and holds every hit; with strictly increasing onsets it is exactly the hits in onset order |
| DrumAnalysis.BuildTasks | musictranslator/drum_analysis_service/drum_analysis.py:272-275 | each onset is paired with the next one, and the last with none |
| DrumAnalysis.RunTasks | musictranslator/drum_analysis_service/drum_analysis.py:280-288 | each task's result is the per-onset helper applied to it |
| DrumAnalysis.CollectCompleted | musictranslator/drum_analysis_service/drum_analysis.py:290-301 | results are appended in completion order, and `None` results are dropped |
| DrumAnalysis.AnalyzeAudioConcurrently | musictranslator/drum_analysis_service/drum_analysis.py:255-306 | for any completion order: sorted by onset time and holding exactly the hits of all onsets; with strictly increasing onsets it is the hits in onset order |

## Left out

- File reading, JSON decoding, TextGrid parsing and logging are left out. Each
  file is an input value: its lines, its decoded entries or its tiers, or the
  failure the source catches. `print` and `logger` calls have no counterpart.
- Text.LowerChar: only ASCII letters are lower-cased. Python's `str.lower` maps
  every Unicode letter.
- Aligner entries are `[start, end, text]`, and a missing third element has no
  text. An entry whose text is JSON `null` makes `interval[2].lower()` raise; that
  is not modelled. A document whose `tiers` or `words` value is not an object
  also raises, and that is not modelled either.
- SingAlong.SyncAlignmentWithTranscript: intervals always come from
  `create_alignment_dict`, so the `isinstance(interval, dict) and "word" in interval`
  test always holds and is not modelled. The `except` that returns `[]` cannot
  fire on this data and is not modelled.
- HTTP transport, headers, the 1200-second timeout and the service URLs are not
  modelled. The exchange is an input: the exception the POST raised, or the
  status, text, `raise_for_status` message and decoded body of the response.
- The text of each exception (`{http_err}`, `{conn_err}` and so on) is kept as
  an opaque string. The exception classes an error belongs to form a set, which
  models `requests`' multiple inheritance.
- JSON bodies are modelled as a key and a map, so key order is not modelled.
  Python dictionaries cannot repeat a key. In the model, a later item with the
  same key wins.
- The volume client's tests expect the posted key to be `data`. The code posts
  `audio_paths`, and the model follows the code.
- Onset detection (`detect_onsets`), audio loading, the Flask app and every
  librosa computation are left out. Onset times are an input. The chunk's RMS
  envelope and the features of a non-empty segment are functions inside
  `Analyzer`.
- Floating-point arithmetic is left out; reals are exact. The linear decay
  ratio `10 ** (-30 / 20)` is an input. `int(0.01 * sr)` and
  `int(max_duration * sr)` are computed exactly, although IEEE rounding could
  differ by one sample.
- The RMS computation is assumed not to raise. A failure in the segment cut
  itself is not modelled. A failure in the feature computation is modelled, as
  `None`.
- DrumAnalysis.ExtractFeatures: only the empty-segment default is stated. The
  numeric features of a non-empty segment come from the analyser.
- The thread pool is sequentialised. Tasks run one after another, and the order
  in which `as_completed` yields them is an input: any permutation of the tasks.
  `_process_single_onset` catches every exception, so the `except` around
  `future.result()` cannot fire and is not modelled.
- DrumAnalysis.SortByOnsetFacts: states that the result is sorted and is a
  permutation. It does not state that Python's sort is stable for hits with
  equal onset times.
- The empty NumPy array's `float32` dtype is not modelled.
- The decay threshold in dB is fixed at the default. Any other value enters
  through `Analyzer.decayRatio`.

## Findings

| source | as written | input that shows it | evidently intended | confidence | as-written member | corrected member |
|---|---|---|---|---|---|---|
| musictranslator/musicprocessing/F0.py:98 | `http_err.response.text if http_err.response else 'No response text'`. A `requests` response is falsy for status 400 or above, and `raise_for_status` raises only then, so the text is always dropped | status 500 with body `Internal Server Error` | the message ends in ` - Response: Internal Server Error` (the F0 client's tests expect it) | not executed | AnalysisClients.RequestF0Analysis | AnalysisClients.ErrorStatusMessage |
| musictranslator/musicprocessing/volume.py:118 | the same truthiness test on the response | status 500 with body `Internal Server Error` | the message carries the response text | not executed | AnalysisClients.RequestVolumeAnalysis | AnalysisClients.ErrorStatusMessage |

The clients' `except` clauses and `try` block are `Handle` and `Reply`, which
take a `DetailRule`. Under `AsWritten` the HTTP error detail is the code's
truthiness test, and this is what `RequestF0Analysis` and
`RequestVolumeAnalysis` return. Under `AsIntended` the detail is the response
text whenever there is a response; `ErrorStatusMessage` states the corrected
message.
