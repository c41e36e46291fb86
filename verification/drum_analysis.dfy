/**
 * The drum analysis service's segmentation and orchestration
 * (`drum_analysis_service/drum_analysis.py`): each detected onset is cut into
 * a segment that ends at the first of the end of the audio, the next onset,
 * the maximum duration and the point where the RMS envelope decays below a
 * threshold; the segments are analysed concurrently and the hits sorted by
 * onset time.  The signal processing itself (onset detection, the RMS envelope,
 * the spectral features) is an input of the model.
 */
module DrumAnalysis {
  import opened Wrappers

  /** An audio time series. */
  type Samples = seq<real>

  // ---------------------------------------------------------------------------
  // Sample arithmetic

  function Min(a: int, b: int): int {
    if a <= b then a else b
  }

  /** Python's `int(x)` on a float: truncation toward zero. */
  function Trunc(x: real): (r: int)
    ensures 0.0 <= x ==> 0 <= r && r as real <= x < r as real + 1.0
    ensures x < 0.0 ==> r <= 0 && r as real - 1.0 < x <= r as real
  {
    if x >= 0.0 then x.Floor else -((-x).Floor)
  }

  /** Truncation is monotone, so later times never give earlier samples. */
  lemma TruncMonotone(x: real, y: real)
    requires x <= y
    ensures Trunc(x) <= Trunc(y)
  {
  }

  /** `librosa.time_to_samples(t, sr)`: `t * sr` cast to an integer. */
  function TimeToSamples(t: real, sr: nat): int {
    Trunc(t * sr as real)
  }

  /** The default `max_duration` of a segment, in seconds. */
  const DefaultMaxDuration: real := 3.0

  /** Below this peak RMS a segment counts as silent. */
  const SilentPeak: real := 0.0000001

  /** The frame length of the RMS envelope; a decay point is reported at the
      centre of its frame. */
  const FrameLength: nat := 1024

  /** `hop_length_samples = int(0.01 * sr)`: a 10 ms hop. */
  function HopLength(sr: nat): nat {
    Trunc(0.01 * sr as real)
  }

  /** The largest value of a non-empty envelope, `np.max`. */
  function Peak(rms: seq<real>): (m: real)
    requires rms != []
    ensures m in rms && forall x :: x in rms ==> x <= m
  {
    if |rms| == 1 then rms[0]
    else
      var rest := Peak(rms[1..]);
      assert forall x :: x in rms ==> x == rms[0] || x in rms[1..];
      if rms[0] >= rest then rms[0] else rest
  }

  /** The first frame at or after `from` whose RMS is below the threshold. */
  function FirstBelow(rms: seq<real>, threshold: real, from: nat): (r: Option<nat>)
    ensures r.Some? ==> from <= r.value < |rms| && rms[r.value] < threshold
    ensures r.Some? ==> forall j :: from <= j < r.value ==> rms[j] >= threshold
    ensures r.None? ==> forall j :: from <= j < |rms| ==> rms[j] >= threshold
    decreases |rms| - from
  {
    if from >= |rms| then None
    else if rms[from] < threshold then Some(from)
    else FirstBelow(rms, threshold, from + 1)
  }

  // ---------------------------------------------------------------------------
  // extract_dynamic_segment

  /** The signal processing the model takes as given: the RMS envelope librosa
      computes for a chunk (frame length 1024, the 10 ms hop), the spectral
      features of a non-empty segment (`None` when their computation raises),
      and the linear decay ratio `10 ** (decay_threshold_db / 20)` for the
      default -30 dB. */
  datatype Analyzer = Analyzer(rms: Samples -> seq<real>, measure: Samples -> Option<Features>, decayRatio: real)

  /** `start_sample`: the onset's sample, never before the start of the audio. */
  function StartSample(onset: real, sr: nat): nat {
    var s := TimeToSamples(onset, sr);
    if s < 0 then 0 else s
  }

  /** `end_sample_by_max_duration` */
  function EndByMaxDuration(n: nat, start: nat, sr: nat, maxDuration: real): int {
    Min(n, start + TimeToSamples(maxDuration, sr))
  }

  /** `end_sample_by_next_onset` */
  function EndByNextOnset(n: nat, next: Option<real>, sr: nat): int {
    if next.Some? then Min(n, TimeToSamples(next.value, sr)) else n
  }

  /** The sample positions an onset's segment is cut at: its start, and the
      limits set by the next onset and by the maximum duration. */
  datatype Cut = Cut(start: nat, byNext: int, byMax: int)

  function CutOf(n: nat, sr: nat, onset: real, next: Option<real>, maxDuration: real): (c: Cut)
    ensures c.byNext <= n && c.byMax <= n && c.byMax <= c.start + TimeToSamples(maxDuration, sr)
    ensures next.Some? ==> c.byNext <= TimeToSamples(next.value, sr)
  {
    var start := StartSample(onset, sr);
    Cut(start, EndByNextOnset(n, next, sr), EndByMaxDuration(n, start, sr, maxDuration))
  }

  /** `current_segment_end_candidate`: the earliest of the end of the audio,
      the next onset and the maximum duration. */
  function Candidate(n: nat, c: Cut): int {
    Min(n, Min(c.byNext, c.byMax))
  }

  /** `decay_end_sample_relative`: the centre of the first frame below the
      threshold, or the whole chunk when no frame decays. */
  function DecayOffset(rms: seq<real>, threshold: real, hop: nat, chunkLength: int): int {
    match FirstBelow(rms, threshold, 0)
    case Some(i) => i * hop + FrameLength / 2
    case None => chunkLength
  }

  /** The chunk whose envelope decides the decay. */
  function Chunk(y: Samples, c: Cut): Samples {
    var candidate := Candidate(|y|, c);
    if c.start < candidate then y[c.start..candidate] else []
  }

  /** `linear_decay_threshold`: the peak scaled by the linear decay ratio. */
  function DecayThreshold(peak: real, decayRatio: real): real {
    peak * decayRatio
  }

  /** Where the segment ends, `None` when it is empty, given the length `n` of
      the audio and the envelope `rms` of the chunk: the end of the silent
      case, or the earlier of the candidate and the decay point. */
  function SegmentEnd(n: nat, c: Cut, rms: seq<real>, decayRatio: real, hop: nat): Option<int> {
    var candidate := Candidate(n, c);
    if candidate <= c.start || rms == [] then None
    else
      var peak := Peak(rms);
      if peak < SilentPeak then Some(c.byMax)
      else Some(Min(candidate, c.start + DecayOffset(rms, DecayThreshold(peak, decayRatio), hop, candidate - c.start)))
  }

  /** `y[start:end]` for an end that exists, `[]` otherwise. */
  function SliceTo(y: Samples, start: nat, end: Option<int>): Samples {
    match end
    case None => []
    case Some(e) => if start <= e <= |y| then y[start..e] else []
  }

  /** The segment `extract_dynamic_segment` returns. */
  function DynamicSegment(y: Samples, sr: nat, onset: real, next: Option<real>, maxDuration: real, a: Analyzer): Samples {
    var c := CutOf(|y|, sr, onset, next, maxDuration);
    SliceTo(y, c.start, SegmentEnd(|y|, c, a.rms(Chunk(y, c)), a.decayRatio, HopLength(sr)))
  }

  /** The segment is empty exactly when the candidate range or its envelope is. */
  lemma SegmentEmptyExactly(n: nat, c: Cut, rms: seq<real>, decayRatio: real, hop: nat)
    ensures SegmentEnd(n, c, rms, decayRatio, hop).None? <==> Candidate(n, c) <= c.start || rms == []
  {
  }

  /** A segment that is not empty runs from the cut's start to a point after it,
      no later than the maximum-duration limit: the final "not greater than
      start" case of the source cannot arise. */
  lemma SegmentAfterStart(n: nat, c: Cut, rms: seq<real>, decayRatio: real, hop: nat)
    requires c.byMax <= n
    requires SegmentEnd(n, c, rms, decayRatio, hop).Some?
    ensures c.start < SegmentEnd(n, c, rms, decayRatio, hop).value <= c.byMax
  {
    if Peak(rms) >= SilentPeak {
      var decay := DecayOffset(rms, Peak(rms) * decayRatio, hop, Candidate(n, c) - c.start);
      assert decay > 0;
    }
  }

  /** Unless its envelope is silent, a segment stops at the next onset and at
      the centre of the first frame that has decayed below the threshold. */
  lemma SegmentStopsAtDecay(n: nat, c: Cut, rms: seq<real>, decayRatio: real, hop: nat, threshold: real)
    requires SegmentEnd(n, c, rms, decayRatio, hop).Some? && rms != [] && Peak(rms) >= SilentPeak
    requires threshold == DecayThreshold(Peak(rms), decayRatio)
    ensures SegmentEnd(n, c, rms, decayRatio, hop).value <= c.byNext
    ensures FirstBelow(rms, threshold, 0).Some? ==>
      SegmentEnd(n, c, rms, decayRatio, hop).value <= c.start + FirstBelow(rms, threshold, 0).value * hop + FrameLength / 2
  {
    var candidate := Candidate(n, c);
    var decay := DecayOffset(rms, threshold, hop, candidate - c.start);
    assert SegmentEnd(n, c, rms, decayRatio, hop) == Some(Min(candidate, c.start + decay));
  }

  /** The segment of an onset: the audio from the onset's sample on, empty
      exactly when the cut leaves nothing or the envelope is empty, never longer
      than the maximum duration, and never running past the next onset unless
      the chunk is silent. */
  lemma DynamicSegmentIsSlice(y: Samples, sr: nat, onset: real, next: Option<real>, maxDuration: real, a: Analyzer)
    ensures var c := CutOf(|y|, sr, onset, next, maxDuration);
      var rms := a.rms(Chunk(y, c));
      var seg := DynamicSegment(y, sr, onset, next, maxDuration, a);
      && (seg == [] <==> Candidate(|y|, c) <= c.start || rms == [])
      && (seg != [] ==> c.start + |seg| <= |y| && seg == y[c.start..c.start + |seg|])
      && (seg != [] ==> |seg| <= TimeToSamples(maxDuration, sr))
      && (seg != [] && Peak(rms) >= SilentPeak && next.Some? ==> c.start + |seg| <= TimeToSamples(next.value, sr))
  {
    var c := CutOf(|y|, sr, onset, next, maxDuration);
    var rms := a.rms(Chunk(y, c));
    var hop := HopLength(sr);
    var seg := DynamicSegment(y, sr, onset, next, maxDuration, a);
    SegmentEmptyExactly(|y|, c, rms, a.decayRatio, hop);
    if SegmentEnd(|y|, c, rms, a.decayRatio, hop).Some? {
      var e := SegmentEnd(|y|, c, rms, a.decayRatio, hop).value;
      SegmentAfterStart(|y|, c, rms, a.decayRatio, hop);
      assert seg == y[c.start..e];
      if Peak(rms) >= SilentPeak {
        SegmentStopsAtDecay(|y|, c, rms, a.decayRatio, hop, DecayThreshold(Peak(rms), a.decayRatio));
      }
    } else {
      assert seg == [];
    }
  }

  /** The decay search: the loop over the envelope's frames. */
  method FindDecayEnd(rms: seq<real>, threshold: real, hop: nat, chunkLength: int) returns (decayEndRelative: int)
    ensures decayEndRelative == DecayOffset(rms, threshold, hop, chunkLength)
  {
    decayEndRelative := chunkLength;
    for i := 0 to |rms|
      invariant FirstBelow(rms, threshold, i) == FirstBelow(rms, threshold, 0)
      invariant decayEndRelative == chunkLength
    {
      if rms[i] < threshold {
        decayEndRelative := i * hop + FrameLength / 2;
        return;
      }
    }
  }

  /** `extract_dynamic_segment` with the default decay threshold: the limits
      are computed here, the cut itself by `SegmentAtCut`. */
  method ExtractDynamicSegment(y: Samples, sr: nat, onset: real, next: Option<real>, maxDuration: real, a: Analyzer)
    returns (segment: Samples)
    ensures segment == DynamicSegment(y, sr, onset, next, maxDuration, a)
  {
    var onsetSample := TimeToSamples(onset, sr);
    var startSample: nat := if onsetSample < 0 then 0 else onsetSample;
    var endByNextOnset := |y|;
    if next.Some? {
      endByNextOnset := Min(|y|, TimeToSamples(next.value, sr));
    }
    var endByMaxDuration := Min(|y|, startSample + TimeToSamples(maxDuration, sr));
    var c := Cut(startSample, endByNextOnset, endByMaxDuration);
    assert c == CutOf(|y|, sr, onset, next, maxDuration);
    segment := SegmentAtCut(y, c, a, HopLength(sr));
  }

  /** The rest of `extract_dynamic_segment`, once the limits are known. */
  method SegmentAtCut(y: Samples, c: Cut, a: Analyzer, hopLength: nat) returns (segment: Samples)
    requires c.byMax <= |y|
    ensures segment == SliceTo(y, c.start, SegmentEnd(|y|, c, a.rms(Chunk(y, c)), a.decayRatio, hopLength))
  {
    var startSample := c.start;
    var candidate := Min(|y|, Min(c.byNext, c.byMax));
    if candidate <= startSample {
      return [];
    }
    var chunk := y[startSample..candidate];
    if |chunk| == 0 {
      return [];
    }
    var rmsSegment := a.rms(chunk);
    if |rmsSegment| == 0 {
      return [];
    }
    var peak := Peak(rmsSegment);
    if peak < SilentPeak {
      var endSample := c.byMax;
      return y[startSample..endSample];
    }
    var threshold := DecayThreshold(peak, a.decayRatio);
    var decayEndRelative := FindDecayEnd(rmsSegment, threshold, hopLength, |chunk|);
    var finalEnd := Min(candidate, startSample + decayEndRelative);
    segment := y[startSample..finalEnd];
  }

  // ---------------------------------------------------------------------------
  // Features and single onsets

  /** The feature record of a segment. */
  datatype Features = Features(
    relativeVolume: real, dominantFrequency: real, spectralCentroid: real,
    spectralRolloff: real, spectralFlux: real, mfccs: seq<real>, duration: real)

  /** The record an empty segment gets: every feature zero, thirteen zero MFCCs. */
  const ZeroFeatures: Features := Features(0.0, 0.0, 0.0, 0.0, 0.0, seq(13, _ => 0.0), 0.0)

  /** `extract_features_from_segment`; `None` when the computation raises. */
  function ExtractFeatures(segment: Samples, a: Analyzer): (r: Option<Features>)
    ensures segment == [] ==> r == Some(ZeroFeatures) && |r.value.mfccs| == 13
    ensures segment != [] ==> r == a.measure(segment)
  {
    if segment == [] then Some(ZeroFeatures) else a.measure(segment)
  }

  /** One analysed hit: the features and `onset_time`. */
  datatype DrumHit = DrumHit(features: Features, onsetTime: real)

  /** `_process_single_onset`: an empty segment or a failure gives `None`, and a
      hit carries its own onset time. */
  function ProcessSingleOnset(y: Samples, sr: nat, onset: real, next: Option<real>, a: Analyzer): (r: Option<DrumHit>)
    ensures r.Some? ==> r.value.onsetTime == onset && DynamicSegment(y, sr, onset, next, DefaultMaxDuration, a) != []
    ensures r.None? <==>
      DynamicSegment(y, sr, onset, next, DefaultMaxDuration, a) == [] ||
      a.measure(DynamicSegment(y, sr, onset, next, DefaultMaxDuration, a)).None?
  {
    var segment := DynamicSegment(y, sr, onset, next, DefaultMaxDuration, a);
    if segment == [] then None
    else
      match ExtractFeatures(segment, a)
      case None => None
      case Some(f) => Some(DrumHit(f, onset))
  }

  // ---------------------------------------------------------------------------
  // analyze_audio_concurrently

  /** The task of onset `i`: its time and the next onset's, if any. */
  function TaskOf(onsets: seq<real>, i: nat): (real, Option<real>)
    requires i < |onsets|
  {
    (onsets[i], if i + 1 < |onsets| then Some(onsets[i + 1]) else None)
  }

  function Indices(n: nat): (r: seq<nat>)
    ensures |r| == n && forall i :: 0 <= i < n ==> r[i] == i
  {
    seq(n, i => i)
  }

  /** Every task named in `order` is one of the `n` tasks. */
  ghost predicate InRange(order: seq<nat>, n: nat) {
    forall k :: 0 <= k < |order| ==> order[k] < n
  }

  /** The hits kept while futures complete in `order`: a `None` result is dropped. */
  function Collected<T>(outcomes: seq<Option<T>>, order: seq<nat>): seq<T>
    requires InRange(order, |outcomes|)
  {
    if order == [] then []
    else
      var o := outcomes[order[|order| - 1]];
      Collected(outcomes, order[..|order| - 1]) + (if o.Some? then [o.value] else [])
  }

  /** Collecting in two orders that hold the same tasks keeps the same hits. */
  lemma {:induction false} CollectedPermutation<T>(outcomes: seq<Option<T>>, a: seq<nat>, b: seq<nat>)
    requires InRange(a, |outcomes|) && InRange(b, |outcomes|)
    requires multiset(a) == multiset(b)
    ensures multiset(Collected(outcomes, a)) == multiset(Collected(outcomes, b))
    decreases |a|
  {
    if a == [] {
      assert |b| == |multiset(b)| == 0;
    } else {
      var n := |a| - 1;
      var x := a[n];
      assert a == a[..n] + [x];
      assert x in multiset(b);
      var j :| 0 <= j < |b| && b[j] == x;
      var p, q := RemoveOne(b, j, |outcomes|);
      assert InRange(a[..n], |outcomes|);
      CollectedPermutation(outcomes, a[..n], p + q);
      CollectedAppend(outcomes, a[..n], [x]);
      CollectedInsert(outcomes, p, x, q);
    }
  }

  /** `b` split around its entry at `j`. */
  lemma RemoveOne(b: seq<nat>, j: nat, n: nat) returns (p: seq<nat>, q: seq<nat>)
    requires j < |b| && InRange(b, n)
    ensures b == p + [b[j]] + q
    ensures InRange(p, n) && InRange(q, n)
    ensures multiset(p + q) == multiset(b) - multiset{b[j]}
  {
    p, q := b[..j], b[j + 1..];
    assert b == p + [b[j]] + q;
  }

  /** Taking task `x` out of an order takes exactly its hit out of the collection. */
  lemma CollectedInsert<T>(outcomes: seq<Option<T>>, p: seq<nat>, x: nat, q: seq<nat>)
    requires InRange(p, |outcomes|) && InRange(q, |outcomes|) && x < |outcomes|
    ensures InRange(p + [x] + q, |outcomes|) && InRange(p + q, |outcomes|)
    ensures multiset(Collected(outcomes, p + [x] + q)) ==
      multiset(Collected(outcomes, p + q)) + multiset(Collected(outcomes, [x]))
  {
    assert InRange([x], |outcomes|);
    CollectedAppend(outcomes, p, [x]);
    CollectedAppend(outcomes, p + [x], q);
    CollectedAppend(outcomes, p, q);
  }

  lemma {:induction false} CollectedAppend<T>(outcomes: seq<Option<T>>, a: seq<nat>, b: seq<nat>)
    requires InRange(a, |outcomes|) && InRange(b, |outcomes|)
    ensures InRange(a + b, |outcomes|)
    ensures Collected(outcomes, a + b) == Collected(outcomes, a) + Collected(outcomes, b)
    decreases |b|
  {
    if b == [] {
      assert a + b == a;
    } else {
      var n := |b| - 1;
      assert (a + b)[..|a + b| - 1] == a + b[..n];
      assert InRange(b[..n], |outcomes|);
      CollectedAppend(outcomes, a, b[..n]);
    }
  }

  /** Sorted by onset time, non-decreasing. */
  ghost predicate SortedByOnset(s: seq<DrumHit>) {
    forall i, j :: 0 <= i < j < |s| ==> s[i].onsetTime <= s[j].onsetTime
  }

  ghost predicate StrictlyByOnset(s: seq<DrumHit>) {
    forall i, j :: 0 <= i < j < |s| ==> s[i].onsetTime < s[j].onsetTime
  }

  /** Inserts `h` after every hit whose onset time is not later than its own. */
  function InsertByOnset(sorted: seq<DrumHit>, h: DrumHit): seq<DrumHit> {
    if sorted == [] || sorted[|sorted| - 1].onsetTime <= h.onsetTime then sorted + [h]
    else InsertByOnset(sorted[..|sorted| - 1], h) + [sorted[|sorted| - 1]]
  }

  /** Insertion adds exactly the one hit. */
  lemma {:induction false} InsertByOnsetAdds(sorted: seq<DrumHit>, h: DrumHit)
    ensures multiset(InsertByOnset(sorted, h)) == multiset(sorted) + multiset{h}
  {
    if sorted != [] && sorted[|sorted| - 1].onsetTime > h.onsetTime {
      var n := |sorted| - 1;
      InsertByOnsetAdds(sorted[..n], h);
      assert sorted == sorted[..n] + [sorted[n]];
    }
  }

  /** A hit no earlier than every hit of a sorted sequence may follow it. */
  lemma AppendKeepsSorted(s: seq<DrumHit>, x: DrumHit)
    requires SortedByOnset(s)
    requires forall y :: y in s ==> y.onsetTime <= x.onsetTime
    ensures SortedByOnset(s + [x])
  {
    var r := s + [x];
    forall i, j | 0 <= i < j < |r|
      ensures r[i].onsetTime <= r[j].onsetTime
    {
      if j == |s| {
        assert r[i] in s;
      }
    }
  }

  /** Insertion into a sorted sequence keeps it sorted. */
  lemma {:induction false} InsertByOnsetSorted(sorted: seq<DrumHit>, h: DrumHit)
    requires SortedByOnset(sorted)
    ensures SortedByOnset(InsertByOnset(sorted, h))
  {
    if sorted == [] {
      AppendKeepsSorted(sorted, h);
    } else {
      var n := |sorted| - 1;
      var last := sorted[n];
      forall y | y in sorted
        ensures y.onsetTime <= last.onsetTime
      {
        var k :| 0 <= k < |sorted| && sorted[k] == y;
      }
      if last.onsetTime <= h.onsetTime {
        AppendKeepsSorted(sorted, h);
      } else {
        assert SortedByOnset(sorted[..n]);
        InsertByOnsetSorted(sorted[..n], h);
        InsertByOnsetAdds(sorted[..n], h);
        var ins := InsertByOnset(sorted[..n], h);
        forall x | x in ins
          ensures x.onsetTime <= last.onsetTime
        {
          assert x in multiset(ins);
          if x != h {
            assert x in multiset(sorted[..n]);
            assert x in sorted;
          }
        }
        AppendKeepsSorted(ins, last);
      }
    }
  }

  /** `analysis_results.sort(key=lambda x: x['onset_time'])`, a stable sort. */
  function SortByOnset(hits: seq<DrumHit>): seq<DrumHit> {
    if hits == [] then []
    else InsertByOnset(SortByOnset(hits[..|hits| - 1]), hits[|hits| - 1])
  }

  /** The sort orders the hits by onset time and keeps exactly the same hits. */
  lemma {:induction false} SortByOnsetFacts(hits: seq<DrumHit>)
    ensures SortedByOnset(SortByOnset(hits))
    ensures multiset(SortByOnset(hits)) == multiset(hits)
  {
    if hits != [] {
      var n := |hits| - 1;
      var prev := SortByOnset(hits[..n]);
      SortByOnsetFacts(hits[..n]);
      InsertByOnsetSorted(prev, hits[n]);
      InsertByOnsetAdds(prev, hits[n]);
      assert SortByOnset(hits) == InsertByOnset(prev, hits[n]);
      assert hits == hits[..n] + [hits[n]];
      assert multiset(hits) == multiset(hits[..n]) + multiset{hits[n]};
    }
  }

  /** Two sequences holding the same hits, the first strictly and the second
      loosely sorted by onset time, start with the same hit. */
  lemma SameHead(a: seq<DrumHit>, b: seq<DrumHit>)
    requires a != [] && StrictlyByOnset(a) && SortedByOnset(b) && multiset(a) == multiset(b)
    ensures b != [] && a[0] == b[0]
  {
    assert |b| == |multiset(b)| == |a|;
    assert b[0] in multiset(a);
    var i :| 0 <= i < |a| && a[i] == b[0];
    assert a[0] in multiset(b);
    var j :| 0 <= j < |b| && b[j] == a[0];
    assert b[0].onsetTime <= b[j].onsetTime;
    assert a[i].onsetTime <= a[0].onsetTime;
    assert i == 0;
  }

  /** A sequence sorted by onset time is determined by its hits when the onset
      times are all different. */
  lemma {:induction false} SortedUnique(a: seq<DrumHit>, b: seq<DrumHit>)
    requires StrictlyByOnset(a) && SortedByOnset(b) && multiset(a) == multiset(b)
    ensures a == b
    decreases |a|
  {
    if a == [] {
      assert |b| == |multiset(b)| == 0;
    } else {
      SameHead(a, b);
      TailMultiset(a);
      TailMultiset(b);
      var a', b' := a[1..], b[1..];
      assert StrictlyByOnset(a') && SortedByOnset(b');
      SortedUnique(a', b');
      assert a == [a[0]] + a';
      assert b == [b[0]] + b';
    }
  }

  lemma TailMultiset(s: seq<DrumHit>)
    requires s != []
    ensures multiset(s[1..]) == multiset(s) - multiset{s[0]}
  {
    assert s == [s[0]] + s[1..];
  }

  /** In index order the hits keep the order of their onsets. */
  lemma {:induction false} IndexOrderStrict(onsets: seq<real>, outcomes: seq<Option<DrumHit>>, k: nat)
    requires |outcomes| == |onsets| && k <= |onsets|
    requires forall i :: 0 <= i < |onsets| && outcomes[i].Some? ==> outcomes[i].value.onsetTime == onsets[i]
    requires forall i, j :: 0 <= i < j < |onsets| ==> onsets[i] < onsets[j]
    ensures StrictlyByOnset(Collected(outcomes, Indices(k)))
    ensures forall h :: h in Collected(outcomes, Indices(k)) ==> exists i :: 0 <= i < k && h.onsetTime == onsets[i]
  {
    if k > 0 {
      assert Indices(k)[..k - 1] == Indices(k - 1);
      IndexOrderStrict(onsets, outcomes, k - 1);
      var prev := Collected(outcomes, Indices(k - 1));
      var o := outcomes[k - 1];
      assert Collected(outcomes, Indices(k)) == prev + (if o.Some? then [o.value] else []);
      if o.Some? {
        var r := prev + [o.value];
        forall i, j | 0 <= i < j < |r|
          ensures r[i].onsetTime < r[j].onsetTime
        {
          if j == |r| - 1 {
            assert r[i] in prev;
          }
        }
      }
    }
  }

  /** The tasks in submission order. */
  function Tasks(onsets: seq<real>): seq<(real, Option<real>)> {
    seq(|onsets|, i requires 0 <= i < |onsets| => TaskOf(onsets, i))
  }

  /** The futures' results, by task. */
  function Outcomes(y: Samples, sr: nat, onsets: seq<real>, a: Analyzer): (r: seq<Option<DrumHit>>)
    ensures |r| == |onsets|
    ensures forall i :: 0 <= i < |onsets| && r[i].Some? ==> r[i].value.onsetTime == onsets[i]
  {
    seq(|onsets|, i requires 0 <= i < |onsets| => ProcessSingleOnset(y, sr, onsets[i], TaskOf(onsets, i).1, a))
  }

  /** What the analysis returns for a completion order: the hits collected in
      that order, sorted by onset time. */
  function AnalysisResults(outcomes: seq<Option<DrumHit>>, completion: seq<nat>): seq<DrumHit>
    requires InRange(completion, |outcomes|)
  {
    SortByOnset(Collected(outcomes, completion))
  }

  /** Whatever the completion order, the result holds every hit, sorted by onset
      time; with strictly increasing onsets it is exactly the hits in onset order. */
  lemma CompletionOrderIrrelevant(onsets: seq<real>, outcomes: seq<Option<DrumHit>>, completion: seq<nat>)
    requires |outcomes| == |onsets|
    requires forall i :: 0 <= i < |onsets| && outcomes[i].Some? ==> outcomes[i].value.onsetTime == onsets[i]
    requires InRange(completion, |outcomes|)
    requires multiset(completion) == multiset(Indices(|onsets|))
    ensures SortedByOnset(AnalysisResults(outcomes, completion))
    ensures multiset(AnalysisResults(outcomes, completion)) == multiset(Collected(outcomes, Indices(|onsets|)))
    ensures (forall i, j :: 0 <= i < j < |onsets| ==> onsets[i] < onsets[j]) ==>
      AnalysisResults(outcomes, completion) == Collected(outcomes, Indices(|onsets|))
  {
    SortByOnsetFacts(Collected(outcomes, completion));
    CollectedPermutation(outcomes, completion, Indices(|onsets|));
    if forall i, j :: 0 <= i < j < |onsets| ==> onsets[i] < onsets[j] {
      IndexOrderStrict(onsets, outcomes, |onsets|);
      SortedUnique(Collected(outcomes, Indices(|onsets|)), AnalysisResults(outcomes, completion));
    }
  }

  /** The task list: each onset with the next one, the last with none. */
  method BuildTasks(onsetTimes: seq<real>) returns (tasks: seq<(real, Option<real>)>)
    ensures tasks == Tasks(onsetTimes)
  {
    tasks := [];
    for i := 0 to |onsetTimes|
      invariant tasks == Tasks(onsetTimes)[..i]
    {
      var nextOnset := if i + 1 < |onsetTimes| then Some(onsetTimes[i + 1]) else None;
      tasks := tasks + [(onsetTimes[i], nextOnset)];
    }
  }

  /** The submission loop, each task run to its result. */
  method RunTasks(y: Samples, sr: nat, onsetTimes: seq<real>, tasks: seq<(real, Option<real>)>, a: Analyzer)
    returns (results: seq<Option<DrumHit>>)
    requires tasks == Tasks(onsetTimes)
    ensures results == Outcomes(y, sr, onsetTimes, a)
  {
    ghost var outcomes := Outcomes(y, sr, onsetTimes, a);
    results := [];
    for i := 0 to |tasks|
      invariant results == outcomes[..i]
    {
      assert tasks[i] == TaskOf(onsetTimes, i);
      var (currentOnsetTime, nextOnsetTime) := tasks[i];
      var hit := ProcessSingleOnset(y, sr, currentOnsetTime, nextOnsetTime, a);
      assert hit == outcomes[i];
      results := results + [hit];
      assert outcomes[..i + 1] == outcomes[..i] + [outcomes[i]];
    }
    assert outcomes[..|tasks|] == outcomes;
  }

  /** The `as_completed` loop: results are appended as their futures complete,
      and a `None` result is dropped. */
  method CollectCompleted(results: seq<Option<DrumHit>>, completion: seq<nat>) returns (collected: seq<DrumHit>)
    requires InRange(completion, |results|)
    ensures collected == Collected(results, completion)
  {
    collected := [];
    for k := 0 to |completion|
      invariant collected == Collected(results, completion[..k])
    {
      assert completion[..k + 1][..k] == completion[..k];
      var resultData := results[completion[k]];
      if resultData.Some? {
        collected := collected + [resultData.value];
      }
    }
    assert completion[..|completion|] == completion;
  }

  /** `analyze_audio_concurrently`, its thread pool sequentialised: the futures'
      results are computed task by task, and `completion` is the order in which
      `as_completed` yields them, each task once. */
  method AnalyzeAudioConcurrently(y: Samples, sr: nat, onsetTimes: seq<real>, completion: seq<nat>, a: Analyzer)
    returns (analysisResults: seq<DrumHit>)
    requires multiset(completion) == multiset(Indices(|onsetTimes|))
    ensures SortedByOnset(analysisResults)
    ensures multiset(analysisResults) == multiset(Collected(Outcomes(y, sr, onsetTimes, a), Indices(|onsetTimes|)))
    ensures (forall i, j :: 0 <= i < j < |onsetTimes| ==> onsetTimes[i] < onsetTimes[j]) ==>
      analysisResults == Collected(Outcomes(y, sr, onsetTimes, a), Indices(|onsetTimes|))
  {
    ghost var outcomes := Outcomes(y, sr, onsetTimes, a);
    forall k | 0 <= k < |completion|
      ensures completion[k] < |onsetTimes|
    {
      assert completion[k] in multiset(Indices(|onsetTimes|));
    }
    CompletionOrderIrrelevant(onsetTimes, outcomes, completion);
    if |onsetTimes| == 0 {
      assert |completion| == |multiset(completion)| == 0;
      return [];
    }
    var tasks := BuildTasks(onsetTimes);
    var results := RunTasks(y, sr, onsetTimes, tasks, a);
    var collected := CollectCompleted(results, completion);
    analysisResults := SortByOnset(collected);
  }
}
