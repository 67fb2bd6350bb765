/** The per-run compaction state: token calibration, the low-water mark, the one-shot reactive retry. */
module Compactor {
  import opened Text
  import opened Transcript
  import opened Prune
  import opened Compaction

  /** The fields of the running state as a value. */
  datatype Tuner = Tuner(
    enabled: bool, threshold: int, preserveLast: int, lowWaterMark: int, reactiveAttempted: bool, ratio: real)

  function CompactionThreshold(contextWindow: int): int {
    if contextWindow <= 0 then 0 else (contextWindow as real * 0.7).Floor
  }

  function NewTuner(contextWindow: int, preserveLast: int): (t: Tuner)
    ensures t.threshold >= 0 && RatioInBand(t)
    ensures (t.enabled <==> contextWindow > 0) && !t.reactiveAttempted && t.lowWaterMark == 0 && t.preserveLast == preserveLast
  {
    Tuner(contextWindow > 0, CompactionThreshold(contextWindow), preserveLast, 0, false, 0.0)
  }

  function Calibrated(t: Tuner, raw: nat): int {
    if t.ratio <= 0.0 then raw else (raw as real * t.ratio).Floor
  }

  function Size(t: Tuner, ms: seq<Message>, toolTokens: nat): int {
    Calibrated(t, EstimateTokens(ms) + toolTokens)
  }

  /** One sample folded into the ratio: clamped to the band, weighted three to seven. */
  function CalibrateSpec(t: Tuner, raw: int, actual: int): Tuner {
    if !t.enabled || raw <= 0 || actual <= 0 then t
    else
      var sample := actual as real / raw as real;
      var clamped := if sample < 0.5 then 0.5 else if sample > 2.0 then 2.0 else sample;
      var ratio := if t.ratio <= 0.0 then 1.0 else t.ratio;
      t.(ratio := ratio * 0.7 + clamped * 0.3)
  }

  /** The transcript after the free first stage. */
  function AfterPruning(t: Tuner, ms: seq<Message>): seq<Message> {
    if Pruned(ms, t.preserveLast).1 > 0 then Pruned(ms, t.preserveLast).0 else ms
  }

  function Settled(t: Tuner, size: int): bool {
    !t.enabled || size <= t.threshold || (t.lowWaterMark > 0 && size <= t.lowWaterMark)
  }

  /** State, messages, and the number of summarizer calls made. */
  function MaybeCompactSpec(t: Tuner, write: Writer, ms: seq<Message>, toolTokens: nat, summarize: Summarizer)
    : (Tuner, seq<Message>, nat)
  {
    if Settled(t, Size(t, ms, toolTokens)) then (t, ms, 0)
    else
      var ms1 := AfterPruning(t, ms);
      var size := Size(t, ms1, toolTokens);
      if Pruned(ms, t.preserveLast).1 > 0 && size <= t.threshold then (t.(lowWaterMark := size), ms1, 0)
      else
        var calls := if Middle(ms1, t.preserveLast) == [] then 0 else 1;
        match CompactSpec(write, ms1, t.preserveLast, summarize)
        case CompactionFailed(_) => (t, ms1, calls)
        case Done(r) =>
          var newSize := Size(t, r.messages, toolTokens);
          if newSize >= size then (t.(lowWaterMark := size), ms1, calls)
          else (t.(lowWaterMark := newSize), r.messages, calls)
  }

  datatype Recovery = Recovery(tuner: Tuner, messages: seq<Message>, retried: bool, failed: bool)

  function RecoverSpec(t: Tuner, write: Writer, ms: seq<Message>, toolTokens: nat, contextLimit: bool, summarize: Summarizer)
    : Recovery
  {
    if !t.enabled || t.reactiveAttempted || !contextLimit then Recovery(t, ms, false, false)
    else
      match CompactSpec(write, ms, t.preserveLast, summarize)
      case CompactionFailed(_) => Recovery(t.(reactiveAttempted := true), ms, true, true)
      case Done(r) =>
        if EstimateTokens(r.messages) >= EstimateTokens(ms) then Recovery(t, ms, false, false)
        else
          var t' := t.(reactiveAttempted := true, lowWaterMark := Size(t, r.messages, toolTokens));
          Recovery(t', r.messages, true, false)
  }

  // ---------------------------------------------------------------------------------------------
  // The code
  // ---------------------------------------------------------------------------------------------

  class CompactionState {
    var enabled: bool
    var threshold: int
    const preserveLast: int
    var lowWaterMark: int
    var reactiveAttempted: bool
    var calibrationRatio: real

    constructor (contextWindow: int, keep: int)
      ensures View() == NewTuner(contextWindow, keep) && preserveLast == keep
    {
      enabled := contextWindow > 0;
      threshold := CompactionThreshold(contextWindow);
      preserveLast := keep;
      lowWaterMark, reactiveAttempted, calibrationRatio := 0, false, 0.0;
    }

    function View(): Tuner
      reads this
    {
      Tuner(enabled, threshold, preserveLast, lowWaterMark, reactiveAttempted, calibrationRatio)
    }

    method Calibrate(rawEstimate: int, actualPromptTokens: int)
      modifies this`calibrationRatio
      ensures View() == CalibrateSpec(old(View()), rawEstimate, actualPromptTokens)
    {
      if !enabled || rawEstimate <= 0 || actualPromptTokens <= 0 {
        return;
      }
      var sample := actualPromptTokens as real / rawEstimate as real;
      if sample < 0.5 {
        sample := 0.5;
      } else if sample > 2.0 {
        sample := 2.0;
      }
      if calibrationRatio <= 0.0 {
        calibrationRatio := 1.0;
      }
      calibrationRatio := calibrationRatio * 0.7 + sample * 0.3;
    }

    method CalibratedTokens(raw: nat) returns (tokens: int)
      ensures tokens == Calibrated(View(), raw)
    {
      if calibrationRatio <= 0.0 {
        return raw;
      }
      tokens := (raw as real * calibrationRatio).Floor;
    }

    method Measure(ms: seq<Message>, toolTokens: nat) returns (size: int)
      ensures size == Size(View(), ms, toolTokens)
    {
      var estimate := EstimateMessages(ms);
      size := CalibratedTokens(estimate + toolTokens);
    }

    method MaybeCompact(write: Writer, ms: seq<Message>, toolTokens: nat, summarize: Summarizer)
      returns (out: seq<Message>)
      modifies this`lowWaterMark
      ensures var (t, ms', _) := MaybeCompactSpec(old(View()), write, ms, toolTokens, summarize);
              View() == t && out == ms'
    {
      hide CompactSpec, EstimateTokens, Pruned;
      if !enabled {
        return ms;
      }
      var size := Measure(ms, toolTokens);
      if size <= threshold {
        return ms;
      }
      if lowWaterMark > 0 && size <= lowWaterMark {
        return ms;
      }
      out := ms;
      var pruned, reclaimed := PruneStaleToolOutput(ms, preserveLast);
      if reclaimed > 0 {
        out := pruned;
        size := Measure(out, toolTokens);
        if size <= threshold {
          lowWaterMark := size;
          return;
        }
      }
      var outcome := CompactMessages(write, out, preserveLast, Some(summarize));
      if outcome.CompactionFailed? {
        return;
      }
      var newSize := Measure(outcome.result.messages, toolTokens);
      if newSize >= size {
        lowWaterMark := size;
        return;
      }
      lowWaterMark := newSize;
      out := outcome.result.messages;
    }

    method Recover(write: Writer, ms: seq<Message>, toolTokens: nat, contextLimit: bool, summarize: Summarizer)
      returns (out: seq<Message>, retried: bool, failed: bool)
      modifies this`lowWaterMark, this`reactiveAttempted
      ensures Recovery(View(), out, retried, failed)
              == RecoverSpec(old(View()), write, ms, toolTokens, contextLimit, summarize)
    {
      hide CompactSpec, EstimateTokens;
      if !enabled || reactiveAttempted || !contextLimit {
        return ms, false, false;
      }
      var outcome := CompactMessages(write, ms, preserveLast, Some(summarize));
      if outcome.CompactionFailed? {
        reactiveAttempted := true;
        return ms, true, true;
      }
      var after := EstimateMessages(outcome.result.messages);
      var before := EstimateMessages(ms);
      if after >= before {
        return ms, false, false;
      }
      reactiveAttempted := true;
      lowWaterMark := CalibratedTokens(after + toolTokens);
      return outcome.result.messages, true, false;
    }
  }

  // ---------------------------------------------------------------------------------------------
  // What the state guarantees
  // ---------------------------------------------------------------------------------------------

  lemma CalibratedMonotone(t: Tuner, a: nat, b: nat)
    requires a <= b
    ensures Calibrated(t, a) <= Calibrated(t, b)
  {
    if t.ratio > 0.0 {
      assert (b - a) as real * t.ratio >= 0.0;
      assert b as real * t.ratio == a as real * t.ratio + (b - a) as real * t.ratio;
    }
  }

  lemma PruningShrinks(t: Tuner, ms: seq<Message>, toolTokens: nat)
    ensures Size(t, AfterPruning(t, ms), toolTokens) <= Size(t, ms, toolTokens)
  {
    hide Pruned, EstimateTokens;
    PruneConserves(ms, t.preserveLast);
    CalibratedMonotone(t, EstimateTokens(AfterPruning(t, ms)) + toolTokens, EstimateTokens(ms) + toolTokens);
  }

  /** Proactive compaction never returns a larger request than it was given. */
  lemma ProactiveNeverGrows(t: Tuner, write: Writer, ms: seq<Message>, toolTokens: nat, summarize: Summarizer)
    ensures Size(t, MaybeCompactSpec(t, write, ms, toolTokens, summarize).1, toolTokens) <= Size(t, ms, toolTokens)
  {
    hide Pruned, EstimateTokens, CompactSpec, Size;
    PruningShrinks(t, ms, toolTokens);
  }

  /** Small enough, or no larger than it was right after the last attempt: nothing is to be done. */
  predicate LeftAlone(t: Tuner, size: int) { !t.enabled || size <= t.threshold || 0 < size <= t.lowWaterMark }

  /** What proactive compaction comes to. A transcript that is to be left alone is. Otherwise pruning is tried first,
      and is enough if it gets under the threshold. If not, and there is a middle, the summarizer is called once; if
      it answers, the smaller of the pruned and the compacted transcript is returned. What is returned is the new
      low-water mark, unless the summarizer failed. */
  lemma ProactiveOutcome(t: Tuner, write: Writer, ms: seq<Message>, toolTokens: nat, summarize: Summarizer)
    requires t.threshold >= 0
    ensures var (t', out, calls) := MaybeCompactSpec(t, write, ms, toolTokens, summarize);
            var keep := t.preserveLast;
            var pruned := if Pruned(ms, keep).1 > 0 then Pruned(ms, keep).0 else ms;
            var middle := Middle(pruned, keep);
            if LeftAlone(t, Size(t, ms, toolTokens)) then t' == t && out == ms && calls == 0
            else if pruned != ms && Size(t, pruned, toolTokens) <= t.threshold then
              out == pruned && calls == 0 && t' == t.(lowWaterMark := Size(t, out, toolTokens))
            else if middle == [] then out == pruned && calls == 0 && t' == t.(lowWaterMark := Size(t, out, toolTokens))
            else if summarize(middle).Failed? then out == pruned && calls == 1 && t' == t
            else
              var compacted := Spliced(pruned, keep, Note(write(summarize(middle).text, middle)));
              && calls == 1 && (out == pruned || out == compacted) && t' == t.(lowWaterMark := Size(t, out, toolTokens))
              && Size(t, out, toolTokens) <= Size(t, compacted, toolTokens)
              && Size(t, out, toolTokens) <= Size(t, pruned, toolTokens)
  {
    hide EstimateTokens, Size, Middle, Spliced, Pruned, CompactSpec;
    NothingPrunedIsSame(ms, t.preserveLast);
    CompactionComesTo(write, if Pruned(ms, t.preserveLast).1 > 0 then Pruned(ms, t.preserveLast).0 else ms, t.preserveLast, summarize);
  }

  lemma CompactionComesTo(write: Writer, ms: seq<Message>, keep: int, summarize: Summarizer)
    ensures var middle, o := Middle(ms, keep), CompactSpec(write, ms, keep, summarize);
            if middle == [] then o.Done? && o.result.messages == ms
            else
              match summarize(middle)
              case Failed(_) => o.CompactionFailed?
              case Summary(text) => o.Done? && o.result.messages == Spliced(ms, keep, Note(write(text, middle)))
  {
    hide Middle, Spliced;
  }

  /** Whatever was reclaimed, something was replaced. */
  lemma NothingPrunedIsSame(ms: seq<Message>, keep: int)
    ensures Pruned(ms, keep).1 != 0 ==> Pruned(ms, keep).0 != ms
  {
    hide Pruned, EstimateTokens;
    PruneConserves(ms, keep);
  }

  /** What the reactive path comes to: once a run, for a context limit, it compacts if that makes the transcript
      smaller, and reports a retry; a summarizer that fails uses the one attempt up. */
  lemma ReactiveOutcome(t: Tuner, write: Writer, ms: seq<Message>, toolTokens: nat, limit: bool, summarize: Summarizer)
    ensures var r := RecoverSpec(t, write, ms, toolTokens, limit, summarize);
            var middle := Middle(ms, t.preserveLast);
            if !t.enabled || t.reactiveAttempted || !limit || middle == [] then r == Recovery(t, ms, false, false)
            else if summarize(middle).Failed? then r == Recovery(t.(reactiveAttempted := true), ms, true, true)
            else
              var compacted := Spliced(ms, t.preserveLast, Note(write(summarize(middle).text, middle)));
              if EstimateTokens(compacted) < EstimateTokens(ms) then
                r.messages == compacted && r.retried && !r.failed
                && r.tuner == t.(reactiveAttempted := true, lowWaterMark := Size(t, compacted, toolTokens))
              else r == Recovery(t, ms, false, false)
  {
    hide EstimateTokens, Size, Middle, Spliced;
  }

  /** The threshold is seven tenths of the window, rounded down. */
  lemma ThresholdIsSevenTenths(contextWindow: nat)
    ensures var t := CompactionThreshold(contextWindow); 10 * t <= 7 * contextWindow < 10 * t + 10
  {
    var x := contextWindow as real * 0.7;
    assert x.Floor as real <= x < x.Floor as real + 1.0;
    assert 10.0 * x == (7 * contextWindow) as real;
  }

  /** The measured ratio takes the estimate to the size it stands for, rounded down. */
  lemma CalibratedScales(t: Tuner, raw: nat)
    ensures t.ratio <= 0.0 ==> Calibrated(t, raw) == raw
    ensures t.ratio > 0.0 ==> Calibrated(t, raw) as real <= raw as real * t.ratio < Calibrated(t, raw) as real + 1.0
  {
  }

  /** What one usage sample tells: the provider's count by the estimate, no less than a half and no more than two. */
  ghost predicate Tells(raw: int, actual: int, sample: real) {
    && raw > 0 && actual > 0
    && (2 * actual < raw ==> sample == 0.5) && (actual > 2 * raw ==> sample == 2.0)
    && (raw <= 2 * actual && actual <= 2 * raw ==> sample * raw as real == actual as real)
  }

  function RatioOf(t: Tuner): real { if t.ratio <= 0.0 then 1.0 else t.ratio }

  /** One sample takes the ratio three tenths of the way to what the sample tells. */
  lemma CalibrationMoves(t: Tuner, raw: int, actual: int, sample: real)
    requires t.enabled && Tells(raw, actual, sample)
    ensures RatioOf(CalibrateSpec(t, raw, actual)) - sample == 0.7 * (RatioOf(t) - sample)
    ensures CalibrateSpec(t, raw, actual) == t.(ratio := CalibrateSpec(t, raw, actual).ratio)
  {
    SampleIs(raw, actual, sample);
    assert 0.5 <= sample <= 2.0;
    var ratio := RatioOf(t);
    assert ratio * 0.7 + sample * 0.3 - sample == 0.7 * (ratio - sample);
  }

  lemma SampleIs(raw: int, actual: int, sample: real)
    requires Tells(raw, actual, sample)
    ensures var q := actual as real / raw as real;
            sample == if q < 0.5 then 0.5 else if q > 2.0 then 2.0 else q
  {
    var r, a := raw as real, actual as real;
    assert (2 * actual) as real == 2.0 * a && (2 * raw) as real == 2.0 * r;
    Divided(a, r);
    Quotient(a / r, a, r, sample);
  }

  lemma Quotient(q: real, a: real, r: real, sample: real)
    requires r > 0.0 && q * r == a
    ensures (q < 0.5 <==> 2.0 * a < r) && (q > 2.0 <==> a > 2.0 * r)
    ensures sample * r == a ==> sample == q
  {
    Scaled(q, 0.5, r);
    Scaled(2.0, q, r);
    Scaled(sample, q, r);
    Scaled(q, sample, r);
  }

  lemma Divided(a: real, r: real)
    requires r > 0.0
    ensures (a / r) * r == a
  {
  }

  lemma Scaled(x: real, y: real, r: real)
    requires r > 0.0
    ensures x < y <==> x * r < y * r
  {
    if x < y {
      assert (y - x) * r > 0.0;
    } else {
      assert (x - y) * r >= 0.0;
    }
  }

  /** The part of the way still to go after so many samples. */
  function Remaining(n: nat): real { if n == 0 then 1.0 else 0.7 * Remaining(n - 1) }

  function Samples(t: Tuner, samples: seq<(int, int)>): Tuner {
    if samples == [] then t
    else
      var (raw, actual) := samples[|samples| - 1];
      CalibrateSpec(Samples(t, samples[..|samples| - 1]), raw, actual)
  }

  /** As long as the provider's counts stand in the same proportion to the estimates, the ratio converges to it. */
  lemma {:induction false} CalibrationConverges(t: Tuner, samples: seq<(int, int)>, sample: real)
    requires t.enabled && forall i | 0 <= i < |samples| :: Tells(samples[i].0, samples[i].1, sample)
    ensures Samples(t, samples).enabled
    ensures RatioOf(Samples(t, samples)) - sample == Remaining(|samples|) * (RatioOf(t) - sample)
  {
    hide CalibrateSpec, RatioOf, Tells;
    if samples != [] {
      var n := |samples| - 1;
      var before := Samples(t, samples[..n]);
      var (raw, actual) := samples[n];
      CalibrationConverges(t, samples[..n], sample);
      assert Tells(samples[n].0, samples[n].1, sample);
      CalibrationMoves(before, raw, actual, sample);
      ScaleTwice(Remaining(n), RatioOf(t) - sample);
    }
  }

  lemma ScaleTwice(x: real, y: real)
    ensures 0.7 * (x * y) == (0.7 * x) * y
  {
  }

  /** The one path on which a later attempt must be free to try again. */
  predicate SummarizerFailed(t: Tuner, write: Writer, ms: seq<Message>, toolTokens: nat, summarize: Summarizer) {
    var ms1 := AfterPruning(t, ms);
    && !Settled(t, Size(t, ms, toolTokens))
    && !(Pruned(ms, t.preserveLast).1 > 0 && Size(t, ms1, toolTokens) <= t.threshold)
    && CompactSpec(write, ms1, t.preserveLast, summarize).CompactionFailed?
  }

  /** Unless the summarizer failed, an immediate second pass changes nothing and calls nobody. (The
      threshold starts nonnegative, and no step of a run changes it.) */
  lemma ProactiveStandsStill(t: Tuner, write: Writer, ms: seq<Message>, toolTokens: nat,
                             summarize: Summarizer, again: Summarizer)
    requires t.threshold >= 0
    requires !SummarizerFailed(t, write, ms, toolTokens, summarize)
    ensures var (t1, ms1, _) := MaybeCompactSpec(t, write, ms, toolTokens, summarize);
            MaybeCompactSpec(t1, write, ms1, toolTokens, again) == (t1, ms1, 0)
  {
    hide Pruned, EstimateTokens, CompactSpec, Size;
    var (t1, ms1, _) := MaybeCompactSpec(t, write, ms, toolTokens, summarize);
    assert t1 == t.(lowWaterMark := t1.lowWaterMark);
    SizeIgnoresMark(t, t1.lowWaterMark, ms1, toolTokens);
  }

  lemma SizeIgnoresMark(t: Tuner, mark: int, ms: seq<Message>, toolTokens: nat)
    ensures Size(t.(lowWaterMark := mark), ms, toolTokens) == Size(t, ms, toolTokens)
  {
  }

  ghost predicate RatioInBand(t: Tuner) {
    t.ratio == 0.0 || 0.5 <= t.ratio <= 2.0
  }

  /** What a rewrite of the history may do to it: change bodies of tool results only, or that and
      then one compaction. */
  ghost predicate Rewrites(ms: seq<Message>, out: seq<Message>) {
    SameShape(ms, out) || CompactsTo(ms, out)
  }

  ghost predicate CompactsTo(ms: seq<Message>, out: seq<Message>) {
    exists pruned, keep, removed: nat, note: Message ::
      SameShape(ms, pruned) && note.role == User && note.calls == [] && SplicesTo(pruned, keep, removed, note, out)
  }

  ghost predicate SplicesTo(ms: seq<Message>, keep: int, removed: nat, note: Message, out: seq<Message>) {
    CompactShape(ms, keep, removed, out) && out[SystemEnd(ms)] == note
  }

  lemma SpecRewrites(write: Writer, ms: seq<Message>, pruned: seq<Message>, preserveLast: int, summarize: Summarizer)
    requires SameShape(ms, pruned)
    requires CompactSpec(write, pruned, preserveLast, summarize).Done?
    ensures Rewrites(ms, CompactSpec(write, pruned, preserveLast, summarize).result.messages)
    ensures Paired(pruned) ==> Paired(CompactSpec(write, pruned, preserveLast, summarize).result.messages)
  {
    var middle := Middle(pruned, preserveLast);
    if middle != [] {
      var note := Note(write(summarize(middle).text, middle));
      var out := Spliced(pruned, preserveLast, note);
      SplicedShape(pruned, preserveLast, note);
      assert SplicesTo(pruned, Keep(preserveLast), |middle|, note, out);
      if Paired(pruned) {
        CompactionKeepsPairing(pruned, preserveLast, note);
      }
    }
  }

  /** Proactive compaction only ever prunes and compacts, and keeps results with their calls. */
  lemma ProactiveRewrites(t: Tuner, write: Writer, ms: seq<Message>, toolTokens: nat, summarize: Summarizer)
    ensures var out := MaybeCompactSpec(t, write, ms, toolTokens, summarize).1;
            Rewrites(ms, out) && (Paired(ms) ==> Paired(out))
  {
    hide Pruned, EstimateTokens, CompactSpec, Size, SameShape, Paired;
    var ms1 := AfterPruning(t, ms);
    PruneKeepsPairing(ms, t.preserveLast);
    ShapeReflexive(ms);
    if CompactSpec(write, ms1, t.preserveLast, summarize).Done? {
      SpecRewrites(write, ms, ms1, t.preserveLast, summarize);
    }
  }

  lemma ShapeReflexive(ms: seq<Message>)
    ensures SameShape(ms, ms)
  {
  }

  lemma ReactiveRewrites(t: Tuner, write: Writer, ms: seq<Message>, toolTokens: nat, limit: bool, summarize: Summarizer)
    ensures var out := RecoverSpec(t, write, ms, toolTokens, limit, summarize).messages;
            Rewrites(ms, out) && (Paired(ms) ==> Paired(out))
  {
    hide EstimateTokens, CompactSpec, Size, SameShape, Paired;
    ShapeReflexive(ms);
    if CompactSpec(write, ms, t.preserveLast, summarize).Done? {
      SpecRewrites(write, ms, ms, t.preserveLast, summarize);
    }
  }

  // ---- whole runs ----

  datatype Step =
    | Sample(raw: int, actual: int)
    | Proactive(ms: seq<Message>, toolTokens: nat, summarize: Summarizer)
    | Reactive(ms: seq<Message>, toolTokens: nat, contextLimit: bool, summarize: Summarizer)

  function After(t: Tuner, write: Writer, step: Step): Tuner {
    match step
    case Sample(raw, actual) => CalibrateSpec(t, raw, actual)
    case Proactive(ms, tools, s) => MaybeCompactSpec(t, write, ms, tools, s).0
    case Reactive(ms, tools, limit, s) => RecoverSpec(t, write, ms, tools, limit, s).tuner
  }

  function Retries(t: Tuner, write: Writer, steps: seq<Step>): nat
    decreases |steps|
  {
    if steps == [] then 0
    else
      var step := steps[0];
      (if step.Reactive?
          && RecoverSpec(t, write, step.ms, step.toolTokens, step.contextLimit, step.summarize).retried then 1 else 0)
      + Retries(After(t, write, step), write, steps[1..])
  }

  function AfterAll(t: Tuner, write: Writer, steps: seq<Step>): Tuner
    decreases |steps|
  {
    if steps == [] then t else AfterAll(After(t, write, steps[0]), write, steps[1..])
  }

  /** Over any sequence of samples, proactive and reactive compactions: at most one retry is reported,
      and the calibration ratio stays unset or inside its band. */
  lemma {:induction false} RunGuarantees(t: Tuner, write: Writer, steps: seq<Step>)
    requires RatioInBand(t)
    ensures Retries(t, write, steps) <= (if t.reactiveAttempted then 0 else 1)
    ensures RatioInBand(AfterAll(t, write, steps))
    ensures AfterAll(t, write, steps).threshold == t.threshold
    decreases |steps|
  {
    hide CompactSpec, Size, EstimateTokens, MaybeCompactSpec;
    if steps != [] {
      StepInBand(t, write, steps[0]);
      RunGuarantees(After(t, write, steps[0]), write, steps[1..]);
    }
  }

  lemma StepInBand(t: Tuner, write: Writer, step: Step)
    requires RatioInBand(t)
    ensures RatioInBand(After(t, write, step))
    ensures t.reactiveAttempted ==> After(t, write, step).reactiveAttempted
    ensures After(t, write, step).threshold == t.threshold
  {
    hide Pruned, EstimateTokens, CompactSpec, Size;
  }
}
