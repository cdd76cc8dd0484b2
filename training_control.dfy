/**
  The control skeleton of `NMTEngineTrainer.train_model`: the termination
  policy, the best-perplexity and stall bookkeeping of validation, the switch
  that activates learning-rate decay, and the step-modulo schedules for
  reporting, validation, decay and checkpoints. The tensor work is abstract:
  a training step contributes `batch(step)` to the statistics, a validation
  at a step yields `evaluate(step)`.
*/
module TrainingControl {
  import opened Wrappers
  import opened CheckpointHistory
  import opened TrainingStats

  /** The integer settings of `NMTEngineTrainer.Options`. */
  datatype Options = Options(
    batchSize: int,
    maxGeneratorBatches: int,
    reportSteps: int,
    validationSteps: int,
    checkpointSteps: int,
    stepsLimit: Option<int>,
    lrDecaySteps: int,
    lrDecayStartAt: int,
    earlyStop: int,
    nAvgCheckpoints: nat)

  /** The defaults the options object starts with. */
  const DefaultOptions: Options := Options(64, 32, 100, 10000, 10000, None, 10000, 50000, 10, 5)

  /** A schedule's test `step % period == 0`; divisibility is the same
      under Python's floored `%` and Dafny's Euclidean one. Python raises
      `ZeroDivisionError` on a zero period: an iteration that would evaluate
      such a test raises there instead (see `Raises`), so here a zero period
      is never due. */
  predicate Multiple(step: int, period: int) {
    period != 0 && step % period == 0
  }

  // ---------------------------------------------------------------------------
  // Validation: best perplexity and the stall counter
  // ---------------------------------------------------------------------------

  /** `valid_ppl_best` (None before the first validation) and `valid_ppl_stalled`. */
  datatype Progress = Progress(best: Option<real>, stalled: nat)

  /** One validation result: a first result or a strictly better one becomes
      the best and resets the counter; anything else counts one more stall. */
  function Validate(p: Progress, ppl: real): (q: Progress)
    ensures q.best.Some? && q.best.value <= ppl
    ensures p.best.Some? ==> q.best.value <= p.best.value
    ensures q.stalled == 0 <==> p.best.None? || ppl < p.best.value
    ensures q.stalled == 0 ==> q.best == Some(ppl)
    ensures q.stalled != 0 ==> q.best == p.best && q.stalled == p.stalled + 1
  {
    if p.best.None? || ppl < p.best.value then Progress(Some(ppl), 0)
    else Progress(p.best, p.stalled + 1)
  }

  /** The progress after the validation results `vs`, in order. */
  function Track(vs: seq<real>): Progress {
    if vs == [] then Progress(None, 0)
    else Validate(Track(vs[..|vs| - 1]), vs[|vs| - 1])
  }

  /** The best is the minimum of all results, first reached at some index
      `k`, and the stall counter is the number of results after `k`. */
  lemma {:induction false} TrackFindsFirstMinimum(vs: seq<real>)
    ensures Track(vs).best.None? <==> vs == []
    ensures vs != [] ==>
      exists k :: 0 <= k < |vs| && Track(vs).best == Some(vs[k]) && Track(vs).stalled == |vs| - 1 - k
                  && (forall i :: 0 <= i < k ==> vs[k] < vs[i]) && (forall i :: k <= i < |vs| ==> vs[k] <= vs[i])
  {
    if vs != [] {
      var n := |vs|;
      var init := vs[..n - 1];
      TrackFindsFirstMinimum(init);
      assert Track(vs) == Validate(Track(init), vs[n - 1]);
      if init == [] {
        assert Track(vs) == Progress(Some(vs[0]), 0);
      } else {
        var j :| 0 <= j < n - 1 && Track(init).best == Some(init[j])
          && Track(init).stalled == n - 2 - j
          && (forall i :: 0 <= i < j ==> init[j] < init[i])
          && (forall i :: j <= i < n - 1 ==> init[j] <= init[i]);
        assert init[j] == vs[j];
        if vs[n - 1] < vs[j] {
          forall i | 0 <= i < n - 1
            ensures vs[n - 1] < vs[i]
          {
            assert init[i] == vs[i];
          }
          assert Track(vs).best == Some(vs[n - 1]) && Track(vs).stalled == 0;
        } else {
          forall i | 0 <= i < n
            ensures (i < j ==> vs[j] < vs[i]) && (j <= i ==> vs[j] <= vs[i])
          {
            if i < n - 1 {
              assert init[i] == vs[i];
            }
          }
          assert Track(vs).best == Some(vs[j]) && Track(vs).stalled == n - 1 - j;
        }
      }
    }
  }

  /** Early stop after `e` stalls means that none of the last `e` results
      beat the best among the results before them. */
  lemma {:induction false} StalledMeansNoRecentImprovement(vs: seq<real>, e: nat)
    requires Track(vs).stalled >= e
    ensures e <= |vs|
    ensures e < |vs| ==> forall i :: |vs| - e <= i < |vs| ==> exists j :: 0 <= j < |vs| - e && vs[j] <= vs[i]
  {
    TrackFindsFirstMinimum(vs);
    if vs != [] {
      var k :| 0 <= k < |vs| && Track(vs).best == Some(vs[k])
        && Track(vs).stalled == |vs| - 1 - k
        && (forall i :: 0 <= i < k ==> vs[k] < vs[i])
        && (forall i :: k <= i < |vs| ==> vs[k] <= vs[i]);
      assert k < |vs| - e;
      forall i | |vs| - e <= i < |vs|
        ensures exists j :: 0 <= j < |vs| - e && vs[j] <= vs[i]
      {
        assert vs[k] <= vs[i];
      }
    }
  }

  // ---------------------------------------------------------------------------
  // One iteration of the loop, and the loop as a trace of iterations
  // ---------------------------------------------------------------------------

  /** The loop's control variables after an iteration: the step, the
      validation progress, and the optimizer's `lr_start_decay` flag. */
  datatype Control = Control(step: int, progress: Progress, decay: bool)

  /** The termination test at the top of each iteration. */
  predicate ShouldStop(o: Options, c: Control) {
    c.progress.stalled >= o.earlyStop || (o.stepsLimit.Some? && c.step >= o.stepsLimit.value)
  }

  predicate ValidationDue(o: Options, hasValidSet: bool, step: int) {
    hasValidSet && Multiple(step, o.validationSteps)
  }

  /** The decay switch: off whenever nothing is stalled, on once something is
      stalled past `startDecayAt`, otherwise as it was. */
  function NextDecay(active: bool, stalled: nat, step: int, startDecayAt: int): (a: bool)
    ensures a ==> stalled > 0 && (active || step > startDecayAt)
    ensures stalled > 0 && step > startDecayAt ==> a
    ensures stalled > 0 && active ==> a
  {
    if stalled > 0 then (if step > startDecayAt then true else active) else false
  }

  /** An iteration after its training step: count the step, validate when
      due, update the decay switch. */
  function Advance(o: Options, startDecayAt: int, hasValidSet: bool, evaluate: int -> real, c: Control): Control {
    var step := c.step + 1;
    var progress := if ValidationDue(o, hasValidSet, step) then Validate(c.progress, evaluate(step)) else c.progress;
    Control(step, progress, NextDecay(c.decay, progress.stalled, step, startDecayAt))
  }

  /** The schedule whose zero period makes an iteration raise, named in the
      order the iteration reaches the tests. */
  datatype ZeroPeriod = ReportPeriod | ValidationPeriod | DecayPeriod | CheckpointPeriod

  /** Whether the iteration that leads to control `d` raises
      `ZeroDivisionError`, and at which test: the report test always runs,
      the validation test only with a validation set, the decay test only
      while the switch is on after the iteration's update, and the
      checkpoint test always. */
  function Raises(o: Options, hasValidSet: bool, d: Control): Option<ZeroPeriod> {
    if o.reportSteps == 0 then Some(ReportPeriod)
    else if hasValidSet && o.validationSteps == 0 then Some(ValidationPeriod)
    else if d.decay && o.lrDecaySteps == 0 then Some(DecayPeriod)
    else if o.checkpointSteps == 0 then Some(CheckpointPeriod)
    else None
  }

  /** The controls after each iteration the loop completes from `c` when the
      data iterator supplies at most `supply` batches. */
  function Trace(o: Options, startDecayAt: int, hasValidSet: bool, evaluate: int -> real, c: Control, supply: nat): seq<Control>
    decreases supply
  {
    if supply == 0 || ShouldStop(o, c) then []
    else
      var d := Advance(o, startDecayAt, hasValidSet, evaluate, c);
      if Raises(o, hasValidSet, d).Some? then [] else [d] + Trace(o, startDecayAt, hasValidSet, evaluate, d, supply - 1)
  }

  /** With no batch left, once the stop rule fires, or when the next
      iteration raises, no further iteration completes. */
  lemma TraceEnds(o: Options, startDecayAt: int, hasValidSet: bool, evaluate: int -> real, c: Control, supply: nat)
    requires supply == 0 || ShouldStop(o, c) || Raises(o, hasValidSet, Advance(o, startDecayAt, hasValidSet, evaluate, c)).Some?
    ensures Trace(o, startDecayAt, hasValidSet, evaluate, c, supply) == []
  {
  }

  function Final(c: Control, t: seq<Control>): Control {
    if t == [] then c else t[|t| - 1]
  }

  /** The last control after one more iteration `d` is `d`. */
  lemma FinalOneMore(c: Control, t: seq<Control>, d: Control)
    ensures Final(c, t + [d]) == d
  {
  }

  /** The run from `c` raises exactly when its iterations end before the
      supply does without the stop rule firing: the iteration it was about
      to complete raised. */
  function Raised(o: Options, startDecayAt: int, hasValidSet: bool, evaluate: int -> real, c: Control, supply: nat): Option<ZeroPeriod> {
    var t := Trace(o, startDecayAt, hasValidSet, evaluate, c, supply);
    if |t| < supply && !ShouldStop(o, Final(c, t)) then Raises(o, hasValidSet, Advance(o, startDecayAt, hasValidSet, evaluate, Final(c, t))) else None
  }

  /** A run whose iterations so far, `t`, lead to control `c` and after which
      no further iteration completes is over: `t` is its whole trace, and it
      raised exactly when neither the supply nor the stop rule ended it. */
  lemma RunEnds(o: Options, startDecayAt: int, hasValidSet: bool, evaluate: int -> real,
                c0: Control, total: nat, t: seq<Control>, c: Control, n: nat)
    requires n <= total && |t| == n && Final(c0, t) == c
    requires t + Trace(o, startDecayAt, hasValidSet, evaluate, c, total - n) == Trace(o, startDecayAt, hasValidSet, evaluate, c0, total)
    requires n == total || ShouldStop(o, c) || Raises(o, hasValidSet, Advance(o, startDecayAt, hasValidSet, evaluate, c)).Some?
    ensures t == Trace(o, startDecayAt, hasValidSet, evaluate, c0, total)
    ensures Raised(o, startDecayAt, hasValidSet, evaluate, c0, total)
            == if n < total && !ShouldStop(o, c) then Raises(o, hasValidSet, Advance(o, startDecayAt, hasValidSet, evaluate, c)) else None
  {
    TraceEnds(o, startDecayAt, hasValidSet, evaluate, c, total - n);
    assert t + [] == t;
  }

  /** The termination rule: steps advance one at a time, every iteration
      starts from a control that does not ask to stop and does not raise,
      and the loop ends early only when the last control asks to stop or
      the next iteration raises. */
  lemma {:induction false} TraceFollowsStopRule(o: Options, startDecayAt: int, hasValidSet: bool, evaluate: int -> real, c: Control, supply: nat)
    ensures var t := Trace(o, startDecayAt, hasValidSet, evaluate, c, supply);
      && |t| <= supply
      && (forall i :: 0 <= i < |t| ==> t[i].step == c.step + i + 1)
      && (t != [] ==> !ShouldStop(o, c) && Raises(o, hasValidSet, Advance(o, startDecayAt, hasValidSet, evaluate, c)).None?)
      && (forall i :: 0 <= i < |t| - 1 ==> !ShouldStop(o, t[i]) && Raises(o, hasValidSet, Advance(o, startDecayAt, hasValidSet, evaluate, t[i])).None?)
      && (|t| < supply ==> ShouldStop(o, Final(c, t)) || Raises(o, hasValidSet, Advance(o, startDecayAt, hasValidSet, evaluate, Final(c, t))).Some?)
    decreases supply
  {
    if supply > 0 && !ShouldStop(o, c) && Raises(o, hasValidSet, Advance(o, startDecayAt, hasValidSet, evaluate, c)).None? {
      var d := Advance(o, startDecayAt, hasValidSet, evaluate, c);
      var rest := Trace(o, startDecayAt, hasValidSet, evaluate, d, supply - 1);
      TraceFollowsStopRule(o, startDecayAt, hasValidSet, evaluate, d, supply - 1);
      var t := [d] + rest;
      assert Trace(o, startDecayAt, hasValidSet, evaluate, c, supply) == t;
      assert forall i :: 1 <= i < |t| ==> t[i] == rest[i - 1];
      assert Final(c, t) == if rest == [] then d else Final(d, rest);
    }
  }

  /** With a step limit the loop never counts past it. */
  lemma {:induction false} TraceRespectsStepsLimit(o: Options, startDecayAt: int, hasValidSet: bool, evaluate: int -> real, c: Control, supply: nat)
    requires o.stepsLimit.Some?
    ensures forall d :: d in Trace(o, startDecayAt, hasValidSet, evaluate, c, supply) ==> d.step <= o.stepsLimit.value
  {
    var t := Trace(o, startDecayAt, hasValidSet, evaluate, c, supply);
    TraceFollowsStopRule(o, startDecayAt, hasValidSet, evaluate, c, supply);
    forall i | 0 <= i < |t|
      ensures t[i].step <= o.stepsLimit.value
    {
      if i > 0 {
        assert !ShouldStop(o, t[i - 1]);
      }
    }
  }

  /** The stall counter never passes `early_stop`: it grows by one per
      validation and the loop stops as soon as it reaches the limit. */
  lemma {:induction false} TraceStallsBounded(o: Options, startDecayAt: int, hasValidSet: bool, evaluate: int -> real, c: Control, supply: nat)
    ensures forall d :: d in Trace(o, startDecayAt, hasValidSet, evaluate, c, supply) ==> d.progress.stalled <= o.earlyStop
    decreases supply
  {
    if supply > 0 && !ShouldStop(o, c) && Raises(o, hasValidSet, Advance(o, startDecayAt, hasValidSet, evaluate, c)).None? {
      var d := Advance(o, startDecayAt, hasValidSet, evaluate, c);
      TraceStallsBounded(o, startDecayAt, hasValidSet, evaluate, d, supply - 1);
    }
  }

  /** The validation results of the iterations in `t`, in order. */
  function Validations(o: Options, hasValidSet: bool, evaluate: int -> real, t: seq<Control>): seq<real>
  {
    if t == [] then []
    else
      (if ValidationDue(o, hasValidSet, t[0].step) then [evaluate(t[0].step)] else [])
      + Validations(o, hasValidSet, evaluate, t[1..])
  }

  /** One unfolding of a trace that runs at least one iteration. */
  lemma TraceStep(o: Options, startDecayAt: int, hasValidSet: bool, evaluate: int -> real, c: Control, supply: nat)
    requires supply > 0 && !ShouldStop(o, c) && Raises(o, hasValidSet, Advance(o, startDecayAt, hasValidSet, evaluate, c)).None?
    ensures var d := Advance(o, startDecayAt, hasValidSet, evaluate, c);
      var t := Trace(o, startDecayAt, hasValidSet, evaluate, c, supply);
      var rest := Trace(o, startDecayAt, hasValidSet, evaluate, d, supply - 1);
      && t == [d] + rest
      && Final(c, t) == Final(d, rest)
      && Validations(o, hasValidSet, evaluate, t)
         == (if ValidationDue(o, hasValidSet, d.step) then [evaluate(d.step)] else []) + Validations(o, hasValidSet, evaluate, rest)
  {
    var d := Advance(o, startDecayAt, hasValidSet, evaluate, c);
    var t := Trace(o, startDecayAt, hasValidSet, evaluate, c, supply);
    assert t[1..] == Trace(o, startDecayAt, hasValidSet, evaluate, d, supply - 1);
  }

  /** The progress after feeding the results `vs`, in order, to `p`. */
  function Resume(p: Progress, vs: seq<real>): Progress
    decreases |vs|
  {
    if vs == [] then p else Resume(Validate(p, vs[0]), vs[1..])
  }

  /** Feeding further results continues the tracking of the earlier ones. */
  lemma {:induction false} ResumeTracks(prior: seq<real>, vs: seq<real>)
    ensures Resume(Track(prior), vs) == Track(prior + vs)
    decreases |vs|
  {
    if vs == [] {
      assert prior + vs == prior;
    } else {
      var next := prior + [vs[0]];
      assert next[..|prior|] == prior;
      ResumeTracks(next, vs[1..]);
      assert next + vs[1..] == prior + vs;
    }
  }

  /** Each iteration feeds its validation result, if any, to the progress
      it started from. */
  lemma {:induction false} TraceResumesValidations(o: Options, startDecayAt: int, hasValidSet: bool, evaluate: int -> real, c: Control, supply: nat)
    ensures var t := Trace(o, startDecayAt, hasValidSet, evaluate, c, supply);
      Final(c, t).progress == Resume(c.progress, Validations(o, hasValidSet, evaluate, t))
    decreases supply
  {
    if supply > 0 && !ShouldStop(o, c) && Raises(o, hasValidSet, Advance(o, startDecayAt, hasValidSet, evaluate, c)).None? {
      var d := Advance(o, startDecayAt, hasValidSet, evaluate, c);
      var later := Validations(o, hasValidSet, evaluate, Trace(o, startDecayAt, hasValidSet, evaluate, d, supply - 1));
      TraceStep(o, startDecayAt, hasValidSet, evaluate, c, supply);
      TraceResumesValidations(o, startDecayAt, hasValidSet, evaluate, d, supply - 1);
      if ValidationDue(o, hasValidSet, d.step) {
        var vs := [evaluate(d.step)] + later;
        assert vs[0] == evaluate(d.step) && vs[1..] == later;
      } else {
        assert [] + later == later;
      }
    }
  }

  /** The loop's best perplexity and stall counter are those of the
      validation results it has seen (see TrackFindsFirstMinimum). */
  lemma TraceTracksValidations(o: Options, startDecayAt: int, hasValidSet: bool, evaluate: int -> real, c: Control, supply: nat, prior: seq<real>)
    requires c.progress == Track(prior)
    ensures var t := Trace(o, startDecayAt, hasValidSet, evaluate, c, supply);
      Final(c, t).progress == Track(prior + Validations(o, hasValidSet, evaluate, t))
  {
    var t := Trace(o, startDecayAt, hasValidSet, evaluate, c, supply);
    TraceResumesValidations(o, startDecayAt, hasValidSet, evaluate, c, supply);
    ResumeTracks(prior, Validations(o, hasValidSet, evaluate, t));
  }

  /** Once the decay switch is on, something is stalled and the step is past
      `startDecayAt`. */
  predicate DecayJustified(c: Control, startDecayAt: int) {
    c.decay ==> c.progress.stalled > 0 && c.step > startDecayAt
  }

  lemma {:induction false} DecayStaysJustified(o: Options, startDecayAt: int, hasValidSet: bool, evaluate: int -> real, c: Control, supply: nat)
    requires DecayJustified(c, startDecayAt)
    ensures forall d :: d in Trace(o, startDecayAt, hasValidSet, evaluate, c, supply) ==> DecayJustified(d, startDecayAt)
    decreases supply
  {
    if supply > 0 && !ShouldStop(o, c) && Raises(o, hasValidSet, Advance(o, startDecayAt, hasValidSet, evaluate, c)).None? {
      var d := Advance(o, startDecayAt, hasValidSet, evaluate, c);
      DecayStaysJustified(o, startDecayAt, hasValidSet, evaluate, d, supply - 1);
    }
  }

  /** From the start of training (no validation yet) the decay switch is on
      only while validation is stalled and only past `startDecayAt`, whatever
      the optimizer's flag was before the loop. */
  lemma {:induction false} DecayOnlyWhenStalled(o: Options, startDecayAt: int, hasValidSet: bool, evaluate: int -> real, c: Control, supply: nat)
    requires c.progress == Progress(None, 0)
    ensures forall d :: d in Trace(o, startDecayAt, hasValidSet, evaluate, c, supply) ==> DecayJustified(d, startDecayAt)
  {
    if supply > 0 && !ShouldStop(o, c) && Raises(o, hasValidSet, Advance(o, startDecayAt, hasValidSet, evaluate, c)).None? {
      var d := Advance(o, startDecayAt, hasValidSet, evaluate, c);
      assert d.progress.stalled == 0;
      DecayStaysJustified(o, startDecayAt, hasValidSet, evaluate, d, supply - 1);
    }
  }

  // ---------------------------------------------------------------------------
  // The events of a run, read off its trace
  // ---------------------------------------------------------------------------

  /** The steps at which `updateLearningRate` runs: the switch is on and the
      step is a multiple of `lr_decay_steps`. */
  function DecayEvents(o: Options, t: seq<Control>): seq<int>
  {
    if t == [] then []
    else
      var d := t[|t| - 1];
      DecayEvents(o, t[..|t| - 1]) + (if d.decay && Multiple(d.step, o.lrDecaySteps) then [d.step] else [])
  }

  lemma {:induction false} DecayEventsFromTrace(o: Options, t: seq<Control>, u: int)
    requires u in DecayEvents(o, t)
    ensures Multiple(u, o.lrDecaySteps)
    ensures exists d :: d in t && d.step == u && d.decay
  {
    var n := |t|;
    if u !in DecayEvents(o, t[..n - 1]) {
      assert t[n - 1] in t;
    } else {
      DecayEventsFromTrace(o, t[..n - 1], u);
      var d :| d in t[..n - 1] && d.step == u && d.decay;
      assert d in t;
    }
  }

  /** The learning rate is decayed only at multiples of `lr_decay_steps`,
      only past `lr_decay_start_at`, and only while validation is stalled. */
  lemma {:induction false} DecayOnlyAfterStartWhileStalled(o: Options, startDecayAt: int, hasValidSet: bool, evaluate: int -> real, c: Control, supply: nat, u: int)
    requires c.progress == Progress(None, 0)
    requires u in DecayEvents(o, Trace(o, startDecayAt, hasValidSet, evaluate, c, supply))
    ensures Multiple(u, o.lrDecaySteps) && u > startDecayAt
    ensures exists d :: d in Trace(o, startDecayAt, hasValidSet, evaluate, c, supply) && d.step == u && d.progress.stalled > 0
  {
    var t := Trace(o, startDecayAt, hasValidSet, evaluate, c, supply);
    DecayOnlyWhenStalled(o, startDecayAt, hasValidSet, evaluate, c, supply);
    DecayEventsFromTrace(o, t, u);
    var d :| d in t && d.step == u && d.decay;
    assert DecayJustified(d, startDecayAt);
  }

  /** A log line of the report schedule: its step and the totals of the
      batches since the previous report. */
  datatype Report = Report(step: int, totals: Totals)

  function LastReported(start: int, reports: seq<Report>): int {
    if reports == [] then start else reports[|reports| - 1].step
  }

  /** The reports a run starting at `start` logs over the iterations `t`. */
  function Reports(o: Options, batch: int -> Totals, start: int, t: seq<Control>): seq<Report>
  {
    if t == [] then []
    else
      var prev := Reports(o, batch, start, t[..|t| - 1]);
      var u := t[|t| - 1].step;
      if Multiple(u, o.reportSteps) then prev + [Report(u, Accumulate(batch, LastReported(start, prev), u))]
      else prev
  }

  /** The character of a decimal digit. */
  function DigitChar(d: nat): (ch: char)
    requires d < 10
    ensures '0' <= ch <= '9' && ch as int - '0' as int == d
  {
    ('0' as int + d) as char
  }

  /** The decimal digits of `n`, most significant first: never empty, and
      digits only. */
  function Digits(n: nat): (r: string)
    ensures |r| >= 1 && forall k :: 0 <= k < |r| ==> '0' <= r[k] <= '9'
    decreases n
  {
    (if n < 10 then [] else Digits(n / 10)) + [DigitChar(n % 10)]
  }

  /** Different numbers have different digit strings. */
  lemma {:induction false} DigitsInjective(a: nat, b: nat)
    requires Digits(a) == Digits(b)
    ensures a == b
    decreases a
  {
    var da, db := Digits(a), Digits(b);
    assert DigitChar(a % 10) == da[|da| - 1] == db[|db| - 1] == DigitChar(b % 10);
    if a >= 10 && b >= 10 {
      assert Digits(a / 10) == da[..|da| - 1] == db[..|db| - 1] == Digits(b / 10);
      DigitsInjective(a / 10, b / 10);
    }
  }

  /** The `%d` rendering of an integer. */
  function DecimalString(i: int): string {
    if i < 0 then "-" + Digits(-i) else Digits(i)
  }

  /** `os.path.join` of a directory and a plain file name. */
  function JoinPath(dir: string, name: string): string {
    if dir == [] || dir[|dir| - 1] == '/' then dir + name else dir + "/" + name
  }

  /** `os.path.join(save_path, 'checkpoint_%d' % step)`. */
  function CheckpointFile(savePath: string, step: int): string {
    JoinPath(savePath, "checkpoint_" + DecimalString(step))
  }

  /** The rendering starts with a minus sign exactly for a negative integer. */
  lemma DecimalStringSign(i: int)
    ensures |DecimalString(i)| >= 1 && (DecimalString(i)[0] == '-' <==> i < 0)
  {
    if i >= 0 {
      assert DecimalString(i)[0] == Digits(i)[0];
    }
  }

  /** Different integers render differently with `%d`. */
  lemma DecimalStringInjective(a: int, b: int)
    requires DecimalString(a) == DecimalString(b)
    ensures a == b
  {
    DecimalStringSign(a);
    DecimalStringSign(b);
    if a < 0 && b < 0 {
      assert Digits(-a) == DecimalString(a)[1..] == DecimalString(b)[1..] == Digits(-b);
      DigitsInjective(-a, -b);
    } else if a >= 0 && b >= 0 {
      DigitsInjective(a, b);
    }
  }

  /** Within one save path, checkpoints of different steps get different
      file names, so comparing checkpoints by file name, as `_contains`
      and the eviction loop do, compares their steps. */
  lemma CheckpointFileInjective(savePath: string, a: int, b: int)
    ensures CheckpointFile(savePath, a) == CheckpointFile(savePath, b) <==> a == b
  {
    if CheckpointFile(savePath, a) == CheckpointFile(savePath, b) {
      var na, nb := "checkpoint_" + DecimalString(a), "checkpoint_" + DecimalString(b);
      var k := |JoinPath(savePath, "")|;
      assert JoinPath(savePath, na)[k..] == na;
      assert JoinPath(savePath, nb)[k..] == nb;
      assert DecimalString(a) == na[11..] == nb[11..] == DecimalString(b);
      DecimalStringInjective(a, b);
    }
  }

  function LastSaved(start: int, saved: seq<Checkpoint>): int {
    if saved == [] then start else saved[|saved| - 1].step
  }

  /** The checkpoints a run starting at `start` hands to the history over
      the iterations `t`: at multiples of `checkpoint_steps` when there is a
      save path, with the validation perplexity when there is a validation
      set and otherwise the perplexity of the batches since the last one. */
  function SavedCheckpoints(o: Options, savePath: Option<string>, hasValidSet: bool, evaluate: int -> real,
                            batch: int -> Totals, trainingPerplexity: Totals -> real,
                            start: int, t: seq<Control>): seq<Checkpoint>
  {
    if t == [] then []
    else
      var prev := SavedCheckpoints(o, savePath, hasValidSet, evaluate, batch, trainingPerplexity, start, t[..|t| - 1]);
      var u := t[|t| - 1].step;
      if savePath.Some? && Multiple(u, o.checkpointSteps) then
        var ppl := if hasValidSet then evaluate(u) else trainingPerplexity(Accumulate(batch, LastSaved(start, prev), u));
        prev + [Checkpoint(u, CheckpointFile(savePath.value, u), ppl)]
      else prev
  }

  /** Checkpoints named after their own steps in `dir`, in increasing step
      order, none past step `bound`. */
  predicate NamedInStepOrder(s: seq<Checkpoint>, dir: string, bound: int) {
    && (forall k :: 0 <= k < |s| ==> s[k].file == CheckpointFile(dir, s[k].step) && s[k].step <= bound)
    && (forall k, l :: 0 <= k < l < |s| ==> s[k].step < s[l].step)
  }

  /** A checkpoint past the bound, named after its step, extends the order. */
  lemma NamedInStepOrderExtends(s: seq<Checkpoint>, dir: string, bound: int, r: Checkpoint)
    requires NamedInStepOrder(s, dir, bound) && bound < r.step && r.file == CheckpointFile(dir, r.step)
    ensures NamedInStepOrder(s + [r], dir, r.step)
  {
  }

  /** A later bound still holds. */
  lemma NamedInStepOrderLater(s: seq<Checkpoint>, dir: string, bound: int, later: int)
    requires NamedInStepOrder(s, dir, bound) && bound <= later
    ensures NamedInStepOrder(s, dir, later)
  {
  }

  /** Over iterations with increasing steps, the checkpoints handed to the
      history are named after their own steps, which increase and never pass
      the last iteration's. */
  lemma {:induction false} SavedStepsIncrease(o: Options, savePath: Option<string>, hasValidSet: bool, evaluate: int -> real,
                                              batch: int -> Totals, trainingPerplexity: Totals -> real,
                                              start: int, t: seq<Control>)
    requires forall i, j :: 0 <= i < j < |t| ==> t[i].step < t[j].step
    ensures var s := SavedCheckpoints(o, savePath, hasValidSet, evaluate, batch, trainingPerplexity, start, t);
      s == [] || (savePath.Some? && t != [] && NamedInStepOrder(s, savePath.value, t[|t| - 1].step))
    decreases |t|
  {
    if t != [] {
      var n := |t| - 1;
      var t' := t[..n];
      forall i, j | 0 <= i < j < |t'|
        ensures t'[i].step < t'[j].step
      {
        assert t'[i] == t[i] && t'[j] == t[j];
      }
      SavedStepsIncrease(o, savePath, hasValidSet, evaluate, batch, trainingPerplexity, start, t');
      var prev := SavedCheckpoints(o, savePath, hasValidSet, evaluate, batch, trainingPerplexity, start, t');
      var u := t[n].step;
      var bound := if t' == [] then u - 1 else t'[n - 1].step;
      if t' != [] {
        assert t'[n - 1] == t[n - 1];
      }
      assert bound < u;
      if savePath.Some? && Multiple(u, o.checkpointSteps) {
        var ppl := if hasValidSet then evaluate(u) else trainingPerplexity(Accumulate(batch, LastSaved(start, prev), u));
        var r := Checkpoint(u, CheckpointFile(savePath.value, u), ppl);
        assert SavedCheckpoints(o, savePath, hasValidSet, evaluate, batch, trainingPerplexity, start, t) == prev + [r];
        NamedInStepOrderExtends(prev, savePath.value, bound, r);
      } else {
        assert SavedCheckpoints(o, savePath, hasValidSet, evaluate, batch, trainingPerplexity, start, t) == prev;
        if prev != [] {
          NamedInStepOrderLater(prev, savePath.value, bound, u);
        }
      }
    }
  }

  /** The checkpoints one run hands to the history come in increasing step
      order and have distinct file names. */
  lemma TraceSavesDistinctFiles(o: Options, startDecayAt: int, hasValidSet: bool, evaluate: int -> real,
                                savePath: Option<string>, batch: int -> Totals, trainingPerplexity: Totals -> real,
                                start: int, c: Control, supply: nat)
    ensures var s := SavedCheckpoints(o, savePath, hasValidSet, evaluate, batch, trainingPerplexity, start,
                                      Trace(o, startDecayAt, hasValidSet, evaluate, c, supply));
      DistinctFiles(s) && forall k, l :: 0 <= k < l < |s| ==> s[k].step < s[l].step
  {
    var t := Trace(o, startDecayAt, hasValidSet, evaluate, c, supply);
    TraceFollowsStopRule(o, startDecayAt, hasValidSet, evaluate, c, supply);
    SavedStepsIncrease(o, savePath, hasValidSet, evaluate, batch, trainingPerplexity, start, t);
    var s := SavedCheckpoints(o, savePath, hasValidSet, evaluate, batch, trainingPerplexity, start, t);
    if s != [] {
      forall k, l | 0 <= k < l < |s|
        ensures s[k].file != s[l].file
      {
        CheckpointFileInjective(savePath.value, s[k].step, s[l].step);
      }
    }
  }

  // ---------------------------------------------------------------------------
  // The optimizer flag and the training loop
  // ---------------------------------------------------------------------------

  /** One more iteration `d` extends the report log by its report, if any. */
  lemma ReportLogOneMore(o: Options, batch: int -> Totals, start: int, t: seq<Control>, d: Control)
    ensures var prev := Reports(o, batch, start, t);
      Reports(o, batch, start, t + [d])
      == if Multiple(d.step, o.reportSteps) then prev + [Report(d.step, Accumulate(batch, LastReported(start, prev), d.step))] else prev
  {
    assert (t + [d])[..|t|] == t;
  }

  /** One more iteration `d` extends the checkpoint log by its checkpoint, if any. */
  lemma SavedLogOneMore(o: Options, savePath: Option<string>, hasValidSet: bool, evaluate: int -> real,
                        batch: int -> Totals, trainingPerplexity: Totals -> real,
                        start: int, t: seq<Control>, d: Control)
    ensures var prev := SavedCheckpoints(o, savePath, hasValidSet, evaluate, batch, trainingPerplexity, start, t);
      SavedCheckpoints(o, savePath, hasValidSet, evaluate, batch, trainingPerplexity, start, t + [d])
      == if savePath.Some? && Multiple(d.step, o.checkpointSteps) then
           var ppl := if hasValidSet then evaluate(d.step) else trainingPerplexity(Accumulate(batch, LastSaved(start, prev), d.step));
           prev + [Checkpoint(d.step, CheckpointFile(savePath.value, d.step), ppl)]
         else prev
  {
    assert (t + [d])[..|t|] == t;
  }

  /** The iterations run so far followed by the rest of the trace from the
      current control stay the whole trace after one more iteration. */
  lemma TraceOneMore(o: Options, startDecayAt: int, hasValidSet: bool, evaluate: int -> real,
                     c0: Control, total: nat, t: seq<Control>, c: Control, n: nat)
    requires n < total && !ShouldStop(o, c) && Raises(o, hasValidSet, Advance(o, startDecayAt, hasValidSet, evaluate, c)).None?
    requires t + Trace(o, startDecayAt, hasValidSet, evaluate, c, total - n) == Trace(o, startDecayAt, hasValidSet, evaluate, c0, total)
    ensures var d := Advance(o, startDecayAt, hasValidSet, evaluate, c);
      (t + [d]) + Trace(o, startDecayAt, hasValidSet, evaluate, d, total - (n + 1)) == Trace(o, startDecayAt, hasValidSet, evaluate, c0, total)
  {
    var d := Advance(o, startDecayAt, hasValidSet, evaluate, c);
    var rest := Trace(o, startDecayAt, hasValidSet, evaluate, d, total - (n + 1));
    assert Trace(o, startDecayAt, hasValidSet, evaluate, c, total - n) == [d] + rest;
    assert (t + [d]) + rest == t + ([d] + rest);
  }

  /** The report and checkpoint logs of the iterations `ticks` of a run that
      started at step `start`. */
  ghost predicate Logged(o: Options, savePath: Option<string>, hasValidSet: bool, evaluate: int -> real,
                         batch: int -> Totals, trainingPerplexity: Totals -> real,
                         start: int, ticks: seq<Control>, reports: seq<Report>, saved: seq<Checkpoint>)
  {
    && reports == Reports(o, batch, start, ticks)
    && saved == SavedCheckpoints(o, savePath, hasValidSet, evaluate, batch, trainingPerplexity, start, ticks)
  }

  /** The checkpoint running total holds the batches since the last
      checkpoint of `saved`, up to `step`. It is quantified over the one log
      equal to `saved`, so the recursive definitions behind it are unfolded
      only where a proof names that log, not in every context that carries
      the predicate along. */
  ghost predicate SinceSaved(batch: int -> Totals, start: int, step: int, saved: seq<Checkpoint>, checkpointStats: Stats)
    reads checkpointStats
  {
    forall cs :: cs == saved ==>
      LastSaved(start, cs) <= step && checkpointStats.Current() == Accumulate(batch, LastSaved(start, cs), step)
  }

  /** The report running total holds the batches since the last report of
      `reports`, up to `step`, folded in the same way. */
  ghost predicate SinceReported(batch: int -> Totals, start: int, step: int, reports: seq<Report>, reportStats: Stats)
    reads reportStats
  {
    forall rs :: rs == reports ==>
      LastReported(start, rs) <= step && reportStats.Current() == Accumulate(batch, LastReported(start, rs), step)
  }

  /** The two running totals hold the batches since the last checkpoint and
      since the last report, up to `step`. */
  ghost predicate Windows(batch: int -> Totals, start: int, step: int, reports: seq<Report>, saved: seq<Checkpoint>,
                          checkpointStats: Stats, reportStats: Stats)
    reads checkpointStats, reportStats
  {
    SinceSaved(batch, start, step, saved, checkpointStats) && SinceReported(batch, start, step, reports, reportStats)
  }

  /** A log holding the decay events of `t` after `decayed0` holds those of
      `t + [d]` once the event of `d`, if any, is appended. */
  lemma DecayLogOneMore(o: Options, decayed0: seq<int>, t: seq<Control>, d: Control)
    ensures decayed0 + DecayEvents(o, t) + (if d.decay && Multiple(d.step, o.lrDecaySteps) then [d.step] else [])
            == decayed0 + DecayEvents(o, t + [d])
  {
    assert (t + [d])[..|t|] == t;
  }

  /** The position of each test in an iteration. */
  function Order(p: ZeroPeriod): nat {
    match p
    case ReportPeriod => 0
    case ValidationPeriod => 1
    case DecayPeriod => 2
    case CheckpointPeriod => 3
  }

  /** The iteration `d`, when it got past the test of `p` (it raised at a
      later test, or not at all), and nothing otherwise. */
  function Through(raised: Option<ZeroPeriod>, d: Control, p: ZeroPeriod): seq<Control> {
    if raised.None? || Order(p) < Order(raised.value) then [d] else []
  }

  /** Without a validation set the validation period is never tested: the
      run and the way it ends are the same for every `validation_steps`. */
  lemma {:induction false} ValidationPeriodUnusedWithoutValidSet(o: Options, period: int, startDecayAt: int, evaluate: int -> real, c: Control, supply: nat)
    ensures Trace(o, startDecayAt, false, evaluate, c, supply)
            == Trace(o.(validationSteps := period), startDecayAt, false, evaluate, c, supply)
    ensures Raised(o, startDecayAt, false, evaluate, c, supply)
            == Raised(o.(validationSteps := period), startDecayAt, false, evaluate, c, supply)
    decreases supply
  {
    var o' := o.(validationSteps := period);
    assert Advance(o, startDecayAt, false, evaluate, c) == Advance(o', startDecayAt, false, evaluate, c);
    if supply > 0 && !ShouldStop(o, c) && Raises(o, false, Advance(o, startDecayAt, false, evaluate, c)).None? {
      ValidationPeriodUnusedWithoutValidSet(o, period, startDecayAt, evaluate, Advance(o, startDecayAt, false, evaluate, c), supply - 1);
    }
    var t := Trace(o, startDecayAt, false, evaluate, c, supply);
    assert Advance(o, startDecayAt, false, evaluate, Final(c, t)) == Advance(o', startDecayAt, false, evaluate, Final(c, t));
  }
  /** A zero report or checkpoint period, or a zero validation period with a
      validation set, makes the very first iteration raise: none completes,
      and the run raises unless it stops before training at all. */
  lemma ZeroPeriodRaisesAtOnce(o: Options, startDecayAt: int, hasValidSet: bool, evaluate: int -> real, c: Control, supply: nat)
    requires o.reportSteps == 0 || o.checkpointSteps == 0 || (hasValidSet && o.validationSteps == 0)
    ensures Trace(o, startDecayAt, hasValidSet, evaluate, c, supply) == []
    ensures Raised(o, startDecayAt, hasValidSet, evaluate, c, supply).Some? <==> supply > 0 && !ShouldStop(o, c)
  {
  }

  /** With a zero `lr_decay_steps` the run goes on only while the decay
      switch stays off: every completed iteration has it off, and the run
      raises at the decay test exactly when the next iteration turns it on
      (with the other periods non-zero). */
  lemma {:induction false} ZeroDecayPeriodKeepsSwitchOff(o: Options, startDecayAt: int, hasValidSet: bool, evaluate: int -> real, c: Control, supply: nat)
    requires o.lrDecaySteps == 0
    ensures forall d :: d in Trace(o, startDecayAt, hasValidSet, evaluate, c, supply) ==> !d.decay
    ensures o.reportSteps != 0 && o.checkpointSteps != 0 && (hasValidSet ==> o.validationSteps != 0) ==>
      var t := Trace(o, startDecayAt, hasValidSet, evaluate, c, supply);
      (Raised(o, startDecayAt, hasValidSet, evaluate, c, supply) == Some(DecayPeriod)
       <==> |t| < supply && !ShouldStop(o, Final(c, t)) && Advance(o, startDecayAt, hasValidSet, evaluate, Final(c, t)).decay)
    decreases supply
  {
    if supply > 0 && !ShouldStop(o, c) && Raises(o, hasValidSet, Advance(o, startDecayAt, hasValidSet, evaluate, c)).None? {
      ZeroDecayPeriodKeepsSwitchOff(o, startDecayAt, hasValidSet, evaluate, Advance(o, startDecayAt, hasValidSet, evaluate, c), supply - 1);
    }
  }


  class Optimizer {
    const lrStartDecayAt: int
    var lrStartDecay: bool
    /** The steps at which the learning rate was decayed, in order. */
    ghost var decayedAt: seq<int>

    constructor (lrStartDecayAt: int)
      ensures this.lrStartDecayAt == lrStartDecayAt && !lrStartDecay && decayedAt == []
    {
      this.lrStartDecayAt := lrStartDecayAt;
      lrStartDecay := false;
      decayedAt := [];
    }

    /** Multiplies the learning rate by the decay factor; only the event is kept. */
    method UpdateLearningRate(ghost step: int)
      modifies this`decayedAt
      ensures decayedAt == old(decayedAt) + [step]
    {
      decayedAt := decayedAt + [step];
    }
  }

  class Trainer {
    const opts: Options
    const state: State
    const optimizer: Optimizer

    /** Missing options, state or optimizer are created with their defaults. */
    constructor (options: Option<Options>, state: State?, optimizer: Optimizer?)
      ensures opts == if options.Some? then options.value else DefaultOptions
      ensures state != null ==> this.state == state
      ensures state == null ==>
        fresh(this.state) && this.state.size == opts.nAvgCheckpoints
        && this.state.checkpoint == None && this.state.history == [] && this.state.deleted == []
      ensures optimizer != null ==> this.optimizer == optimizer
      ensures optimizer == null ==>
        fresh(this.optimizer) && this.optimizer.lrStartDecayAt == opts.lrDecayStartAt
        && !this.optimizer.lrStartDecay && this.optimizer.decayedAt == []
    {
      var o := if options.Some? then options.value else DefaultOptions;
      opts := o;
      var s := state;
      if s == null {
        s := new State(o.nAvgCheckpoints);
      }
      var opt := optimizer;
      if opt == null {
        opt := new Optimizer(o.lrDecayStartAt);
      }
      this.state := s;
      this.optimizer := opt;
    }

    /** The learning-rate block of an iteration: the decay switch goes off
        when nothing is stalled and on once something is stalled past
        `lr_start_decay_at`; while on, the rate decays every
        `lr_decay_steps` steps, and the test raises on a zero period. */
    method UpdateDecay(step: int, stalled: nat) returns (raised: bool)
      modifies optimizer
      ensures optimizer.lrStartDecay == NextDecay(old(optimizer.lrStartDecay), stalled, step, optimizer.lrStartDecayAt)
      ensures raised <==> optimizer.lrStartDecay && opts.lrDecaySteps == 0
      ensures optimizer.decayedAt
              == old(optimizer.decayedAt) + (if optimizer.lrStartDecay && Multiple(step, opts.lrDecaySteps) then [step] else [])
    {
      raised := false;
      if stalled > 0 {
        if step > optimizer.lrStartDecayAt {
          optimizer.lrStartDecay := true;
        }
      } else {
        optimizer.lrStartDecay := false;
      }
      if optimizer.lrStartDecay {
        if opts.lrDecaySteps == 0 {
          raised := true;
          return;
        }
        if step % opts.lrDecaySteps == 0 {
          optimizer.UpdateLearningRate(step);
        }
      }
    }

    /** The state is what replaying the checkpoints `saved` gives from the
        current checkpoint, history and deleted files of the start. As with
        `Windows`, the quantifier over the one sequence equal to `saved`
        keeps the replay folded until a proof names it. */
    ghost predicate Replayed(saved: seq<Checkpoint>, current0: Option<Checkpoint>, history0: seq<Checkpoint>, deleted0: seq<string>)
      reads state
    {
      forall cs :: cs == saved ==>
        && state.history == ReplayHistory(history0, cs, state.size)
        && state.checkpoint == CurrentAfter(current0, cs)
        && state.deleted == deleted0 + ReplayDeleted(current0, history0, cs, state.size)
    }

    /** `add_checkpoint` as the loop sees it: the history, the current
        checkpoint and the deleted files are those of replaying every
        checkpoint saved so far, and one more is replayed. */
    method SaveCheckpoint(step: int, file: string, perplexity: real, ghost saved: seq<Checkpoint>,
                          ghost current0: Option<Checkpoint>, ghost history0: seq<Checkpoint>, ghost deleted0: seq<string>)
      requires Replayed(saved, current0, history0, deleted0)
      modifies state
      ensures Replayed(saved + [Checkpoint(step, file, perplexity)], current0, history0, deleted0)
    {
      var c := Checkpoint(step, file, perplexity);
      ReplayOneMore(current0, history0, saved, c, state.size);
      ghost var before := ReplayDeleted(current0, history0, saved, state.size);
      ghost var now := Deletions(CurrentAfter(current0, saved), ReplayHistory(history0, saved, state.size), c, state.size);
      state.AddCheckpoint(step, file, perplexity);
      AppendAssociates(deleted0, before, now);
    }

    /** The checkpoint block of the iteration that ends at control `d`:
        when the step is a multiple of `checkpoint_steps` and there is a save
        path, the checkpoint is added to the state with the validation
        perplexity (measured now if this step did not validate) or, without
        a validation set, with the training perplexity of the window, and the
        window restarts. The test raises on a zero period, before anything
        is saved. */
    method CheckpointPhase(step: int, validPerplexity: Option<real>, checkpointStats: Stats,
                           hasValidSet: bool, savePath: Option<string>, evaluate: int -> real,
                           batch: int -> Totals, trainingPerplexity: Totals -> real,
                           ghost start: int, ghost ticks: seq<Control>, ghost d: Control, ghost saved: seq<Checkpoint>,
                           ghost current0: Option<Checkpoint>, ghost history0: seq<Checkpoint>, ghost deleted0: seq<string>)
      returns (checkpointStats': Stats, ghost saved': seq<Checkpoint>, raised: bool)
      requires d.step == step
      requires validPerplexity == if ValidationDue(opts, hasValidSet, step) then Some(evaluate(step)) else None
      requires saved == SavedCheckpoints(opts, savePath, hasValidSet, evaluate, batch, trainingPerplexity, start, ticks)
      requires SinceSaved(batch, start, step, saved, checkpointStats)
      requires Replayed(saved, current0, history0, deleted0)
      modifies state
      ensures raised <==> opts.checkpointSteps == 0
      ensures raised ==> saved' == saved
      ensures saved' == SavedCheckpoints(opts, savePath, hasValidSet, evaluate, batch, trainingPerplexity, start, ticks + [d])
      ensures checkpointStats' == checkpointStats || fresh(checkpointStats')
      ensures SinceSaved(batch, start, step, saved', checkpointStats')
      ensures Replayed(saved', current0, history0, deleted0)
    {
      assert LastSaved(start, saved) <= step && checkpointStats.Current() == Accumulate(batch, LastSaved(start, saved), step);
      SavedLogOneMore(opts, savePath, hasValidSet, evaluate, batch, trainingPerplexity, start, ticks, d);
      checkpointStats', saved', raised := checkpointStats, saved, false;
      if opts.checkpointSteps == 0 {
        raised := true;
        return;
      }
      if step % opts.checkpointSteps == 0 && savePath.Some? {
        var ppl: real;
        if validPerplexity.Some? {
          ppl := validPerplexity.value;
        } else if hasValidSet {
          ppl := evaluate(step);
        } else {
          ppl := trainingPerplexity(checkpointStats.Current());
        }
        var file := CheckpointFile(savePath.value, step);
        SaveCheckpoint(step, file, ppl, saved, current0, history0, deleted0);
        saved' := saved + [Checkpoint(step, file, ppl)];
        checkpointStats' := new Stats();
      }
    }

    /** The first two blocks of an iteration: train on the batch of `step`,
        adding it to both running totals, and log a report of the report
        window when the new step is a multiple of `report_steps`, which
        restarts that window. The report test raises on a zero period. */
    method TrainAndReport(step: int, checkpointStats: Stats, reportStats: Stats, batch: int -> Totals,
                          ghost start: int, ghost reports: seq<Report>, ghost saved: seq<Checkpoint>)
      returns (step': int, reportStats': Stats, ghost reports': seq<Report>, raised: bool)
      requires checkpointStats != reportStats
      requires Windows(batch, start, step, reports, saved, checkpointStats, reportStats)
      modifies checkpointStats, reportStats
      ensures step' == step + 1 && (raised <==> opts.reportSteps == 0)
      ensures reports' == if Multiple(step', opts.reportSteps)
                          then reports + [Report(step', Accumulate(batch, LastReported(start, reports), step'))]
                          else reports
      ensures (reportStats' == reportStats || fresh(reportStats')) && checkpointStats != reportStats'
      ensures Windows(batch, start, step', reports', saved, checkpointStats, reportStats')
    {
      var b := batch(step);
      ghost var fromSaved, fromReported := LastSaved(start, saved), LastReported(start, reports);
      assert checkpointStats.Current() == Accumulate(batch, fromSaved, step);
      assert reportStats.Current() == Accumulate(batch, fromReported, step);
      checkpointStats.Update(b.loss, b.srcWords, b.tgtWords, b.numCorrect);
      reportStats.Update(b.loss, b.srcWords, b.tgtWords, b.numCorrect);
      assert checkpointStats.Current() == Accumulate(batch, fromSaved, step + 1);
      assert reportStats.Current() == Accumulate(batch, fromReported, step + 1);
      step', reportStats', reports', raised := step + 1, reportStats, reports, false;
      if opts.reportSteps == 0 {
        raised := true;
        return;
      }
      if step' % opts.reportSteps == 0 {
        reports' := reports + [Report(step', reportStats.Current())];
        reportStats' := new Stats();
      }
    }

    /** The validation block at `step`: with a validation set and a due
        step, the perplexity of the validation set is measured and updates
        the progress; with a validation set and a zero period it raises. */
    method ValidationBlock(step: int, progress: Progress, hasValidSet: bool, evaluate: int -> real)
      returns (progress': Progress, validPerplexity: Option<real>, raised: bool)
      ensures raised <==> hasValidSet && opts.validationSteps == 0
      ensures validPerplexity == if ValidationDue(opts, hasValidSet, step) then Some(evaluate(step)) else None
      ensures progress' == if ValidationDue(opts, hasValidSet, step) then Validate(progress, evaluate(step)) else progress
    {
      progress', validPerplexity, raised := progress, None, false;
      if hasValidSet {
        if opts.validationSteps == 0 {
          raised := true;
          return;
        }
        if step % opts.validationSteps == 0 {
          var v := evaluate(step);
          validPerplexity := Some(v);
          progress' := Validate(progress, v);
        }
      }
    }

    /** The validation and learning-rate blocks of the iteration that
        starts from control `cur` and has just trained up to `step`: the
        validation perplexity is measured when due and updates the progress,
        then the decay switch is updated; together they give the control of
        `Advance`, and the decay events grow by those of that iteration.
        With a validation set a zero validation period raises before the
        switch is touched; a zero decay period raises once the switch is on. */
    method ValidateAndDecay(step: int, progress: Progress, hasValidSet: bool, evaluate: int -> real,
                            ghost ticks: seq<Control>, ghost cur: Control, ghost decayed0: seq<int>)
      returns (progress': Progress, validPerplexity: Option<real>, raised: Option<ZeroPeriod>)
      requires step == cur.step + 1 && progress == cur.progress
      requires cur.decay == optimizer.lrStartDecay && optimizer.decayedAt == decayed0 + DecayEvents(opts, ticks)
      modifies optimizer
      ensures validPerplexity == if ValidationDue(opts, hasValidSet, step) then Some(evaluate(step)) else None
      ensures var d := Advance(opts, optimizer.lrStartDecayAt, hasValidSet, evaluate, cur);
        && raised == (if hasValidSet && opts.validationSteps == 0 then Some(ValidationPeriod)
                      else if d.decay && opts.lrDecaySteps == 0 then Some(DecayPeriod) else None)
        && (raised.None? ==>
              d == Control(step, progress', optimizer.lrStartDecay) && optimizer.decayedAt == decayed0 + DecayEvents(opts, ticks + [d]))
        && (raised.Some? ==>
              && Through(raised, d, ReportPeriod) == [d]
              && optimizer.lrStartDecay == Final(cur, Through(raised, d, ValidationPeriod)).decay
              && optimizer.decayedAt == decayed0 + DecayEvents(opts, ticks + Through(raised, d, ValidationPeriod)))
    {
      var validationRaised;
      progress', validPerplexity, validationRaised := ValidationBlock(step, progress, hasValidSet, evaluate);
      if validationRaised {
        raised := Some(ValidationPeriod);
        assert ticks + [] == ticks;
        return;
      }
      var decayRaised := UpdateDecay(step, progress'.stalled);
      raised := if decayRaised then Some(DecayPeriod) else None;
      DecayLogOneMore(opts, decayed0, ticks, Control(step, progress', optimizer.lrStartDecay));
    }

    /** The blocks of one pass of the loop body before the checkpoint block,
        from the control `cur` and its successor `d`: train on the batch of
        `step`, then report, validate and switch the learning-rate decay
        where each is due, or raise at the first of these tests with a zero
        period. The report log, the switch and the decay events grow by `d`
        as far as the pass got. */
    method TrainValidateAndDecay(step: int, progress: Progress, checkpointStats: Stats, reportStats: Stats,
                                 hasValidSet: bool, evaluate: int -> real, batch: int -> Totals,
                                 ghost start: int, ghost ticks: seq<Control>, ghost reports: seq<Report>,
                                 ghost saved: seq<Checkpoint>, ghost decayed0: seq<int>)
      returns (step': int, progress': Progress, reportStats': Stats, ghost reports': seq<Report>,
               validPerplexity: Option<real>, raised: Option<ZeroPeriod>)
      requires checkpointStats != reportStats
      requires optimizer.decayedAt == decayed0 + DecayEvents(opts, ticks)
      requires reports == Reports(opts, batch, start, ticks)
      requires Windows(batch, start, step, reports, saved, checkpointStats, reportStats)
      modifies optimizer, checkpointStats, reportStats
      ensures var cur := Control(step, progress, old(optimizer.lrStartDecay));
        var d := Advance(opts, optimizer.lrStartDecayAt, hasValidSet, evaluate, cur);
        var r := Raises(opts, hasValidSet, d);
        && step' == d.step
        && raised == (if r == Some(CheckpointPeriod) then None else r)
        && reports' == Reports(opts, batch, start, ticks + Through(raised, d, ReportPeriod))
        && optimizer.lrStartDecay == Final(cur, Through(raised, d, ValidationPeriod)).decay
        && optimizer.decayedAt == decayed0 + DecayEvents(opts, ticks + Through(raised, d, ValidationPeriod))
      ensures var cur := Control(step, progress, old(optimizer.lrStartDecay));
        var d := Advance(opts, optimizer.lrStartDecayAt, hasValidSet, evaluate, cur);
        raised.None? ==>
          && Control(step', progress', optimizer.lrStartDecay) == d
          && reports' == Reports(opts, batch, start, ticks + [d])
          && optimizer.decayedAt == decayed0 + DecayEvents(opts, ticks + [d])
          && validPerplexity == if ValidationDue(opts, hasValidSet, step') then Some(evaluate(step')) else None
      ensures (reportStats' == reportStats || fresh(reportStats')) && checkpointStats != reportStats'
      ensures Windows(batch, start, step', reports', saved, checkpointStats, reportStats')
    {
      ghost var cur := Control(step, progress, optimizer.lrStartDecay);
      ghost var d := Advance(opts, optimizer.lrStartDecayAt, hasValidSet, evaluate, cur);
      progress', validPerplexity := progress, None;
      var reportRaised;
      step', reportStats', reports', reportRaised := TrainAndReport(step, checkpointStats, reportStats, batch, start, reports, saved);
      if reportRaised {
        raised := Some(ReportPeriod);
        assert ticks + Through(raised, d, ReportPeriod) == ticks + Through(raised, d, ValidationPeriod) == ticks;
        return;
      }
      ReportLogOneMore(opts, batch, start, ticks, d);
      progress', validPerplexity, raised := ValidateAndDecay(step', progress, hasValidSet, evaluate, ticks, cur, decayed0);
    }

    /** One pass of the loop body after the stop test, from the control
        `cur` and its successor `d`: the blocks of `TrainValidateAndDecay`,
        then the checkpoint block, or a raise at the first test with a zero
        period. Each log grows by `d` as far as the pass got. The ghost
        parameters describe the run so far: the iterations `ticks` from the
        step `start` and the history, current checkpoint, deleted files and
        decay events the trainer had when the run began. */
    method Iteration(step: int, progress: Progress, checkpointStats: Stats, reportStats: Stats,
                     hasValidSet: bool, savePath: Option<string>, evaluate: int -> real,
                     batch: int -> Totals, trainingPerplexity: Totals -> real,
                     ghost start: int, ghost ticks: seq<Control>, ghost reports: seq<Report>, ghost saved: seq<Checkpoint>,
                     ghost current0: Option<Checkpoint>, ghost history0: seq<Checkpoint>,
                     ghost deleted0: seq<string>, ghost decayed0: seq<int>)
      returns (step': int, progress': Progress, checkpointStats': Stats, reportStats': Stats,
               ghost reports': seq<Report>, ghost saved': seq<Checkpoint>, raised: Option<ZeroPeriod>)
      requires checkpointStats != reportStats
      requires optimizer.decayedAt == decayed0 + DecayEvents(opts, ticks)
      requires Logged(opts, savePath, hasValidSet, evaluate, batch, trainingPerplexity, start, ticks, reports, saved)
      requires Windows(batch, start, step, reports, saved, checkpointStats, reportStats)
      requires Replayed(saved, current0, history0, deleted0)
      modifies state, optimizer, checkpointStats, reportStats
      ensures var cur := Control(step, progress, old(optimizer.lrStartDecay));
        raised == Raises(opts, hasValidSet, Advance(opts, optimizer.lrStartDecayAt, hasValidSet, evaluate, cur))
      ensures var cur := Control(step, progress, old(optimizer.lrStartDecay));
        var d := Advance(opts, optimizer.lrStartDecayAt, hasValidSet, evaluate, cur);
        raised.None? ==>
          && Control(step', progress', optimizer.lrStartDecay) == d
          && reports' == Reports(opts, batch, start, ticks + [d])
          && optimizer.decayedAt == decayed0 + DecayEvents(opts, ticks + [d])
          && saved' == SavedCheckpoints(opts, savePath, hasValidSet, evaluate, batch, trainingPerplexity, start, ticks + [d])
      ensures var cur := Control(step, progress, old(optimizer.lrStartDecay));
        var d := Advance(opts, optimizer.lrStartDecayAt, hasValidSet, evaluate, cur);
        raised.Some? ==>
          && reports' == Reports(opts, batch, start, ticks + Through(raised, d, ReportPeriod))
          && optimizer.lrStartDecay == Final(cur, Through(raised, d, ValidationPeriod)).decay
          && optimizer.decayedAt == decayed0 + DecayEvents(opts, ticks + Through(raised, d, ValidationPeriod))
          && saved' == saved
      ensures (checkpointStats' == checkpointStats || fresh(checkpointStats'))
        && (reportStats' == reportStats || fresh(reportStats')) && checkpointStats' != reportStats'
      ensures raised.None? ==> Windows(batch, start, step', reports', saved', checkpointStats', reportStats')
      ensures Replayed(saved', current0, history0, deleted0)
    {
      checkpointStats', saved' := checkpointStats, saved;
      var validPerplexity;
      step', progress', reportStats', reports', validPerplexity, raised :=
        TrainValidateAndDecay(step, progress, checkpointStats, reportStats, hasValidSet, evaluate, batch, start, ticks, reports, saved, decayed0);
      if raised.Some? {
        return;
      }
      ghost var d := Control(step', progress', optimizer.lrStartDecay);
      ghost var reportTotals := reportStats'.Current();
      var checkpointRaised;
      checkpointStats', saved', checkpointRaised := CheckpointPhase(step', validPerplexity, checkpointStats, hasValidSet, savePath, evaluate, batch,
                                                                    trainingPerplexity, start, ticks, d, saved, current0, history0, deleted0);
      if checkpointRaised {
        raised := Some(CheckpointPeriod);
        assert Through(raised, d, ReportPeriod) == [d] && Through(raised, d, ValidationPeriod) == [d];
        return;
      }
      assert reportStats'.Current() == reportTotals;
    }

    /** The invariant of the training loop after `n` iterations `ticks` of
        a run from `c0` with at most `supply` batches: the iterations so far
        followed by the rest of the trace from the current control are the
        whole trace, the current control is the last one, and the decay
        events, the logs, the running totals and the checkpoint state are
        those of `ticks`. */
    ghost predicate Running(supply: nat, hasValidSet: bool, savePath: Option<string>, evaluate: int -> real,
                            batch: int -> Totals, trainingPerplexity: Totals -> real,
                            c0: Control, n: nat, ticks: seq<Control>, step: int, progress: Progress,
                            reports: seq<Report>, saved: seq<Checkpoint>, checkpointStats: Stats, reportStats: Stats,
                            current0: Option<Checkpoint>, history0: seq<Checkpoint>, deleted0: seq<string>, decayed0: seq<int>)
      reads state, optimizer, checkpointStats, reportStats
    {
      var cur := Control(step, progress, optimizer.lrStartDecay);
      && n <= supply && |ticks| == n && step == c0.step + n
      && ticks + Trace(opts, optimizer.lrStartDecayAt, hasValidSet, evaluate, cur, supply - n)
         == Trace(opts, optimizer.lrStartDecayAt, hasValidSet, evaluate, c0, supply)
      && Final(c0, ticks) == cur
      && optimizer.decayedAt == decayed0 + DecayEvents(opts, ticks)
      && Logged(opts, savePath, hasValidSet, evaluate, batch, trainingPerplexity, c0.step, ticks, reports, saved)
      && checkpointStats != reportStats
      && Windows(batch, c0.step, step, reports, saved, checkpointStats, reportStats)
      && Replayed(saved, current0, history0, deleted0)
    }

    /** One pass of the training loop once the stop test has let it through:
        either the iteration completes and the loop invariant holds for one
        more iteration, or it raises and the run is over, with its whole
        trace run and the logs and the switch as the raising iteration left
        them. */
    method LoopPass(supply: nat, hasValidSet: bool, savePath: Option<string>, evaluate: int -> real,
                    batch: int -> Totals, trainingPerplexity: Totals -> real,
                    step: int, progress: Progress, checkpointStats: Stats, reportStats: Stats,
                    ghost c0: Control, ghost n: nat, ghost ticks: seq<Control>, ghost reports: seq<Report>, ghost saved: seq<Checkpoint>,
                    ghost current0: Option<Checkpoint>, ghost history0: seq<Checkpoint>, ghost deleted0: seq<string>, ghost decayed0: seq<int>)
      returns (step': int, progress': Progress, checkpointStats': Stats, reportStats': Stats, raised: Option<ZeroPeriod>,
               ghost ticks': seq<Control>, ghost reports': seq<Report>, ghost saved': seq<Checkpoint>)
      requires n < supply && !ShouldStop(opts, Control(step, progress, optimizer.lrStartDecay))
      requires Running(supply, hasValidSet, savePath, evaluate, batch, trainingPerplexity, c0, n, ticks, step, progress,
                       reports, saved, checkpointStats, reportStats, current0, history0, deleted0, decayed0)
      modifies state, optimizer, checkpointStats, reportStats
      ensures (checkpointStats' == checkpointStats || fresh(checkpointStats')) && (reportStats' == reportStats || fresh(reportStats'))
      ensures raised.None? ==>
        Running(supply, hasValidSet, savePath, evaluate, batch, trainingPerplexity, c0, n + 1, ticks', step', progress',
                reports', saved', checkpointStats', reportStats', current0, history0, deleted0, decayed0)
      ensures var d := Advance(opts, optimizer.lrStartDecayAt, hasValidSet, evaluate, Final(c0, ticks));
        raised.Some? ==>
          && ticks == Trace(opts, optimizer.lrStartDecayAt, hasValidSet, evaluate, c0, supply)
          && raised == Raised(opts, optimizer.lrStartDecayAt, hasValidSet, evaluate, c0, supply)
          && saved' == SavedCheckpoints(opts, savePath, hasValidSet, evaluate, batch, trainingPerplexity, c0.step, ticks)
          && optimizer.lrStartDecay == Final(Final(c0, ticks), Through(raised, d, ValidationPeriod)).decay
          && reports' == Reports(opts, batch, c0.step, ticks + Through(raised, d, ReportPeriod))
          && optimizer.decayedAt == decayed0 + DecayEvents(opts, ticks + Through(raised, d, ValidationPeriod))
          && Replayed(saved', current0, history0, deleted0)
    {
      ghost var cur := Control(step, progress, optimizer.lrStartDecay);
      ghost var d := Advance(opts, optimizer.lrStartDecayAt, hasValidSet, evaluate, cur);
      step', progress', checkpointStats', reportStats', reports', saved', raised :=
        Iteration(step, progress, checkpointStats, reportStats, hasValidSet, savePath, evaluate, batch, trainingPerplexity,
                  c0.step, ticks, reports, saved, current0, history0, deleted0, decayed0);
      ticks' := ticks;
      if raised.Some? {
        // The raising iteration ends the run: the rest of the trace is empty
        RunEnds(opts, optimizer.lrStartDecayAt, hasValidSet, evaluate, c0, supply, ticks, cur, n);
        return;
      }
      TraceOneMore(opts, optimizer.lrStartDecayAt, hasValidSet, evaluate, c0, supply, ticks, cur, n);
      FinalOneMore(c0, ticks, d);
      ticks' := ticks + [d];
    }

    /** The training loop over a data iterator that supplies at most `supply`
        batches, resuming at the step of the last checkpoint. It returns the
        zero period it raised on, if any, with the logs and the state as the
        raising iteration left them. */
    method TrainModel(supply: nat, hasValidSet: bool, savePath: Option<string>, evaluate: int -> real,
                      batch: int -> Totals, trainingPerplexity: Totals -> real)
      returns (raised: Option<ZeroPeriod>, ghost ticks: seq<Control>, ghost reports: seq<Report>, ghost saved: seq<Checkpoint>)
      modifies state, optimizer
      ensures var c0 := Control(old(state.LastStep()), Progress(None, 0), old(optimizer.lrStartDecay));
        && ticks == Trace(opts, optimizer.lrStartDecayAt, hasValidSet, evaluate, c0, supply)
        && raised == Raised(opts, optimizer.lrStartDecayAt, hasValidSet, evaluate, c0, supply)
        && saved == SavedCheckpoints(opts, savePath, hasValidSet, evaluate, batch, trainingPerplexity, c0.step, ticks)
      ensures var c0 := Control(old(state.LastStep()), Progress(None, 0), old(optimizer.lrStartDecay));
        raised.None? ==>
          && optimizer.lrStartDecay == Final(c0, ticks).decay
          && reports == Reports(opts, batch, c0.step, ticks)
          && optimizer.decayedAt == old(optimizer.decayedAt) + DecayEvents(opts, ticks)
      ensures var c0 := Control(old(state.LastStep()), Progress(None, 0), old(optimizer.lrStartDecay));
        var d := Advance(opts, optimizer.lrStartDecayAt, hasValidSet, evaluate, Final(c0, ticks));
        raised.Some? ==>
          && optimizer.lrStartDecay == Final(Final(c0, ticks), Through(raised, d, ValidationPeriod)).decay
          && reports == Reports(opts, batch, c0.step, ticks + Through(raised, d, ReportPeriod))
          && optimizer.decayedAt == old(optimizer.decayedAt) + DecayEvents(opts, ticks + Through(raised, d, ValidationPeriod))
      ensures Replayed(saved, old(state.checkpoint), old(state.history), old(state.deleted))
    {
      var step := state.LastStep();
      var progress := Progress(None, 0);
      ghost var c0 := Control(step, progress, optimizer.lrStartDecay);
      var checkpointStats := new Stats();
      var reportStats := new Stats();
      ticks, reports, saved := [], [], [];
      raised := None;
      var n := 0;
      while n < supply && !ShouldStop(opts, Control(step, progress, optimizer.lrStartDecay))
        invariant fresh(checkpointStats) && fresh(reportStats) && raised.None?
        invariant Running(supply, hasValidSet, savePath, evaluate, batch, trainingPerplexity, c0, n, ticks, step, progress,
                          reports, saved, checkpointStats, reportStats,
                          old(state.checkpoint), old(state.history), old(state.deleted), old(optimizer.decayedAt))
      {
        ghost var ticks';
        step, progress, checkpointStats, reportStats, raised, ticks', reports, saved :=
          LoopPass(supply, hasValidSet, savePath, evaluate, batch, trainingPerplexity, step, progress, checkpointStats, reportStats,
                   c0, n, ticks, reports, saved, old(state.checkpoint), old(state.history), old(state.deleted), old(optimizer.decayedAt));
        if raised.Some? {
          return;
        }
        ticks := ticks';
        n := n + 1;
      }
      // Terminate policy: the rest of the trace is empty
      RunEnds(opts, optimizer.lrStartDecayAt, hasValidSet, evaluate, c0, supply, ticks, Control(step, progress, optimizer.lrStartDecay), n);
    }
  }
}
