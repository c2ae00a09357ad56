/** The DPOTraining component: a hyperparameter configuration and a simulated
    training job. Starting a job resets the figures and arms a repeating timer;
    each timer tick advances the step counter, recomputes progress and epoch,
    logs every tenth step into a buffer of the ten most recent lines, and
    disarms the timer when the last step is reached.

    The timer is explicit state here: `timerAlive` says whether the interval
    is still armed, and `step` and `totalSteps` are the variables its closure
    captured at start. A tick is a call of `Tick`. */
module Training {
  import opened Common

  /** Steps per epoch (`config.epochs * 100`). */
  const StepsPerEpoch: nat := 100
  /** A log line is written on every step that is a multiple of this. */
  const LogInterval: nat := 10
  /** `.slice(-10)`: the log keeps at most this many lines. */
  const LogCapacity: nat := 10

  // ---------------------------------------------------------------------------
  // Configuration
  // ---------------------------------------------------------------------------

  datatype TrainingConfig = TrainingConfig(
    modelName: string,
    datasetPath: string,
    learningRate: real,
    batchSize: int,
    epochs: int,
    betaValue: real,
    warmupSteps: int,
    saveSteps: int)

  /** The configuration the component starts with. */
  const DefaultConfig: TrainingConfig :=
    TrainingConfig(DefaultModelName, DefaultDatasetPath, 0.00005, 4, 3, 0.1, 100, 500)
  const DefaultModelName: string := "microsoft/DialoGPT-medium"
  const DefaultDatasetPath: string := "preference_dataset.json"

  /** `keyof TrainingConfig`. */
  datatype ConfigKey = ModelName | DatasetPath | LearningRate | BatchSize | Epochs | BetaValue | WarmupSteps | SaveSteps

  /** A value handed to `updateConfig`: text, a slider number, or an integer. */
  datatype ConfigValue = Text(text: string) | Number(number: real) | Whole(whole: int)

  /** The value of one field. */
  function Get(c: TrainingConfig, k: ConfigKey): ConfigValue {
    match k
    case ModelName => Text(c.modelName)
    case DatasetPath => Text(c.datasetPath)
    case LearningRate => Number(c.learningRate)
    case BatchSize => Whole(c.batchSize)
    case Epochs => Whole(c.epochs)
    case BetaValue => Number(c.betaValue)
    case WarmupSteps => Whole(c.warmupSteps)
    case SaveSteps => Whole(c.saveSteps)
  }

  /** What the control bound to `k` can hand over: any text for the two text
      inputs; the learning-rate slider's 1..10 scaled by 1/100000; the beta
      slider's 1..50 scaled by 1/100; one of the listed batch sizes and epoch
      counts; an integer for the two number inputs. */
  predicate Fits(k: ConfigKey, v: ConfigValue) {
    match k
    case ModelName => v.Text?
    case DatasetPath => v.Text?
    case LearningRate => v.Number? && 0.00001 <= v.number <= 0.0001
    case BatchSize => v.Whole? && v.whole in {1, 2, 4, 8, 16}
    case Epochs => v.Whole? && v.whole in {1, 2, 3, 5, 10}
    case BetaValue => v.Number? && 0.01 <= v.number <= 0.5
    case WarmupSteps => v.Whole?
    case SaveSteps => v.Whole?
  }

  /** Every field holds a value its control can produce. */
  predicate ConfigValid(c: TrainingConfig) {
    forall k :: Fits(k, Get(c, k))
  }

  /** `{ ...prev, [key]: value }`: the named field takes the new value and
      every other field keeps its old one. */
  function SetField(c: TrainingConfig, k: ConfigKey, v: ConfigValue): (r: TrainingConfig)
    requires Fits(k, v)
    ensures Get(r, k) == v
    ensures forall k' :: k' != k ==> Get(r, k') == Get(c, k')
  {
    match k
    case ModelName => c.(modelName := v.text)
    case DatasetPath => c.(datasetPath := v.text)
    case LearningRate => c.(learningRate := v.number)
    case BatchSize => c.(batchSize := v.whole)
    case Epochs => c.(epochs := v.whole)
    case BetaValue => c.(betaValue := v.number)
    case WarmupSteps => c.(warmupSteps := v.whole)
    case SaveSteps => c.(saveSteps := v.whole)
  }

  /** The default configuration is one the controls could produce, and
      updating a field keeps every field producible; in particular the epoch
      count stays one of 1, 2, 3, 5, 10. */
  lemma ConfigStaysValid(c: TrainingConfig, k: ConfigKey, v: ConfigValue)
    requires ConfigValid(c) && Fits(k, v)
    ensures ConfigValid(DefaultConfig)
    ensures ConfigValid(SetField(c, k, v))
    ensures SetField(c, k, v).epochs >= 1
  {
    var r := SetField(c, k, v);
    forall k' ensures Fits(k', Get(r, k')) {
      if k' != k {
        assert Fits(k', Get(c, k'));
      }
    }
    assert Fits(Epochs, Get(r, Epochs));
    DefaultConfigValid();
  }

  /** Every field of the default configuration is a value its control can
      produce: a 5e-5 learning rate, batch size 4, 3 epochs, beta 0.1. */
  lemma DefaultConfigValid()
    ensures ConfigValid(DefaultConfig)
  {
    forall k ensures Fits(k, Get(DefaultConfig, k)) {
    }
  }

  // ---------------------------------------------------------------------------
  // Log lines
  // ---------------------------------------------------------------------------

  const Digits: string := "0123456789"

  /** The decimal digit for `d`. */
  function Digit(d: nat): (c: char)
    requires d < 10
    ensures '0' <= c <= '9'
  {
    Digits[d]
  }

  /** The value of a decimal digit. */
  function DigitValue(c: char): (d: nat)
    requires '0' <= c <= '9'
    ensures d < 10
  {
    (c as int - '0' as int) as nat
  }

  /** `${n}` for a non-negative integer: its decimal digits, most significant
      first, with no leading zero. */
  function Decimal(n: nat): (s: string)
    ensures s != []
    ensures forall i :: 0 <= i < |s| ==> '0' <= s[i] <= '9'
    ensures |s| > 1 ==> s[0] != '0'
  {
    if n < 10 then [Digit(n)] else Decimal(n / 10) + [Digit(n % 10)]
  }

  /** The number a string of decimal digits denotes. */
  function DecimalValue(s: string): nat
    requires forall i :: 0 <= i < |s| ==> '0' <= s[i] <= '9'
  {
    if s == [] then 0 else DecimalValue(s[..|s| - 1]) * 10 + DigitValue(s[|s| - 1])
  }

  /** The step number written into a log line reads back as that step. */
  lemma {:induction false} DecimalRoundTrip(n: nat)
    ensures DecimalValue(Decimal(n)) == n
  {
    var s := Decimal(n);
    if n >= 10 {
      DecimalRoundTrip(n / 10);
      assert s[..|s| - 1] == Decimal(n / 10);
    }
  }

  // The fixed parts of a log line.
  const StepLabel: string := "Step "
  const LossLabel: string := ": Loss="
  const AccuracyLabel: string := ", Accuracy="

  /** One log entry: the step and the two metric texts. The metrics come from
      `Math.random()` and `toFixed`, so they are parameters here. */
  datatype LogRecord = LogRecord(step: nat, loss: string, accuracy: string) {
    /** `Step ${step}: Loss=${loss}, Accuracy=${accuracy}`. */
    function Line(): string {
      StepLabel + Decimal(step) + LossLabel + loss + AccuracyLabel + accuracy
    }
  }

  /** The lines of a run of records, in order. */
  function Render(h: seq<LogRecord>): (lines: seq<string>)
    ensures |lines| == |h|
    ensures forall i :: 0 <= i < |h| ==> lines[i] == h[i].Line()
  {
    seq(|h|, i requires 0 <= i < |h| => h[i].Line())
  }

  /** `.slice(-10)`: the last `LogCapacity` entries, or all when there are fewer. */
  function LastLogs<T>(s: seq<T>): (r: seq<T>)
    ensures |r| == if |s| <= LogCapacity then |s| else LogCapacity
    ensures forall i :: 0 <= i < |r| ==> r[i] == s[|s| - |r| + i]
  {
    if |s| <= LogCapacity then s else s[|s| - LogCapacity..]
  }

  /** Truncating after every append keeps exactly what truncating the whole
      history once would: the newest entries, in order, oldest evicted first. */
  lemma LastLogsAppend<T>(s: seq<T>, x: T)
    ensures LastLogs(LastLogs(s) + [x]) == LastLogs(s + [x])
  {
    var t := LastLogs(s);
    if |s| >= LogCapacity {
      assert |t| == LogCapacity;
      assert (t + [x])[1..] == (s + [x])[|s| + 1 - LogCapacity..];
    } else {
      assert t == s;
    }
  }

  /** Rendering and truncation commute. */
  lemma RenderLastLogs(h: seq<LogRecord>)
    ensures Render(LastLogs(h)) == LastLogs(Render(h))
  {
  }

  /** The component keeps the log as text: `[...prev, line].slice(-10)`.
      Doing that to the rendered buffer gives the rendering of the record
      buffer updated the same way, so the model may keep the records. */
  lemma RenderedLogUpdate(logs: seq<LogRecord>, x: LogRecord)
    ensures LastLogs(Render(logs) + [x.Line()]) == Render(LastLogs(logs + [x]))
  {
    assert Render(logs) + [x.Line()] == Render(logs + [x]);
    RenderLastLogs(logs + [x]);
  }

  // ---------------------------------------------------------------------------
  // Figures of a tick
  // ---------------------------------------------------------------------------

  /** `Math.floor(step / 100) + 1`. */
  function EpochAt(step: nat): (e: int)
    ensures e >= 1
    ensures 100 * (e - 1) <= step < 100 * e
  {
    step / StepsPerEpoch + 1
  }

  /** Over a run of `epochs` epochs the displayed epoch stays within
      `[1, epochs + 1]`, and reads `epochs + 1` on the last step and only
      there: the formula counts completed epochs plus one. */
  lemma EpochRange(step: nat, epochs: nat)
    requires 1 <= step <= epochs * StepsPerEpoch
    ensures 1 <= EpochAt(step) <= epochs + 1
    ensures EpochAt(step) == epochs + 1 <==> step == epochs * StepsPerEpoch
  {
    if step < epochs * StepsPerEpoch {
      assert step / StepsPerEpoch < epochs;
    }
  }

  /** For the default three epochs: the run ends at step 300 with progress
      100 and epoch 4, while step 299 still shows epoch 3. */
  lemma ThreeEpochRun()
    ensures DefaultConfig.epochs * StepsPerEpoch == 300
    ensures Percent(300, 300) == 100.0 && EpochAt(300) == 4
    ensures Percent(299, 300) < 100.0 && EpochAt(299) == 3
  {
  }

  /** The figures on screen after `step` of `totalSteps` steps: the step
      itself, its epoch and its percentage, all zero before the first tick. */
  predicate Shows(step: nat, totalSteps: nat, currentStep: int, currentEpoch: int, progress: real)
    requires step <= totalSteps
  {
    && currentStep == step
    && currentEpoch == (if step == 0 then 0 else EpochAt(step))
    && progress == (if step == 0 then 0.0 else Percent(step, totalSteps))
  }

  /** `history` holds one record for every tenth step up to `step`, oldest
      first, and `logs` holds its last ten. */
  ghost predicate LogsFollow(step: nat, history: seq<LogRecord>, logs: seq<LogRecord>) {
    && |history| == step / LogInterval
    && (forall j :: 0 <= j < |history| ==> history[j].step == (j + 1) * LogInterval)
    && logs == LastLogs(history)
  }

  /** One tick keeps the log in step with the history: exactly on multiples
      of ten, the step's record joins the history and the ten-entry buffer. */
  lemma {:induction false} LogTick(step: nat, history: seq<LogRecord>, logs: seq<LogRecord>, loss: string, accuracy: string)
    requires LogsFollow(step, history, logs)
    ensures var x := LogRecord(step + 1, loss, accuracy);
      if (step + 1) % LogInterval == 0
      then LogsFollow(step + 1, history + [x], LastLogs(logs + [x]))
      else LogsFollow(step + 1, history, logs)
  {
    var x := LogRecord(step + 1, loss, accuracy);
    if (step + 1) % LogInterval == 0 {
      LastLogsAppend(history, x);
      assert (step + 1) / LogInterval == step / LogInterval + 1;
    } else {
      assert (step + 1) / LogInterval == step / LogInterval;
    }
  }

  /** One tick of a run of `epochs` epochs moves every figure forward: the
      percentage grows, and the last step shows 100 and epoch `epochs + 1`. */
  lemma FiguresTick(step: nat, epochs: nat)
    requires step < epochs * StepsPerEpoch
    ensures var total := epochs * StepsPerEpoch;
      && Shows(step + 1, total, step + 1, EpochAt(step + 1), Percent(step + 1, total))
      && Percent(step + 1, total) > (if step == 0 then 0.0 else Percent(step, total))
      && (step + 1 == total ==> Percent(step + 1, total) == 100.0 && EpochAt(step + 1) == epochs + 1)
  {
    var total := epochs * StepsPerEpoch;
    if step > 0 {
      PercentMonotone(step, step + 1, total);
    }
    EpochRange(step + 1, epochs);
  }

  // ---------------------------------------------------------------------------
  // The component
  // ---------------------------------------------------------------------------

  class DPOTraining {
    var config: TrainingConfig
    var isTraining: bool
    var progress: real
    var currentEpoch: int
    var currentStep: int
    /** The log entries; `LogLines` is the text the component shows. */
    var logs: seq<LogRecord>

    // The interval and its closure.
    var timerAlive: bool
    var step: nat
    var totalSteps: nat

    /** The epoch count `totalSteps` was computed from. */
    ghost var runEpochs: nat
    /** Every record logged since the last start, oldest first. */
    ghost var history: seq<LogRecord>

    ghost predicate Valid()
      reads this
    {
      && ConfigValid(config)
      && totalSteps == runEpochs * StepsPerEpoch
      && step <= totalSteps
      && (timerAlive ==> step < totalSteps)
      && (isTraining ==> timerAlive)
      && Shows(step, totalSteps, currentStep, currentEpoch, progress)
      && LogsFollow(step, history, logs)
    }

    /** The `logs` strings on screen, one line per entry, oldest first. */
    function LogLines(): (lines: seq<string>)
      reads this
      ensures |lines| == |logs|
    {
      Render(logs)
    }

    /** The "Training Complete!" banner: progress exactly 100 and not training. */
    predicate ShowsCompleteBanner()
      reads this
    {
      progress == 100.0 && !isTraining
    }

    /** The "Click Start Training" hint: not training and progress 0. */
    predicate ShowsStartHint()
      reads this
    {
      !isTraining && progress == 0.0
    }

    /** The `useState` initial values; no timer yet. */
    constructor ()
      ensures Valid()
      ensures config == DefaultConfig
      ensures !isTraining && progress == 0.0 && currentEpoch == 0 && currentStep == 0 && logs == []
      ensures !timerAlive
    {
      config := DefaultConfig;
      isTraining, progress, currentEpoch, currentStep, logs := false, 0.0, 0, 0, [];
      timerAlive, step, totalSteps := false, 0, 0;
      runEpochs, history := 0, [];
      DefaultConfigValid();
    }

    /** `startTraining`. An empty model name or dataset path is refused
        ("Configuration Error") and nothing changes; note that the check is on
        emptiness, not on `trim`. Otherwise all figures are reset, the log is
        emptied, `totalSteps` is fixed to `epochs * 100` and the timer armed. */
    method StartTraining() returns (started: bool)
      requires Valid()
      requires !timerAlive
      modifies this
      ensures Valid()
      ensures started <==> old(config).modelName != "" && old(config).datasetPath != ""
      ensures !started ==> unchanged(this)
      ensures started ==>
        && config == old(config)
        && isTraining && timerAlive
        && progress == 0.0 && currentEpoch == 0 && currentStep == 0 && logs == []
        && step == 0 && totalSteps == config.epochs * StepsPerEpoch
    {
      if config.modelName == "" || config.datasetPath == "" {
        return false;
      }
      isTraining, progress, currentEpoch, currentStep, logs := true, 0.0, 0, 0, [];
      assert config.epochs >= 1 by {
        assert Fits(Epochs, Get(config, Epochs));
      }
      runEpochs := config.epochs;
      totalSteps := config.epochs * StepsPerEpoch;
      step := 0;
      history := [];
      timerAlive := true;
      started := true;
    }

    /** One firing of the interval. A disarmed timer does not fire, so then
        nothing changes; an armed one advances the job by a step (`Advance`),
        with the percentage growing, the log updated on multiples of ten, and
        on the last step the timer cleared, the job no longer training,
        progress exactly 100 and the epoch one past the last. Whether
        `StopTraining` was called in between makes no difference. */
    method Tick(loss: string, accuracy: string)
      requires Valid()
      modifies this
      ensures Valid()
      ensures config == old(config) && totalSteps == old(totalSteps) && runEpochs == old(runEpochs)
      ensures !old(timerAlive) ==> unchanged(this)
      ensures old(timerAlive) ==>
        && step == old(step) + 1
        && progress > old(progress)
        && logs == (if step % LogInterval == 0
                    then LastLogs(old(logs) + [LogRecord(step, loss, accuracy)])
                    else old(logs))
        && (timerAlive <==> step < totalSteps)
        && isTraining == (old(isTraining) && step < totalSteps)
        && (step == totalSteps ==> progress == 100.0 && currentEpoch == runEpochs + 1)
    {
      if timerAlive {
        ghost var s0, h0, l0, c0 := step, history, logs, config;
        FiguresTick(s0, runEpochs);
        LogTick(s0, h0, l0, loss, accuracy);
        Advance(loss, accuracy);
        assert ConfigValid(config) by { assert config == c0; }
        assert Shows(step, totalSteps, currentStep, currentEpoch, progress);
        assert LogsFollow(step, history, logs);
      }
    }

    /** The body of the interval callback: the step advances by one; the shown
        step, progress and epoch follow it; on multiples of ten the entry for
        the step joins the log, which keeps the ten newest; and once the step
        reaches `totalSteps` the interval is cleared and training ends. */
    method Advance(loss: string, accuracy: string)
      requires timerAlive && step < totalSteps
      modifies this
      ensures config == old(config) && totalSteps == old(totalSteps) && runEpochs == old(runEpochs)
      ensures step == old(step) + 1 && currentStep == step
      ensures progress == Percent(step, totalSteps)
      ensures currentEpoch == EpochAt(step)
      ensures var x := LogRecord(step, loss, accuracy);
        if step % LogInterval == 0
        then logs == LastLogs(old(logs) + [x]) && history == old(history) + [x]
        else logs == old(logs) && history == old(history)
      ensures timerAlive <==> step < totalSteps
      ensures isTraining == (old(isTraining) && step < totalSteps)
    {
      step := step + 1;
      currentStep := step;
      progress := Percent(step, totalSteps);
      currentEpoch := EpochAt(step);
      if step % LogInterval == 0 {
        var record := LogRecord(step, loss, accuracy);
        logs := LastLogs(logs + [record]);
        history := history + [record];
      }
      if step >= totalSteps {
        timerAlive := false;
        isTraining := false;
      }
    }

    /** `stopTraining`: only the flag drops. The interval is not cleared, so
        the timer stays armed and later ticks keep advancing the step, the
        figures and the log; the frame states that nothing else changes. */
    method StopTraining()
      requires Valid()
      modifies this`isTraining
      ensures Valid()
      ensures !isTraining
    {
      isTraining := false;
    }

    /** `updateConfig(key, value)`. A running job keeps the `totalSteps` it
        started with. */
    method UpdateConfig(k: ConfigKey, v: ConfigValue)
      requires Valid()
      requires Fits(k, v)
      modifies this`config
      ensures Valid()
      ensures config == SetField(old(config), k, v)
    {
      ConfigStaysValid(config, k, v);
      config := SetField(config, k, v);
    }
  }

  /** Lets the interval fire until it clears itself, with the metrics of each
      logged step given by `loss` and `accuracy`. An armed timer always stops,
      after exactly the remaining steps, leaving progress 100, the epoch one
      past the last, and a full log whose ten entries are those of the last
      ten multiples of ten, oldest first. */
  method RunToCompletion(t: DPOTraining, loss: nat -> string, accuracy: nat -> string) returns (ticks: nat)
    requires t.Valid()
    modifies t
    ensures t.Valid() && !t.timerAlive && !t.isTraining
    ensures t.config == old(t.config) && t.totalSteps == old(t.totalSteps) && t.runEpochs == old(t.runEpochs)
    ensures ticks == if old(t.timerAlive) then old(t.totalSteps - t.step) else 0
    ensures !old(t.timerAlive) ==> unchanged(t)
    ensures old(t.timerAlive) ==>
      && t.step == t.totalSteps && t.currentStep == t.totalSteps
      && t.progress == 100.0 && t.currentEpoch == t.runEpochs + 1
      && t.ShowsCompleteBanner()
      && |t.logs| == LogCapacity
      && forall j :: 0 <= j < LogCapacity ==> t.logs[j].step == t.totalSteps - (LogCapacity - 1 - j) * LogInterval
  {
    ticks := 0;
    if !t.timerAlive {
      return;
    }
    ghost var total := t.totalSteps;
    while t.timerAlive
      invariant t.Valid()
      invariant t.config == old(t.config)
      invariant t.totalSteps == total && t.runEpochs == old(t.runEpochs)
      invariant ticks == t.step - old(t.step)
      invariant !t.timerAlive ==> t.step == total
      decreases total - t.step
    {
      t.Tick(loss(t.step + 1), accuracy(t.step + 1));
      ticks := ticks + 1;
    }
    assert |t.history| == t.runEpochs * LogInterval;
  }

  /** The two banners read the step counter: "Training Complete!" shows
      exactly when a job has run all its steps and is not training, the start
      hint exactly when no step has run, and never both at once. A job
      stopped midway shows neither. */
  lemma BannersFollowStep(t: DPOTraining)
    requires t.Valid()
    ensures t.ShowsCompleteBanner() <==> !t.isTraining && 0 < t.step == t.totalSteps
    ensures t.ShowsStartHint() <==> !t.isTraining && t.step == 0
    ensures !(t.ShowsCompleteBanner() && t.ShowsStartHint())
  {
  }

  /** The default job, started and at once stopped, still runs to its end:
      300 ticks, progress 100, epoch 4 of 3, the completion banner, and a log
      holding steps 210 to 300. */
  method DefaultJobAfterStop() returns (t: DPOTraining, ticks: nat)
    ensures t.Valid()
    ensures ticks == 300 && t.step == 300
    ensures t.progress == 100.0 && t.currentEpoch == 4 && t.ShowsCompleteBanner()
    ensures |t.logs| == LogCapacity && t.logs[0].step == 210 && t.logs[LogCapacity - 1].step == 300
  {
    t := new DPOTraining();
    var started := t.StartTraining();
    assert DefaultModelName[0] == 'm' && DefaultDatasetPath[0] == 'p';
    assert started;
    t.StopTraining();
    ticks := RunToCompletion(t, _ => "0.1000", _ => "0.900");
  }

  /** Stopping does not stop the interval: a tick after a stop still advances
      the step, while the flag stays down. */
  method StopThenTick(t: DPOTraining, loss: string, accuracy: string)
    requires t.Valid() && t.isTraining
    modifies t
    ensures t.Valid() && !t.isTraining
    ensures t.step == old(t.step) + 1
  {
    t.StopTraining();
    t.Tick(loss, accuracy);
  }
}
