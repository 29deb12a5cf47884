/**
  The `Oscilloscope` wrapper of oscilloscope.py: the configuration it keeps, the setters
  that write a property, read it back and keep what the device reports, and the two
  acquisition operations. `Perform`, `ReadOnceSpec` and `ReadAroundTriggerSpec` say what
  each operation does to the configuration and which device accesses it makes; the class
  `Oscilloscope` holds the configuration in fields and is proved against them.
 */
module Scope {
  import opened Wrappers
  import opened Text
  import opened Instrument

  // ---------------------------------------------------------------------------
  // Configuration
  // ---------------------------------------------------------------------------

  datatype Field =
    | TimeScale | TimeOffset | C1VerticalScale | C2VerticalScale | Samples | SamplingRate
    | TriggerChannel | TriggerLevel | TriggerCoupling | TriggerSlope | TriggerMode

  /** The wrapper's fields, each holding the text of the value last read back from the device. */
  datatype Config = Config(
    timeScale: string, timeOffset: string,
    c1VerticalScale: string, c2VerticalScale: string,
    samples: string, samplingRate: string,
    triggerChannel: string, triggerLevel: string,
    triggerCoupling: string, triggerSlope: string, triggerMode: string)
  {
    function Value(f: Field): string {
      match f
      case TimeScale => timeScale
      case TimeOffset => timeOffset
      case C1VerticalScale => c1VerticalScale
      case C2VerticalScale => c2VerticalScale
      case Samples => samples
      case SamplingRate => samplingRate
      case TriggerChannel => triggerChannel
      case TriggerLevel => triggerLevel
      case TriggerCoupling => triggerCoupling
      case TriggerSlope => triggerSlope
      case TriggerMode => triggerMode
    }

    /** The configuration with one field replaced and every other field kept. */
    function Update(f: Field, v: string): (c: Config)
      ensures c.Value(f) == v
      ensures forall g :: g != f ==> c.Value(g) == Value(g)
    {
      match f
      case TimeScale => this.(timeScale := v)
      case TimeOffset => this.(timeOffset := v)
      case C1VerticalScale => this.(c1VerticalScale := v)
      case C2VerticalScale => this.(c2VerticalScale := v)
      case Samples => this.(samples := v)
      case SamplingRate => this.(samplingRate := v)
      case TriggerChannel => this.(triggerChannel := v)
      case TriggerLevel => this.(triggerLevel := v)
      case TriggerCoupling => this.(triggerCoupling := v)
      case TriggerSlope => this.(triggerSlope := v)
      case TriggerMode => this.(triggerMode := v)
    }
  }

  /** The values the constructor assigns. */
  const Defaults := Config("1.0", "0.0", "1.0", "1.0", "20000", "1000000", "1", "1", "ac", "positive", "auto")

  // ---------------------------------------------------------------------------
  // Operations and their replies
  // ---------------------------------------------------------------------------

  /** A call of one of the wrapper's setters (or auto_setup / exit) with its argument. */
  datatype Action =
    | ChangeTimeScale(horizontalScale: string)
    | ChangeTimeOffset(horizontalOffset: string)
    | ChangeVerticalScale(channel: int, scale: string)
    | ChangeSamplesPerRead(samplesPerRead: int)
    | ChangeSamplingRate(samplingRate: int)
    | AutoSetup
    | Exit
    | ChangeTriggerSource(triggerChannel: int)
    | ChangeTriggerLevel(triggerLevel: string)
    | ChangeTriggerCoupling(triggerCouple: string)
    | ChangeTriggerSlope(triggerSlope: string)
    | ChangeTriggerMode(mode: string)

  const TimeScaleTag := "[INFO][Time Scale]:"
  const TimeOffsetTag := "[INFO][Horizontal Offset]:"
  /** Used for both channels. */
  const VerticalScaleTag := "[INFO][C1 Vertical Scale]:"
  const SamplesTag := "[INFO][Samples]:"
  const SamplingRateTag := "[INFO]:"
  const TriggerSourceTag := "[INFO][Trigger Source]:"
  const TriggerLevelTag := "[INFO][Trigger Level]:"
  const TriggerCouplingTag := "[INFO][Trigger Coupling]:"
  const TriggerSlopeTag := "[INFO][Trigger Slope]:"
  const TriggerModeTag := "[INFO][Trigger Mode]:"
  const AutoSetupDone := "[INFO]:Auto Setup Done"
  const ExitDone := "[INFO]:Exit done"
  /** The auto-setup failure text is the only one without a colon. */
  const AutoSetupFailed := "[ERROR] Could not do auto setup"
  const InvalidChannel := "[ERROR]: Invaild Channel Number"

  predicate IsSetter(a: Action) {
    !a.AutoSetup? && !a.Exit?
  }

  /** Setters that read the property a second time to build their reply. */
  predicate Rereads(a: Action) {
    a.ChangeTriggerSource? || a.ChangeTriggerLevel? || a.ChangeTriggerCoupling?
    || a.ChangeTriggerSlope? || a.ChangeTriggerMode?
  }

  /** Out-of-vocabulary arguments, answered with an error before the device is touched. */
  predicate Rejected(a: Action) {
    match a
    case ChangeVerticalScale(ch, _) => ch != 1 && ch != 2
    case ChangeTriggerSource(ch) => ch != 1 && ch != 2
    case ChangeTriggerCoupling(s) => s != "ac" && s != "dc"
    case ChangeTriggerSlope(s) => s != "positive" && s != "negative" && s != "either"
    case ChangeTriggerMode(s) => s != "auto" && s != "single" && s != "normal" && s != "stopped"
    case _ => false
  }

  function RejectionText(a: Action): string
    requires Rejected(a)
  {
    match a
    case ChangeTriggerCoupling(_) => "[ERROR]: Invalid Coupling type"
    case ChangeTriggerSlope(_) => "[ERROR]: Invalid Slope type"
    case ChangeTriggerMode(_) => "[ERROR]: Invalid Trigger Mode"
    case _ => InvalidChannel
  }

  /** The reply when a device access inside the operation raises. */
  function FailureText(a: Action): string {
    match a
    case ChangeTimeScale(_) => "[ERROR]: Could not change time scale"
    case ChangeTimeOffset(_) => "[ERROR]: Could not change time offset"
    case ChangeVerticalScale(_, _) => "[ERROR]: Could not change vertical scale"
    case ChangeSamplesPerRead(_) => "[ERROR]: Could not change samples per read"
    case ChangeSamplingRate(_) => "[ERROR]: Could not change sampling rate"
    case AutoSetup => AutoSetupFailed
    case Exit => "[ERROR]: Could not exit"
    case ChangeTriggerSource(_) => "[ERROR]: Could not change trigger source"
    case ChangeTriggerLevel(_) => "[ERROR]: Could not change trigger level"
    case ChangeTriggerCoupling(_) => "[ERROR]: Could not change trigger coupling"
    case ChangeTriggerSlope(_) => "[ERROR]: Could not change trigger slope"
    case ChangeTriggerMode(_) => "[ERROR]: Could not change trigger mode"
  }

  /** The tag a successful setter puts before the value it reports. */
  function SuccessTag(a: Action): string
    requires IsSetter(a)
  {
    match a
    case ChangeTimeScale(_) => TimeScaleTag
    case ChangeTimeOffset(_) => TimeOffsetTag
    case ChangeVerticalScale(_, _) => VerticalScaleTag
    case ChangeSamplesPerRead(_) => SamplesTag
    case ChangeSamplingRate(_) => SamplingRateTag
    case ChangeTriggerSource(_) => TriggerSourceTag
    case ChangeTriggerLevel(_) => TriggerLevelTag
    case ChangeTriggerCoupling(_) => TriggerCouplingTag
    case ChangeTriggerSlope(_) => TriggerSlopeTag
    case ChangeTriggerMode(_) => TriggerModeTag
  }

  /** The field a setter stores the read-back value in. */
  function TargetField(a: Action): Field
    requires IsSetter(a) && !Rejected(a)
  {
    match a
    case ChangeTimeScale(_) => TimeScale
    case ChangeTimeOffset(_) => TimeOffset
    case ChangeVerticalScale(ch, _) => if ch == 1 then C1VerticalScale else C2VerticalScale
    case ChangeSamplesPerRead(_) => Samples
    case ChangeSamplingRate(_) => SamplingRate
    case ChangeTriggerSource(_) => TriggerChannel
    case ChangeTriggerLevel(_) => TriggerLevel
    case ChangeTriggerCoupling(_) => TriggerCoupling
    case ChangeTriggerSlope(_) => TriggerSlope
    case ChangeTriggerMode(_) => TriggerMode
  }

  /** The property a setter reads back (for samples per read: channel 1's). */
  function TargetProperty(a: Action): Property
    requires IsSetter(a) && !Rejected(a)
  {
    match a
    case ChangeTimeScale(_) => HorScale
    case ChangeTimeOffset(_) => HorOffset
    case ChangeVerticalScale(ch, _) => VerScale(ch)
    case ChangeSamplesPerRead(_) => OutSamples(1)
    case ChangeSamplingRate(_) => SampleRate
    case ChangeTriggerSource(_) => EdgeSource
    case ChangeTriggerLevel(_) => EdgeLevel
    case ChangeTriggerCoupling(_) => EdgeCoupling
    case ChangeTriggerSlope(_) => EdgeSlope
    case ChangeTriggerMode(_) => AcquisitionMode
  }

  /** What a setter assigns to the property: the argument, transformed for the enumerations. */
  function WrittenValue(a: Action): string
    requires IsSetter(a) && !Rejected(a)
  {
    match a
    case ChangeTimeScale(x) => x
    case ChangeTimeOffset(x) => x
    case ChangeVerticalScale(_, x) => x
    case ChangeSamplesPerRead(n) => IntText(n)
    case ChangeSamplingRate(n) => IntText(n)
    case ChangeTriggerSource(ch) => "C" + IntText(ch)
    case ChangeTriggerLevel(x) => x
    case ChangeTriggerCoupling(s) => Upper(s)
    case ChangeTriggerSlope(s) => Capitalize(s)
    case ChangeTriggerMode(s) => Capitalize(s)
  }

  /** Position, among the accesses a setter makes, of the read-back whose answer is stored. */
  function ReadBackIndex(a: Action): nat {
    if a.ChangeSamplesPerRead? then 2 else 1
  }

  // ---------------------------------------------------------------------------
  // What each operation does
  // ---------------------------------------------------------------------------

  /** The new configuration, the device accesses made in order, and the returned text. */
  datatype Outcome = Outcome(config: Config, accesses: seq<Access>, reply: string)

  /** Write the property, read it back, store and report the read-back value. */
  function EchoRun(c: Config, ans: Answer, h: seq<Access>, a: Action): Outcome
    requires IsSetter(a) && !Rejected(a)
  {
    var p := TargetProperty(a);
    var w := Put(p, WrittenValue(a));
    if ans(h, w).None? then Outcome(c, [w], FailureText(a))
    else
      var g := Get(p);
      var r := ans(h + [w], g);
      if r.None? then Outcome(c, [w, g], FailureText(a))
      else Outcome(c.Update(TargetField(a), r.value), [w, g], SuccessTag(a) + r.value)
  }

  /** As EchoRun, but the reply reports a second read of the property. */
  function RereadRun(c: Config, ans: Answer, h: seq<Access>, a: Action): Outcome
    requires IsSetter(a) && !Rejected(a)
  {
    var p := TargetProperty(a);
    var w := Put(p, WrittenValue(a));
    if ans(h, w).None? then Outcome(c, [w], FailureText(a))
    else
      var g := Get(p);
      var r := ans(h + [w], g);
      if r.None? then Outcome(c, [w, g], FailureText(a))
      else
        var stored := c.Update(TargetField(a), r.value);
        var shown := ans(h + [w, g], g);
        if shown.None? then Outcome(stored, [w, g, g], FailureText(a))
        else Outcome(stored, [w, g, g], SuccessTag(a) + shown.value)
  }

  /** Write both channels' sample counts, read channel 1's back and store it. */
  function SamplesRun(c: Config, ans: Answer, h: seq<Access>, a: Action): Outcome
    requires a.ChangeSamplesPerRead?
  {
    var v := IntText(a.samplesPerRead);
    var w1 := Put(OutSamples(1), v);
    var w2 := Put(OutSamples(2), v);
    var g := Get(OutSamples(1));
    if ans(h, w1).None? then Outcome(c, [w1], FailureText(a))
    else if ans(h + [w1], w2).None? then Outcome(c, [w1, w2], FailureText(a))
    else
      var r := ans(h + [w1, w2], g);
      if r.None? then Outcome(c, [w1, w2, g], FailureText(a))
      else Outcome(c.(samples := r.value), [w1, w2, g], SamplesTag + r.value)
  }

  /** The effect of one setter, auto_setup or exit on configuration `c` and device history `h`. */
  function Perform(c: Config, ans: Answer, h: seq<Access>, a: Action): Outcome {
    match a
    case AutoSetup =>
      Outcome(c, [RunAutoSetup], if ans(h, RunAutoSetup).None? then AutoSetupFailed else AutoSetupDone)
    case Exit =>
      Outcome(c, [RunExit], if ans(h, RunExit).None? then FailureText(a) else ExitDone)
    case ChangeTimeScale(_) => EchoRun(c, ans, h, a)
    case ChangeTimeOffset(_) => EchoRun(c, ans, h, a)
    case ChangeVerticalScale(ch, _) =>
      if ch != 1 && ch != 2 then Outcome(c, [], RejectionText(a)) else EchoRun(c, ans, h, a)
    case ChangeSamplesPerRead(_) => SamplesRun(c, ans, h, a)
    case ChangeSamplingRate(_) => EchoRun(c, ans, h, a)
    case ChangeTriggerSource(ch) =>
      if ch != 1 && ch != 2 then Outcome(c, [], RejectionText(a)) else RereadRun(c, ans, h, a)
    case ChangeTriggerLevel(_) => RereadRun(c, ans, h, a)
    case ChangeTriggerCoupling(_) =>
      if Rejected(a) then Outcome(c, [], RejectionText(a)) else RereadRun(c, ans, h, a)
    case ChangeTriggerSlope(_) =>
      if Rejected(a) then Outcome(c, [], RejectionText(a)) else RereadRun(c, ans, h, a)
    case ChangeTriggerMode(_) =>
      if Rejected(a) then Outcome(c, [], RejectionText(a)) else RereadRun(c, ans, h, a)
  }

  /** What `read_once` returns: nothing for an unknown channel, or a raised exception. */
  datatype Reading = Raised | NoReading | Measured(channel: int, data: string)

  datatype ReadOnceRun = ReadOnceRun(accesses: seq<Access>, reading: Reading)

  function ReadOnceSpec(c: Config, ans: Answer, h: seq<Access>, channel: int): ReadOnceRun {
    var w := Put(SampleRate, c.samplingRate);
    if ans(h, w).None? then ReadOnceRun([w], Raised)
    else if channel == 1 || channel == 2 then
      var s := Put(OutSamples(channel), c.samples);
      if ans(h + [w], s).None? then ReadOnceRun([w, s], Raised)
      else
        var d := Get(OutData(channel));
        var r := ans(h + [w, s], d);
        ReadOnceRun([w, s, d], if r.None? then Raised else Measured(channel, r.value))
    else ReadOnceRun([w], NoReading)
  }

  /** What `read_around_trigger` returns; a timeout gives the pair `(0, 0)`. */
  datatype Capture = Failed | Captured(ch1: string, ch2: string)

  datatype TriggeredRead = TriggeredRead(config: Config, accesses: seq<Access>, capture: Capture)

  const AcquireTimeout := 10
  /** The mode requested before acquiring, and the one restored after a trigger. */
  const ArmMode := "single"
  const RestoreMode := "auto"

  /** Everything `read_around_trigger` does once the single mode has been requested. */
  function AcquireSpec(c: Config, ans: Answer, h: seq<Access>): TriggeredRead {
    var q := Acquire(AcquireTimeout);
    var t := ans(h, q);
    if t.None? then TriggeredRead(c, [q], Failed)
    else if !IsOne(t.value) then TriggeredRead(c, [q], Captured("0", "0"))
    else
      var d1 := Get(OutData(1));
      var r1 := ans(h + [q], d1);
      if r1.None? then TriggeredRead(c, [q, d1], Failed)
      else
        var d2 := Get(OutData(2));
        var r2 := ans(h + [q, d1], d2);
        if r2.None? then TriggeredRead(c, [q, d1, d2], Failed)
        else
          var back := Perform(c, ans, h + [q, d1, d2], ChangeTriggerMode(RestoreMode));
          TriggeredRead(back.config, [q, d1, d2] + back.accesses, Captured(r1.value, r2.value))
  }

  /** Accesses appended in two steps are the same as appended at once. */
  lemma {:induction false} HistoryRegrouped(h: seq<Access>, l: seq<Access>, m: seq<Access>)
    ensures h + l + m == h + (l + m)
  {
  }

  /** `read_around_trigger`: request the single mode, then acquire. */
  function ReadAroundTriggerSpec(c: Config, ans: Answer, h: seq<Access>): TriggeredRead {
    AfterArming(ans, h, Perform(c, ans, h, ChangeTriggerMode(ArmMode)))
  }

  /** The acquisition that follows the mode request `arm` made after history `h`. */
  function AfterArming(ans: Answer, h: seq<Access>, arm: Outcome): TriggeredRead {
    var rest := AcquireSpec(arm.config, ans, h + arm.accesses);
    TriggeredRead(rest.config, arm.accesses + rest.accesses, rest.capture)
  }

  lemma TriggerReadComposes(ans: Answer, h0: seq<Access>, arm: Outcome, h1: seq<Access>,
                            rest: TriggeredRead, c2: Config, h2: seq<Access>, capture: Capture)
    requires h1 == h0 + arm.accesses
    requires rest == AcquireSpec(arm.config, ans, h1)
    requires c2 == rest.config && h2 == h1 + rest.accesses && capture == rest.capture
    ensures var run := AfterArming(ans, h0, arm);
      c2 == run.config && h2 == h0 + run.accesses && capture == run.capture
  {
    HistoryRegrouped(h0, arm.accesses, rest.accesses);
  }

  // ---------------------------------------------------------------------------
  // Properties of the operations
  // ---------------------------------------------------------------------------

  /** Exactly the out-of-vocabulary arguments leave the device alone, with an error and no change. */
  lemma RejectedArgumentsSkipDevice(c: Config, ans: Answer, h: seq<Access>, a: Action)
    ensures Perform(c, ans, h, a).accesses == [] <==> Rejected(a)
    ensures Rejected(a) ==>
      Perform(c, ans, h, a).config == c && Perform(c, ans, h, a).reply == RejectionText(a)
  {
  }

  /** Every rejection text is an error report. */
  lemma RejectionIsError(a: Action)
    requires Rejected(a)
    ensures StartsWith(RejectionText(a), "[ERROR]")
  {
  }

  /**
    A setter first writes the (transformed) argument; what it stores is the device's answer
    to reading the property back, and if an access before that read-back fails it returns
    its failure text and changes nothing.
   */
  lemma SetterStoresReadBack(c: Config, ans: Answer, h: seq<Access>, a: Action)
    requires IsSetter(a) && !Rejected(a)
    ensures var o := Perform(c, ans, h, a);
      var k := ReadBackIndex(a);
      && |o.accesses| >= 1
      && o.accesses[0] == Put(TargetProperty(a), WrittenValue(a))
      && (k < |o.accesses| ==> o.accesses[k] == Get(TargetProperty(a)))
      && if k < |o.accesses| && ans(h + o.accesses[..k], o.accesses[k]).Some? then
           o.config == c.Update(TargetField(a), ans(h + o.accesses[..k], o.accesses[k]).value)
         else
           o.config == c && o.reply == FailureText(a)
  {
    if a.ChangeSamplesPerRead? {
      SamplesStoresReadBack(c, ans, h, a);
    } else if Rereads(a) {
      RereadStoresReadBack(c, ans, h, a);
    } else {
      EchoStoresReadBack(c, ans, h, a);
    }
  }

  /** The statement of `SetterStoresReadBack` for one setter. */
  ghost predicate StoresReadBack(c: Config, ans: Answer, h: seq<Access>, a: Action)
    requires IsSetter(a) && !Rejected(a)
  {
    var o := Perform(c, ans, h, a);
    var k := ReadBackIndex(a);
    && |o.accesses| >= 1
    && o.accesses[0] == Put(TargetProperty(a), WrittenValue(a))
    && (k < |o.accesses| ==> o.accesses[k] == Get(TargetProperty(a)))
    && if k < |o.accesses| && ans(h + o.accesses[..k], o.accesses[k]).Some? then
         o.config == c.Update(TargetField(a), ans(h + o.accesses[..k], o.accesses[k]).value)
       else
         o.config == c && o.reply == FailureText(a)
  }

  lemma SamplesStoresReadBack(c: Config, ans: Answer, h: seq<Access>, a: Action)
    requires a.ChangeSamplesPerRead?
    ensures StoresReadBack(c, ans, h, a)
  {
    var o := Perform(c, ans, h, a);
    var w := Put(TargetProperty(a), WrittenValue(a));
    var w2 := Put(OutSamples(2), WrittenValue(a));
    assert o == SamplesRun(c, ans, h, a);
    if ans(h, w).Some? && ans(h + [w], w2).Some? {
      assert o.accesses[..2] == [w, w2];
    }
  }

  lemma RereadStoresReadBack(c: Config, ans: Answer, h: seq<Access>, a: Action)
    requires Rereads(a) && !Rejected(a)
    ensures StoresReadBack(c, ans, h, a)
  {
    var o := Perform(c, ans, h, a);
    var w := Put(TargetProperty(a), WrittenValue(a));
    assert o == RereadRun(c, ans, h, a);
    if ans(h, w).Some? {
      assert o.accesses[..1] == [w];
    }
  }

  lemma EchoStoresReadBack(c: Config, ans: Answer, h: seq<Access>, a: Action)
    requires IsSetter(a) && !Rejected(a) && !a.ChangeSamplesPerRead? && !Rereads(a)
    ensures StoresReadBack(c, ans, h, a)
  {
    var o := Perform(c, ans, h, a);
    var w := Put(TargetProperty(a), WrittenValue(a));
    assert o == EchoRun(c, ans, h, a);
    if ans(h, w).Some? {
      assert o.accesses[..1] == [w];
    }
  }

  /**
    Outside the trigger setters, the reply is decided by the read-back: when the device answers
    it, the reply is the setter's tag followed by that answer, which is also the value stored;
    otherwise it is the failure text. A reply that is not the failure text reports the stored value.
   */
  lemma ReplyReportsStoredValue(c: Config, ans: Answer, h: seq<Access>, a: Action)
    requires IsSetter(a) && !Rejected(a) && !Rereads(a)
    ensures var o := Perform(c, ans, h, a);
      var k := ReadBackIndex(a);
      var answered := k < |o.accesses| && ans(h + o.accesses[..k], o.accesses[k]).Some?;
      && (answered ==>
            && o.reply == SuccessTag(a) + ans(h + o.accesses[..k], o.accesses[k]).value
            && o.config.Value(TargetField(a)) == ans(h + o.accesses[..k], o.accesses[k]).value)
      && (!answered ==> o.reply == FailureText(a))
      && (o.reply != FailureText(a) ==> o.reply == SuccessTag(a) + o.config.Value(TargetField(a)))
  {
    SetterStoresReadBack(c, ans, h, a);
    var o := Perform(c, ans, h, a);
    var k := ReadBackIndex(a);
    if k < |o.accesses| && ans(h + o.accesses[..k], o.accesses[k]).Some? {
      if a.ChangeSamplesPerRead? {
        assert o == SamplesRun(c, ans, h, a);
        assert o.accesses[..2] == [Put(OutSamples(1), WrittenValue(a)), Put(OutSamples(2), WrittenValue(a))];
      } else {
        assert o == EchoRun(c, ans, h, a);
        assert o.accesses[..1] == [Put(TargetProperty(a), WrittenValue(a))];
      }
    }
  }

  /**
    The trigger setters report a second read of the property. If that read fails, the reply
    is the failure text although the first read-back has already been stored.
   */
  lemma TriggerSetterRereads(c: Config, ans: Answer, h: seq<Access>, a: Action)
    requires Rereads(a) && !Rejected(a)
    ensures var o := Perform(c, ans, h, a);
      var w := Put(TargetProperty(a), WrittenValue(a));
      var g := Get(TargetProperty(a));
      ans(h, w).Some? && ans(h + [w], g).Some? ==>
        && o.accesses == [w, g, g]
        && o.config == c.Update(TargetField(a), ans(h + [w], g).value)
        && o.reply == (if ans(h + [w, g], g).None? then FailureText(a)
                       else SuccessTag(a) + ans(h + [w, g], g).value)
  {
  }

  /** Trigger channels are written as the device's channel names. */
  lemma SourceNamesWritten()
    ensures WrittenValue(ChangeTriggerSource(1)) == "C1" && WrittenValue(ChangeTriggerSource(2)) == "C2"
  {
  }

  /** Couplings are written upper-cased. */
  lemma CouplingsUpperCased()
    ensures WrittenValue(ChangeTriggerCoupling("ac")) == "AC" && WrittenValue(ChangeTriggerCoupling("dc")) == "DC"
  {
  }

  /** Slopes are written capitalised. */
  lemma SlopesCapitalised()
    ensures WrittenValue(ChangeTriggerSlope("positive")) == "Positive"
    ensures WrittenValue(ChangeTriggerSlope("negative")) == "Negative"
    ensures WrittenValue(ChangeTriggerSlope("either")) == "Either"
  {
    PositiveCapitalised();
    NegativeCapitalised();
    EitherCapitalised();
  }

  /** Trigger modes are written capitalised. */
  lemma ModesCapitalised()
    ensures WrittenValue(ChangeTriggerMode("auto")) == "Auto"
    ensures WrittenValue(ChangeTriggerMode("single")) == "Single"
    ensures WrittenValue(ChangeTriggerMode("normal")) == "Normal"
    ensures WrittenValue(ChangeTriggerMode("stopped")) == "Stopped"
  {
    AutoCapitalised();
    SingleCapitalised();
    NormalCapitalised();
    StoppedCapitalised();
  }

  // One word per lemma, so that each literal is evaluated on its own.

  lemma PositiveCapitalised()
    ensures Capitalize("positive") == "Positive"
  {
    CapitalizedAs("positive", "Positive");
  }

  lemma NegativeCapitalised()
    ensures Capitalize("negative") == "Negative"
  {
    CapitalizedAs("negative", "Negative");
  }

  lemma EitherCapitalised()
    ensures Capitalize("either") == "Either"
  {
    CapitalizedAs("either", "Either");
  }

  lemma AutoCapitalised()
    ensures Capitalize("auto") == "Auto"
  {
    CapitalizedAs("auto", "Auto");
  }

  lemma SingleCapitalised()
    ensures Capitalize("single") == "Single"
  {
    CapitalizedAs("single", "Single");
  }

  lemma NormalCapitalised()
    ensures Capitalize("normal") == "Normal"
  {
    CapitalizedAs("normal", "Normal");
  }

  lemma StoppedCapitalised()
    ensures Capitalize("stopped") == "Stopped"
  {
    CapitalizedAs("stopped", "Stopped");
  }

  /**
    Changing a vertical scale touches only that channel's field, and both channels
    acknowledge with the channel-1 tag.
   */
  lemma VerticalScaleOneChannel(c: Config, ans: Answer, h: seq<Access>, channel: int, scale: string)
    requires channel == 1 || channel == 2
    ensures var o := Perform(c, ans, h, ChangeVerticalScale(channel, scale));
      var f := if channel == 1 then C1VerticalScale else C2VerticalScale;
      && (forall g :: g != f ==> o.config.Value(g) == c.Value(g))
      && (o.reply != FailureText(ChangeVerticalScale(channel, scale)) ==>
            o.reply == "[INFO][C1 Vertical Scale]:" + o.config.Value(f))
    ensures var o := Perform(c, ans, h, ChangeVerticalScale(channel, scale));
      var f := if channel == 1 then C1VerticalScale else C2VerticalScale;
      var w := Put(VerScale(channel), scale);
      var r := ans(h + [w], Get(VerScale(channel)));
      && (ans(h, w).Some? && r.Some? ==>
            o.reply == "[INFO][C1 Vertical Scale]:" + r.value && o.config.Value(f) == r.value)
      && (ans(h, w).None? || r.None? ==>
            o.reply == FailureText(ChangeVerticalScale(channel, scale)) && o.config == c)
  {
  }

  /**
    `read_once` first rewrites the sample rate from the stored value; for channel 1 or 2 it
    sets only that channel's sample count to the stored count and returns its data; for any
    other channel it returns nothing.
   */
  lemma ReadOnceOutcomes(c: Config, ans: Answer, h: seq<Access>, channel: int)
    ensures var run := ReadOnceSpec(c, ans, h, channel);
      && |run.accesses| >= 1
      && run.accesses[0] == Put(SampleRate, c.samplingRate)
      && (channel != 1 && channel != 2 ==> |run.accesses| == 1 && !run.reading.Measured?)
      && (run.reading.Measured? ==>
            && run.reading.channel == channel
            && run.accesses == [Put(SampleRate, c.samplingRate), Put(OutSamples(channel), c.samples),
                                Get(OutData(channel))]
            && Some(run.reading.data) == ans(h + run.accesses[..2], Get(OutData(channel))))
      && (run.reading.NoReading? <==> ans(h, Put(SampleRate, c.samplingRate)).Some? && channel != 1 && channel != 2)
    ensures var run := ReadOnceSpec(c, ans, h, channel);
      var w := Put(SampleRate, c.samplingRate);
      var s := Put(OutSamples(channel), c.samples);
      var r := ans(h + [w, s], Get(OutData(channel)));
      var answered := ans(h, w).Some? && ans(h + [w], s).Some? && r.Some?;
      && ((channel == 1 || channel == 2) && answered ==> run.reading == Measured(channel, r.value))
      && ((channel == 1 || channel == 2) ==> (run.reading.Raised? <==> !answered))
      && (channel != 1 && channel != 2 ==> (run.reading.Raised? <==> ans(h, w).None?))
  {
    var run := ReadOnceSpec(c, ans, h, channel);
    if run.reading.Measured? {
      assert run.accesses[..2] == [Put(SampleRate, c.samplingRate), Put(OutSamples(channel), c.samples)];
    }
  }

  /** The trigger mode after requesting `mode`: the device's read-back, or unchanged if that failed. */
  function ModeAfter(c: Config, ans: Answer, h: seq<Access>, mode: string): string {
    var w := Put(AcquisitionMode, Capitalize(mode));
    var g := Get(AcquisitionMode);
    if ans(h, w).Some? && ans(h + [w], g).Some? then ans(h + [w], g).value else c.triggerMode
  }

  /** Requesting a valid mode changes at most the trigger-mode field, to ModeAfter. */
  lemma ModeChange(c: Config, ans: Answer, h: seq<Access>, mode: string)
    requires mode == "auto" || mode == "single" || mode == "normal" || mode == "stopped"
    ensures Perform(c, ans, h, ChangeTriggerMode(mode)).config == c.(triggerMode := ModeAfter(c, ans, h, mode))
    ensures Perform(c, ans, h, ChangeTriggerMode(mode)).accesses[0] == Put(AcquisitionMode, Capitalize(mode))
  {
  }

  /**
    After the mode request: acquire with the fixed timeout; a failure to answer means an
    exception, a result other than 1 gives the pair (0, 0) and changes nothing, and a trigger
    gives both channels' data followed by a request for the auto mode.
   */
  lemma AcquireOutcomes(c: Config, ans: Answer, h: seq<Access>)
    ensures var run := AcquireSpec(c, ans, h);
      var t := ans(h, Acquire(AcquireTimeout));
      && run.accesses[0] == Acquire(AcquireTimeout)
      && (t.None? ==> run.capture == Failed && run.config == c)
      && (t.Some? && !IsOne(t.value) ==> run.capture == Captured("0", "0") && run.config == c)
      && (t.Some? && IsOne(t.value) && run.capture.Captured? ==>
            var h2 := h + [Acquire(AcquireTimeout), Get(OutData(1)), Get(OutData(2))];
            && Some(run.capture.ch1) == ans(h + [Acquire(AcquireTimeout)], Get(OutData(1)))
            && Some(run.capture.ch2) == ans(h + [Acquire(AcquireTimeout), Get(OutData(1))], Get(OutData(2)))
            && run.accesses[3] == Put(AcquisitionMode, "Auto")
            && run.config == c.(triggerMode := ModeAfter(c, ans, h2, RestoreMode)))
    ensures var run := AcquireSpec(c, ans, h);
      var t := ans(h, Acquire(AcquireTimeout));
      var r1 := ans(h + [Acquire(AcquireTimeout)], Get(OutData(1)));
      var r2 := ans(h + [Acquire(AcquireTimeout), Get(OutData(1))], Get(OutData(2)));
      t.Some? && IsOne(t.value) ==>
        && (r1.Some? && r2.Some? ==> run.capture == Captured(r1.value, r2.value))
        && (r1.None? || r2.None? ==> run.capture == Failed && run.config == c)
  {
    var t := ans(h, Acquire(AcquireTimeout));
    if t.Some? && IsOne(t.value) {
      var h2 := h + [Acquire(AcquireTimeout), Get(OutData(1)), Get(OutData(2))];
      ModeChange(c, ans, h2, RestoreMode);
      AutoCapitalised();
    }
  }

  /** The acquisition after a mode request `arm` keeps the request's accesses in front. */
  lemma ArmedOutcomes(ans: Answer, h: seq<Access>, arm: Outcome)
    ensures var run := AfterArming(ans, h, arm);
      var h1 := h + arm.accesses;
      var t := ans(h1, Acquire(AcquireTimeout));
      && run.accesses[..|arm.accesses|] == arm.accesses
      && run.accesses[|arm.accesses|] == Acquire(AcquireTimeout)
      && (t.None? ==> run.capture == Failed && run.config == arm.config)
      && (t.Some? && !IsOne(t.value) ==> run.capture == Captured("0", "0") && run.config == arm.config)
      && (t.Some? && IsOne(t.value) && run.capture.Captured? ==>
            var h2 := h1 + [Acquire(AcquireTimeout), Get(OutData(1)), Get(OutData(2))];
            && Some(run.capture.ch1) == ans(h1 + [Acquire(AcquireTimeout)], Get(OutData(1)))
            && Some(run.capture.ch2) == ans(h1 + [Acquire(AcquireTimeout), Get(OutData(1))], Get(OutData(2)))
            && run.accesses[|arm.accesses| + 3] == Put(AcquisitionMode, "Auto")
            && run.config == arm.config.(triggerMode := ModeAfter(arm.config, ans, h2, RestoreMode)))
    ensures var run := AfterArming(ans, h, arm);
      var h1 := h + arm.accesses;
      var t := ans(h1, Acquire(AcquireTimeout));
      var r1 := ans(h1 + [Acquire(AcquireTimeout)], Get(OutData(1)));
      var r2 := ans(h1 + [Acquire(AcquireTimeout), Get(OutData(1))], Get(OutData(2)));
      t.Some? && IsOne(t.value) ==>
        && (r1.Some? && r2.Some? ==> run.capture == Captured(r1.value, r2.value))
        && (r1.None? || r2.None? ==> run.capture == Failed && run.config == arm.config)
  {
    AcquireOutcomes(arm.config, ans, h + arm.accesses);
  }

  /** The acquisition after a request for a valid mode begins with writing that mode. */
  lemma ArmedFirst(c: Config, ans: Answer, h: seq<Access>, mode: string)
    requires mode == "auto" || mode == "single" || mode == "normal" || mode == "stopped"
    ensures AfterArming(ans, h, Perform(c, ans, h, ChangeTriggerMode(mode))).accesses[0]
            == Put(AcquisitionMode, Capitalize(mode))
  {
    var arm := Perform(c, ans, h, ChangeTriggerMode(mode));
    ModeChange(c, ans, h, mode);
    var rest := AcquireSpec(arm.config, ans, h + arm.accesses);
    assert AfterArming(ans, h, arm).accesses == arm.accesses + rest.accesses;
  }

  /** `read_around_trigger` first requests the single mode. */
  lemma TriggerReadArmsSingle(c: Config, ans: Answer, h: seq<Access>)
    ensures ReadAroundTriggerSpec(c, ans, h).accesses[0] == Put(AcquisitionMode, "Single")
  {
    var arm := Perform(c, ans, h, ChangeTriggerMode(ArmMode));
    assert ReadAroundTriggerSpec(c, ans, h) == AfterArming(ans, h, arm);
    ArmedFirst(c, ans, h, ArmMode);
    CapitalizedAs(ArmMode, "Single");
  }

  /**
    After the mode request `read_around_trigger` acquires with timeout 10. When the result is
    not 1 it returns the pair (0, 0) and the mode is left at the single read-back; when the
    acquisition raises, so does the operation.
   */
  lemma TriggerReadTimeout(c: Config, ans: Answer, h: seq<Access>)
    ensures var run := ReadAroundTriggerSpec(c, ans, h);
      var arm := Perform(c, ans, h, ChangeTriggerMode(ArmMode));
      var t := ans(h + arm.accesses, Acquire(AcquireTimeout));
      var single := c.(triggerMode := ModeAfter(c, ans, h, ArmMode));
      && run.accesses[|arm.accesses|] == Acquire(AcquireTimeout)
      && (t.None? ==> run.capture == Failed && run.config == single)
      && (t.Some? && !IsOne(t.value) ==> run.capture == Captured("0", "0") && run.config == single)
  {
    var arm := Perform(c, ans, h, ChangeTriggerMode(ArmMode));
    ModeChange(c, ans, h, ArmMode);
    ArmedOutcomes(ans, h, arm);
  }

  /**
    On a trigger, `read_around_trigger` returns both channels' data when the device answers
    both reads, and then requests auto again; if either read raises, so does the operation.
   */
  lemma TriggerReadCaptured(c: Config, ans: Answer, h: seq<Access>)
    ensures var run := ReadAroundTriggerSpec(c, ans, h);
      var arm := Perform(c, ans, h, ChangeTriggerMode(ArmMode));
      var h1 := h + arm.accesses;
      var t := ans(h1, Acquire(AcquireTimeout));
      var r1 := ans(h1 + [Acquire(AcquireTimeout)], Get(OutData(1)));
      var r2 := ans(h1 + [Acquire(AcquireTimeout), Get(OutData(1))], Get(OutData(2)));
      var single := c.(triggerMode := ModeAfter(c, ans, h, ArmMode));
      t.Some? && IsOne(t.value) ==>
        && (r1.Some? && r2.Some? ==> run.capture == Captured(r1.value, r2.value))
        && (r1.None? || r2.None? ==> run.capture == Failed && run.config == single)
    ensures var run := ReadAroundTriggerSpec(c, ans, h);
      var arm := Perform(c, ans, h, ChangeTriggerMode(ArmMode));
      var h1 := h + arm.accesses;
      var t := ans(h1, Acquire(AcquireTimeout));
      var single := c.(triggerMode := ModeAfter(c, ans, h, ArmMode));
      t.Some? && IsOne(t.value) && run.capture.Captured? ==>
        var h2 := h1 + [Acquire(AcquireTimeout), Get(OutData(1)), Get(OutData(2))];
        && Some(run.capture.ch1) == ans(h1 + [Acquire(AcquireTimeout)], Get(OutData(1)))
        && Some(run.capture.ch2) == ans(h1 + [Acquire(AcquireTimeout), Get(OutData(1))], Get(OutData(2)))
        && run.accesses[|arm.accesses| + 3] == Put(AcquisitionMode, "Auto")
        && run.config == single.(triggerMode := ModeAfter(single, ans, h2, RestoreMode))
  {
    var arm := Perform(c, ans, h, ChangeTriggerMode(ArmMode));
    ModeChange(c, ans, h, ArmMode);
    ArmedOutcomes(ans, h, arm);
  }

  // ---------------------------------------------------------------------------
  // The wrapper object
  // ---------------------------------------------------------------------------

  class Oscilloscope {
    const dev: Device
    var timeScale: string
    var timeOffset: string
    var c1VerticalScale: string
    var c2VerticalScale: string
    var samples: string
    var samplingRate: string
    var triggerChannel: string
    var triggerLevel: string
    var triggerCoupling: string
    var triggerSlope: string
    var triggerMode: string

    function Settings(): Config
      reads this
    {
      Config(timeScale, timeOffset, c1VerticalScale, c2VerticalScale, samples, samplingRate,
             triggerChannel, triggerLevel, triggerCoupling, triggerSlope, triggerMode)
    }

    /** The current state is what `a` does when started from configuration `c0` and history `h0`. */
    ghost predicate Performed(c0: Config, h0: seq<Access>, a: Action, reply: string)
      reads this, dev
    {
      var o := Perform(c0, dev.answer, h0, a);
      Settings() == o.config && dev.history == h0 + o.accesses && reply == o.reply
    }

    constructor (dev: Device)
      ensures this.dev == dev && Settings() == Defaults
    {
      this.dev := dev;
      timeScale, timeOffset := "1.0", "0.0";
      c1VerticalScale, c2VerticalScale := "1.0", "1.0";
      samples, samplingRate := "20000", "1000000";
      triggerChannel, triggerLevel := "1", "1";
      triggerCoupling, triggerSlope, triggerMode := "ac", "positive", "auto";
    }

    method ChangeTimeScale(horizontalScale: string) returns (reply: string)
      modifies this, dev
      ensures Performed(old(Settings()), old(dev.history), Action.ChangeTimeScale(horizontalScale), reply)
    {
      var w := dev.Access(Put(HorScale, horizontalScale));
      if w.None? { return "[ERROR]: Could not change time scale"; }
      var r := dev.Access(Get(HorScale));
      if r.None? { return "[ERROR]: Could not change time scale"; }
      timeScale := r.value;
      reply := TimeScaleTag + timeScale;
    }

    method ChangeTimeOffset(horizontalOffset: string) returns (reply: string)
      modifies this, dev
      ensures Performed(old(Settings()), old(dev.history), Action.ChangeTimeOffset(horizontalOffset), reply)
    {
      var w := dev.Access(Put(HorOffset, horizontalOffset));
      if w.None? { return "[ERROR]: Could not change time offset"; }
      var r := dev.Access(Get(HorOffset));
      if r.None? { return "[ERROR]: Could not change time offset"; }
      timeOffset := r.value;
      reply := TimeOffsetTag + timeOffset;
    }

    method ChangeVerticalScale(channel: int, scale: string) returns (reply: string)
      modifies this, dev
      ensures Performed(old(Settings()), old(dev.history), Action.ChangeVerticalScale(channel, scale), reply)
    {
      if channel == 1 || channel == 2 {
        var w := dev.Access(Put(VerScale(channel), scale));
        if w.None? { return "[ERROR]: Could not change vertical scale"; }
        var r := dev.Access(Get(VerScale(channel)));
        if r.None? { return "[ERROR]: Could not change vertical scale"; }
        if channel == 1 {
          c1VerticalScale := r.value;
        } else {
          c2VerticalScale := r.value;
        }
        reply := VerticalScaleTag + r.value;
      } else {
        reply := InvalidChannel;
      }
    }

    method ChangeSamplesPerRead(samplesPerRead: int) returns (reply: string)
      modifies this, dev
      ensures Performed(old(Settings()), old(dev.history), Action.ChangeSamplesPerRead(samplesPerRead), reply)
    {
      var w1 := dev.Access(Put(OutSamples(1), IntText(samplesPerRead)));
      if w1.None? { return "[ERROR]: Could not change samples per read"; }
      var w2 := dev.Access(Put(OutSamples(2), IntText(samplesPerRead)));
      if w2.None? { return "[ERROR]: Could not change samples per read"; }
      assert dev.history == old(dev.history) + [Put(OutSamples(1), IntText(samplesPerRead)), Put(OutSamples(2), IntText(samplesPerRead))];
      var r := dev.Access(Get(OutSamples(1)));
      if r.None? { return "[ERROR]: Could not change samples per read"; }
      samples := r.value;
      reply := SamplesTag + samples;
    }

    method ChangeSamplingRate(rate: int) returns (reply: string)
      modifies this, dev
      ensures Performed(old(Settings()), old(dev.history), Action.ChangeSamplingRate(rate), reply)
    {
      var w := dev.Access(Put(SampleRate, IntText(rate)));
      if w.None? { return "[ERROR]: Could not change sampling rate"; }
      var r := dev.Access(Get(SampleRate));
      if r.None? { return "[ERROR]: Could not change sampling rate"; }
      samplingRate := r.value;
      reply := SamplingRateTag + samplingRate;
    }

    method AutoSetup() returns (reply: string)
      modifies dev
      ensures Performed(old(Settings()), old(dev.history), Action.AutoSetup, reply)
    {
      var r := dev.Access(RunAutoSetup);
      reply := if r.None? then AutoSetupFailed else AutoSetupDone;
    }

    method Exit() returns (reply: string)
      modifies dev
      ensures Performed(old(Settings()), old(dev.history), Action.Exit, reply)
    {
      var r := dev.Access(RunExit);
      reply := if r.None? then "[ERROR]: Could not exit" else ExitDone;
    }

    /** Assigns one configuration field. */
    method Store(f: Field, v: string)
      modifies this
      ensures Settings() == old(Settings()).Update(f, v)
    {
      match f {
        case TimeScale => timeScale := v;
        case TimeOffset => timeOffset := v;
        case C1VerticalScale => c1VerticalScale := v;
        case C2VerticalScale => c2VerticalScale := v;
        case Samples => samples := v;
        case SamplingRate => samplingRate := v;
        case TriggerChannel => triggerChannel := v;
        case TriggerLevel => triggerLevel := v;
        case TriggerCoupling => triggerCoupling := v;
        case TriggerSlope => triggerSlope := v;
        case TriggerMode => triggerMode := v;
      }
    }

    /**
      Shared by the trigger setters: write, read back into field `f`,
      then read again for the reply.
     */
    method WriteReadReread(p: Property, v: string, f: Field, tag: string, failure: string)
      returns (reply: string)
      modifies this, dev
      ensures var w := Put(p, v);
        var g := Get(p);
        var h := old(dev.history);
        var r := dev.answer(h + [w], g);
        var shown := dev.answer(h + [w, g], g);
        if dev.answer(h, w).None? then
          Settings() == old(Settings()) && dev.history == h + [w] && reply == failure
        else if r.None? then
          Settings() == old(Settings()) && dev.history == h + [w, g] && reply == failure
        else
          && Settings() == old(Settings()).Update(f, r.value)
          && dev.history == h + [w, g, g]
          && reply == (if shown.None? then failure else tag + shown.value)
    {
      var w := dev.Access(Put(p, v));
      if w.None? { return failure; }
      var r := dev.Access(Get(p));
      if r.None? { return failure; }
      Store(f, r.value);
      assert dev.history == old(dev.history) + [Put(p, v), Get(p)];
      var shown := dev.Access(Get(p));
      reply := if shown.None? then failure else tag + shown.value;
    }

    method ChangeTriggerSource(channel: int) returns (reply: string)
      modifies this, dev
      ensures Performed(old(Settings()), old(dev.history), Action.ChangeTriggerSource(channel), reply)
    {
      if channel == 1 || channel == 2 {
        reply := WriteReadReread(EdgeSource, "C" + IntText(channel), TriggerChannel, TriggerSourceTag,
                                 "[ERROR]: Could not change trigger source");
      } else {
        reply := InvalidChannel;
      }
    }

    method ChangeTriggerLevel(level: string) returns (reply: string)
      modifies this, dev
      ensures Performed(old(Settings()), old(dev.history), Action.ChangeTriggerLevel(level), reply)
    {
      reply := WriteReadReread(EdgeLevel, level, TriggerLevel, TriggerLevelTag,
                               "[ERROR]: Could not change trigger level");
    }

    method ChangeTriggerCoupling(couple: string) returns (reply: string)
      modifies this, dev
      ensures Performed(old(Settings()), old(dev.history), Action.ChangeTriggerCoupling(couple), reply)
    {
      if couple == "ac" || couple == "dc" {
        reply := WriteReadReread(EdgeCoupling, Upper(couple), TriggerCoupling, TriggerCouplingTag,
                                 "[ERROR]: Could not change trigger coupling");
      } else {
        reply := "[ERROR]: Invalid Coupling type";
      }
    }

    method ChangeTriggerSlope(slope: string) returns (reply: string)
      modifies this, dev
      ensures Performed(old(Settings()), old(dev.history), Action.ChangeTriggerSlope(slope), reply)
    {
      if slope == "positive" || slope == "negative" || slope == "either" {
        reply := WriteReadReread(EdgeSlope, Capitalize(slope), TriggerSlope, TriggerSlopeTag,
                                 "[ERROR]: Could not change trigger slope");
      } else {
        reply := "[ERROR]: Invalid Slope type";
      }
    }

    method ChangeTriggerMode(mode: string) returns (reply: string)
      modifies this, dev
      ensures Performed(old(Settings()), old(dev.history), Action.ChangeTriggerMode(mode), reply)
    {
      if mode == "auto" || mode == "single" || mode == "normal" || mode == "stopped" {
        reply := WriteReadReread(AcquisitionMode, Capitalize(mode), TriggerMode, TriggerModeTag,
                                 "[ERROR]: Could not change trigger mode");
      } else {
        reply := "[ERROR]: Invalid Trigger Mode";
      }
    }

    /** Rewrites the sample rate, then reads one channel's data; the configuration is untouched. */
    method ReadOnce(channel: int) returns (reading: Reading)
      modifies dev
      ensures Settings() == old(Settings())
      ensures var run := ReadOnceSpec(old(Settings()), dev.answer, old(dev.history), channel);
        dev.history == old(dev.history) + run.accesses && reading == run.reading
    {
      var w := dev.Access(Put(SampleRate, samplingRate));
      if w.None? { return Raised; }
      if channel == 1 || channel == 2 {
        var s := dev.Access(Put(OutSamples(channel), samples));
        if s.None? { return Raised; }
        assert dev.history == old(dev.history) + [Put(SampleRate, samplingRate), Put(OutSamples(channel), samples)];
        var d := dev.Access(Get(OutData(channel)));
        reading := if d.None? then Raised else Measured(channel, d.value);
      } else {
        reading := NoReading;
      }
    }

    /** Arms a single acquisition, waits for it, and on a trigger reads both channels and returns to auto. */
    method ReadAroundTrigger() returns (capture: Capture)
      modifies this, dev
      ensures var run := ReadAroundTriggerSpec(old(Settings()), dev.answer, old(dev.history));
        Settings() == run.config && dev.history == old(dev.history) + run.accesses && capture == run.capture
    {
      ghost var c0, h0 := Settings(), dev.history;
      var armed := ChangeTriggerMode(ArmMode);
      ghost var arm := Perform(c0, dev.answer, h0, Action.ChangeTriggerMode(ArmMode));
      ghost var h1 := dev.history;
      capture := AcquireAndRestore();
      ghost var rest := AcquireSpec(arm.config, dev.answer, h1);
      TriggerReadComposes(dev.answer, h0, arm, h1, rest, Settings(), dev.history, capture);
    }

    /** The part of `read_around_trigger` after the single mode has been requested. */
    method AcquireAndRestore() returns (capture: Capture)
      modifies this, dev
      ensures var run := AcquireSpec(old(Settings()), dev.answer, old(dev.history));
        Settings() == run.config && dev.history == old(dev.history) + run.accesses && capture == run.capture
    {
      ghost var h := dev.history;
      var t := dev.Access(Acquire(AcquireTimeout));
      if t.None? { return Failed; }
      if !IsOne(t.value) { return Captured("0", "0"); }
      capture := CollectAndRestore(h);
    }

    /** After a trigger: reads both channels' data and, when both answer, requests the auto mode. */
    method CollectAndRestore(ghost h: seq<Access>) returns (capture: Capture)
      requires dev.history == h + [Acquire(AcquireTimeout)]
      requires dev.answer(h, Acquire(AcquireTimeout)).Some? && IsOne(dev.answer(h, Acquire(AcquireTimeout)).value)
      modifies this, dev
      ensures var run := AcquireSpec(old(Settings()), dev.answer, h);
        Settings() == run.config && dev.history == h + run.accesses && capture == run.capture
    {
      var ch1 := dev.Access(Get(OutData(1)));
      assert dev.history == h + [Acquire(AcquireTimeout), Get(OutData(1))];
      if ch1.None? { return Failed; }
      var ch2 := dev.Access(Get(OutData(2)));
      ghost var h1 := dev.history;
      assert h1 == h + [Acquire(AcquireTimeout), Get(OutData(1)), Get(OutData(2))];
      if ch2.None? { return Failed; }
      ghost var back := Perform(Settings(), dev.answer, h1, Action.ChangeTriggerMode(RestoreMode));
      var restored := ChangeTriggerMode(RestoreMode);
      HistoryRegrouped(h, [Acquire(AcquireTimeout), Get(OutData(1)), Get(OutData(2))], back.accesses);
      capture := Captured(ch1.value, ch2.value);
    }
  }
}
