/**
  How the texts built by the oscilloscope wrapper and the server are read by the client:
  which acknowledgements reach the client's configuration mirror, which are dropped because
  the tags on the two sides differ, which error text stops the client, and what a whole
  vertical-scale exchange leaves on each side.
 */
module Protocol {
  import opened Wrappers
  import opened Text
  import opened Instrument
  import opened Scope
  import opened Session
  import Dispatch

  // ---------------------------------------------------------------------------
  // Tag tests on a known prefix followed by a value
  // ---------------------------------------------------------------------------

  /** A prefix without '-' and 'R', followed by a value without ']', has no channel or error tag. */
  lemma NoChannelOrError(p: string, v: string)
    requires '-' !in p && 'R' !in p && ']' !in v
    ensures !Contains(p + v, "[C-1]") && !Contains(p + v, "[C-2]") && !Contains(p + v, "[ERROR]")
  {
    AbsentAfter(p, v, "[C-1]", '-');
    AbsentAfter(p, v, "[C-2]", '-');
    AbsentAfter(p, v, "[ERROR]", 'R');
  }

  /** The acknowledgement head the client expects for sub-tag i. */
  function AckHead(i: nat): string
    requires i < |SubTags|
  {
    "[INFO]" + SubTags[i].tag
  }

  /** Every sub-tag ends in ']'. */
  lemma SubTagsBracketed()
    ensures forall j :: 0 <= j < |SubTags| ==> |SubTags[j].tag| > 0 && SubTags[j].tag[|SubTags[j].tag| - 1] == ']'
  {
  }

  /**
    What the generic acknowledgement lemma needs about sub-tag i, the acknowledgement tag and
    the characters that tell the earlier sub-tags apart from it.
   */
  ghost predicate AckReady(i: nat, tag: string, marks: string, chars: string) {
    && i < |SubTags| && tag == AckHead(i) + ":" && ':' !in SubTags[i].tag
    && '-' in chars && 'R' in chars && (forall c :: c in chars ==> c !in tag)
    && |marks| == i && forall j :: 0 <= j < i ==> marks[j] in SubTags[j].tag && marks[j] in chars
  }

  /**
    The text `[INFO]` + sub-tag i + `:` + value assigns the converted value to sub-tag i's
    field. The earlier sub-tags cannot occur: each has a character, named in `marks`, that is
    one of `chars`, none of which the head holds.
   */
  lemma AckAssigns(s: View, i: nat, tag: string, marks: string, chars: string, f: Field, v: string, w: string)
    requires AckReady(i, tag, marks, chars) && SubTags[i].field == f
    requires ':' !in v && ']' !in v && Convert(SubTags[i].kind, v) == Some(w)
    ensures Received(s, tag + v) == s.(mirror := s.mirror.Update(f, w))
  {
    var head := AckHead(i);
    SubTagsBracketed();
    assert head + ":" + v == tag + v;
    forall j | 0 <= j < i ensures !Contains(head + ":" + v, SubTags[j].tag) {
      AbsentAfter(tag, v, SubTags[j].tag, marks[j]);
    }
    NoChannelOrError(tag, v);
    ContainsAt(head, "[INFO]", 0);
    ContainsAt(head, SubTags[i].tag, 6);
    InfoAssigns(head, v, i);
  }

  /**
    An `[INFO]` text whose prefix holds no channel or error tag and none of the sub-tags,
    followed by a value without ']', changes nothing on the client.
   */
  lemma InfoIgnored(s: View, p: string, marks: string, chars: string, v: string)
    requires |p| >= 6 && p[..6] == "[INFO]"
    requires '-' in chars && 'R' in chars && forall c :: c in chars ==> c !in p
    requires |marks| == |SubTags|
    requires forall j :: 0 <= j < |SubTags| ==> marks[j] in SubTags[j].tag && marks[j] in chars
    requires ']' !in v
    ensures Received(s, p + v) == s
  {
    SubTagsBracketed();
    NoChannelOrError(p, v);
    ContainsAt(p, "[INFO]", 0);
    ContainsExtend(p, v, "[INFO]");
    forall k | 0 <= k < |SubTags| ensures !Contains(p + v, SubTags[k].tag) {
      AbsentAfter(p, v, SubTags[k].tag, marks[k]);
    }
    assert (p + v)[..6] == "[INFO]";
  }

  /** An error report with a colon and no channel tag changes nothing on the client. */
  lemma ColonErrorIgnored(s: View, data: string)
    requires |data| >= 8 && data[..8] == "[ERROR]:" && '-' !in data
    ensures Received(s, data) == s
  {
    Absent(data, "[C-1]", '-');
    Absent(data, "[C-2]", '-');
    ContainsAt(data, "[ERROR]", 0);
    TokenOneExists(data);
    assert data[7] == ':';
  }

  /** An error report without a colon: taking its token raises and the client stops. */
  lemma ColonlessErrorStops(s: View, data: string)
    requires |data| >= 7 && data[..7] == "[ERROR]" && ':' !in data && '-' !in data
    ensures Received(s, data) == s.(listening := false)
  {
    Absent(data, "[C-1]", '-');
    Absent(data, "[C-2]", '-');
    ContainsAt(data, "[ERROR]", 0);
    TokenOneExists(data);
  }

  // ---------------------------------------------------------------------------
  // Acknowledgements that reach the mirror
  // ---------------------------------------------------------------------------

  /** The form in which a setter's read-back value is accepted by the client's conversion. */
  predicate MirrorsAs(a: Action, v: string) {
    match a
    case ChangeTimeScale(_) => ParseFloat(v) == Some(v)
    case ChangeTimeOffset(_) => ParseFloat(v) == Some(v)
    case ChangeTriggerLevel(_) => ParseFloat(v) == Some(v)
    case ChangeSamplesPerRead(_) => IsIntText(v)
    case _ => ':' !in v && ']' !in v
  }

  // Each literal fact below is proved in a lemma of its own, so that the solver evaluates one
  // literal text at a time; the acknowledgement lemmas only combine them.


  lemma TimeScaleTagForm()
    ensures TimeScaleTag == AckHead(2) + ":"
  {
  }

  lemma TimeScaleTagChars()
    ensures forall c :: c in "-R" ==> c !in TimeScaleTag
  {
  }

  lemma TimeScaleTagMarks()
    ensures ':' !in SubTags[2].tag
    ensures forall j :: 0 <= j < 2 ==> "--"[j] in SubTags[j].tag && "--"[j] in "-R"
  {
  }

  lemma TimeScaleReady()
    ensures AckReady(2, TimeScaleTag, "--", "-R") && SubTags[2].field == TimeScale
  {
    TimeScaleTagForm();
    TimeScaleTagChars();
    TimeScaleTagMarks();
  }

  lemma TimeScaleConverts(v: string)
    requires ParseFloat(v) == Some(v)
    ensures Convert(SubTags[2].kind, v) == Some(v) && ':' !in v && ']' !in v
  {
    FloatTokenChars(v);
  }

  lemma TimeScaleAck(s: View, v: string)
    requires ParseFloat(v) == Some(v)
    ensures Received(s, TimeScaleTag + v) == s.(mirror := s.mirror.Update(TimeScale, v))
  {
    TimeScaleConverts(v);
    TimeScaleReady();
    AckAssigns(s, 2, TimeScaleTag, "--", "-R", TimeScale, v, v);
  }

  lemma SamplesTagForm()
    ensures SamplesTag == AckHead(3) + ":"
  {
  }

  lemma SamplesTagChars()
    ensures forall c :: c in "-RT" ==> c !in SamplesTag
  {
  }

  lemma SamplesTagMarks()
    ensures ':' !in SubTags[3].tag
    ensures forall j :: 0 <= j < 3 ==> "--T"[j] in SubTags[j].tag && "--T"[j] in "-RT"
  {
  }

  lemma SamplesReady()
    ensures AckReady(3, SamplesTag, "--T", "-RT") && SubTags[3].field == Samples
  {
    SamplesTagForm();
    SamplesTagChars();
    SamplesTagMarks();
  }

  lemma IntConverts(n: int)
    ensures Convert(IntValue, IntText(n)) == Some(IntText(n)) && ':' !in IntText(n) && ']' !in IntText(n)
  {
    IntTextRoundTrip(n);
    IntTextChars(n);
  }

  lemma SamplesKind()
    ensures SubTags[3].kind == IntValue
  {
  }

  lemma SamplesConverts(n: int)
    ensures Convert(SubTags[3].kind, IntText(n)) == Some(IntText(n)) && ':' !in IntText(n) && ']' !in IntText(n)
  {
    IntConverts(n);
    SamplesKind();
  }

  /** The samples acknowledgement of an integer overwrites the mirrored samples with its text. */
  lemma SamplesAck(s: View, n: int)
    ensures Received(s, SamplesTag + IntText(n)) == s.(mirror := s.mirror.Update(Samples, IntText(n)))
  {
    SamplesConverts(n);
    SamplesReady();
    AckAssigns(s, 3, SamplesTag, "--T", "-RT", Samples, IntText(n), IntText(n));
  }

  lemma TriggerSourceTagForm()
    ensures TriggerSourceTag == AckHead(5) + ":"
  {
  }

  lemma TriggerSourceTagChars()
    ensures forall c :: c in "-Rm" ==> c !in TriggerSourceTag
  {
  }

  lemma TriggerSourceTagMarks()
    ensures ':' !in SubTags[5].tag
    ensures forall j :: 0 <= j < 5 ==> "--mmm"[j] in SubTags[j].tag && "--mmm"[j] in "-Rm"
  {
  }

  lemma TriggerSourceReady()
    ensures AckReady(5, TriggerSourceTag, "--mmm", "-Rm") && SubTags[5].field == TriggerChannel
  {
    TriggerSourceTagForm();
    TriggerSourceTagChars();
    TriggerSourceTagMarks();
  }

  lemma TriggerSourceConverts(v: string)
    requires ':' !in v && ']' !in v
    ensures Convert(SubTags[5].kind, v) == Some(v) && ':' !in v && ']' !in v
  {
  }

  lemma TriggerSourceAck(s: View, v: string)
    requires ':' !in v && ']' !in v
    ensures Received(s, TriggerSourceTag + v) == s.(mirror := s.mirror.Update(TriggerChannel, v))
  {
    TriggerSourceConverts(v);
    TriggerSourceReady();
    AckAssigns(s, 5, TriggerSourceTag, "--mmm", "-Rm", TriggerChannel, v, v);
  }

  lemma TriggerLevelTagForm()
    ensures TriggerLevelTag == AckHead(6) + ":"
  {
  }

  lemma TriggerLevelTagChars()
    ensures forall c :: c in "-RmS" ==> c !in TriggerLevelTag
  {
  }

  lemma TriggerLevelTagMarks()
    ensures ':' !in SubTags[6].tag
    ensures forall j :: 0 <= j < 6 ==> "--mmmS"[j] in SubTags[j].tag && "--mmmS"[j] in "-RmS"
  {
  }

  lemma TriggerLevelReady()
    ensures AckReady(6, TriggerLevelTag, "--mmmS", "-RmS") && SubTags[6].field == TriggerLevel
  {
    TriggerLevelTagForm();
    TriggerLevelTagChars();
    TriggerLevelTagMarks();
  }

  lemma TriggerLevelConverts(v: string)
    requires ParseFloat(v) == Some(v)
    ensures Convert(SubTags[6].kind, v) == Some(v) && ':' !in v && ']' !in v
  {
    FloatTokenChars(v);
  }

  lemma TriggerLevelAck(s: View, v: string)
    requires ParseFloat(v) == Some(v)
    ensures Received(s, TriggerLevelTag + v) == s.(mirror := s.mirror.Update(TriggerLevel, v))
  {
    TriggerLevelConverts(v);
    TriggerLevelReady();
    AckAssigns(s, 6, TriggerLevelTag, "--mmmS", "-RmS", TriggerLevel, v, v);
  }

  lemma TriggerCouplingTagForm()
    ensures TriggerCouplingTag == AckHead(7) + ":"
  {
  }

  lemma TriggerCouplingTagChars()
    ensures forall c :: c in "-RmSL" ==> c !in TriggerCouplingTag
  {
  }

  lemma TriggerCouplingTagMarks()
    ensures ':' !in SubTags[7].tag
    ensures forall j :: 0 <= j < 7 ==> "--mmmSL"[j] in SubTags[j].tag && "--mmmSL"[j] in "-RmSL"
  {
  }

  lemma TriggerCouplingReady()
    ensures AckReady(7, TriggerCouplingTag, "--mmmSL", "-RmSL") && SubTags[7].field == TriggerCoupling
  {
    TriggerCouplingTagForm();
    TriggerCouplingTagChars();
    TriggerCouplingTagMarks();
  }

  lemma TriggerCouplingConverts(v: string)
    requires ':' !in v && ']' !in v
    ensures Convert(SubTags[7].kind, v) == Some(v) && ':' !in v && ']' !in v
  {
  }

  lemma TriggerCouplingAck(s: View, v: string)
    requires ':' !in v && ']' !in v
    ensures Received(s, TriggerCouplingTag + v) == s.(mirror := s.mirror.Update(TriggerCoupling, v))
  {
    TriggerCouplingConverts(v);
    TriggerCouplingReady();
    AckAssigns(s, 7, TriggerCouplingTag, "--mmmSL", "-RmSL", TriggerCoupling, v, v);
  }

  lemma TriggerSlopeTagForm()
    ensures TriggerSlopeTag == AckHead(8) + ":"
  {
  }

  lemma TriggerSlopeTagChars()
    ensures forall c :: c in "-RmuLC" ==> c !in TriggerSlopeTag
  {
  }

  lemma TriggerSlopeTagMarks()
    ensures ':' !in SubTags[8].tag
    ensures forall j :: 0 <= j < 8 ==> "--mmmuLC"[j] in SubTags[j].tag && "--mmmuLC"[j] in "-RmuLC"
  {
  }

  lemma TriggerSlopeReady()
    ensures AckReady(8, TriggerSlopeTag, "--mmmuLC", "-RmuLC") && SubTags[8].field == TriggerSlope
  {
    TriggerSlopeTagForm();
    TriggerSlopeTagChars();
    TriggerSlopeTagMarks();
  }

  lemma TriggerSlopeConverts(v: string)
    requires ':' !in v && ']' !in v
    ensures Convert(SubTags[8].kind, v) == Some(v) && ':' !in v && ']' !in v
  {
  }

  lemma TriggerSlopeAck(s: View, v: string)
    requires ':' !in v && ']' !in v
    ensures Received(s, TriggerSlopeTag + v) == s.(mirror := s.mirror.Update(TriggerSlope, v))
  {
    TriggerSlopeConverts(v);
    TriggerSlopeReady();
    AckAssigns(s, 8, TriggerSlopeTag, "--mmmuLC", "-RmuLC", TriggerSlope, v, v);
  }

  lemma TriggerModeTagForm()
    ensures TriggerModeTag == AckHead(9) + ":"
  {
  }

  lemma TriggerModeTagChars()
    ensures forall c :: c in "-RmSLC" ==> c !in TriggerModeTag
  {
  }

  lemma TriggerModeTagMarks()
    ensures ':' !in SubTags[9].tag
    ensures forall j :: 0 <= j < 9 ==> "--mmmSLCS"[j] in SubTags[j].tag && "--mmmSLCS"[j] in "-RmSLC"
  {
  }

  lemma TriggerModeReady()
    ensures AckReady(9, TriggerModeTag, "--mmmSLCS", "-RmSLC") && SubTags[9].field == TriggerMode
  {
    TriggerModeTagForm();
    TriggerModeTagChars();
    TriggerModeTagMarks();
  }

  lemma TriggerModeConverts(v: string)
    requires ':' !in v && ']' !in v
    ensures Convert(SubTags[9].kind, v) == Some(v) && ':' !in v && ']' !in v
  {
  }

  lemma TriggerModeAck(s: View, v: string)
    requires ':' !in v && ']' !in v
    ensures Received(s, TriggerModeTag + v) == s.(mirror := s.mirror.Update(TriggerMode, v))
  {
    TriggerModeConverts(v);
    TriggerModeReady();
    AckAssigns(s, 9, TriggerModeTag, "--mmmSLCS", "-RmSLC", TriggerMode, v, v);
  }

  lemma TimeOffsetTagForm()
    ensures TimeOffsetTag == AckHead(10) + ":"
  {
  }

  lemma TimeOffsetTagChars()
    ensures forall c :: c in "-RTm" ==> c !in TimeOffsetTag
  {
  }

  lemma TimeOffsetTagMarks()
    ensures ':' !in SubTags[10].tag
    ensures forall j :: 0 <= j < 10 ==> "--TmmTTTTT"[j] in SubTags[j].tag && "--TmmTTTTT"[j] in "-RTm"
  {
  }

  lemma TimeOffsetReady()
    ensures AckReady(10, TimeOffsetTag, "--TmmTTTTT", "-RTm") && SubTags[10].field == TimeOffset
  {
    TimeOffsetTagForm();
    TimeOffsetTagChars();
    TimeOffsetTagMarks();
  }

  lemma TimeOffsetConverts(v: string)
    requires ParseFloat(v) == Some(v)
    ensures Convert(SubTags[10].kind, v) == Some(v) && ':' !in v && ']' !in v
  {
    FloatTokenChars(v);
  }

  lemma TimeOffsetAck(s: View, v: string)
    requires ParseFloat(v) == Some(v)
    ensures Received(s, TimeOffsetTag + v) == s.(mirror := s.mirror.Update(TimeOffset, v))
  {
    TimeOffsetConverts(v);
    TimeOffsetReady();
    AckAssigns(s, 10, TimeOffsetTag, "--TmmTTTTT", "-RTm", TimeOffset, v, v);
  }

  /**
    The acknowledgement of the time-scale, time-offset, samples and trigger setters overwrites
    exactly the matching field of the client's mirror with the reported value.
   */
  lemma AckMirrored(s: View, a: Action, v: string)
    requires IsSetter(a) && !Rejected(a) && !a.ChangeVerticalScale? && !a.ChangeSamplingRate?
    requires MirrorsAs(a, v)
    ensures Received(s, SuccessTag(a) + v) == s.(mirror := s.mirror.Update(TargetField(a), v))
  {
    match a
    case ChangeTimeScale(_) => TimeScaleAck(s, v);
    case ChangeTimeOffset(_) => TimeOffsetAck(s, v);
    case ChangeSamplesPerRead(_) =>
      var n := ParseInt(v).value;
      assert v == IntText(n);
      SamplesAck(s, n);
    case ChangeTriggerSource(_) => TriggerSourceAck(s, v);
    case ChangeTriggerLevel(_) => TriggerLevelAck(s, v);
    case ChangeTriggerCoupling(_) => TriggerCouplingAck(s, v);
    case ChangeTriggerSlope(_) => TriggerSlopeAck(s, v);
    case ChangeTriggerMode(_) => TriggerModeAck(s, v);
  }

  // ---------------------------------------------------------------------------
  // Acknowledgements the client drops
  // ---------------------------------------------------------------------------

  /** The characters telling each sub-tag apart from the texts below. */
  const Unmarked := "--TmmTTTTTH"

  lemma UnmarkedTags()
    ensures forall j :: 0 <= j < |SubTags| ==> Unmarked[j] in SubTags[j].tag && Unmarked[j] in "-RTmH"
  {
  }

  lemma VerticalScaleTagPrefix()
    ensures |VerticalScaleTag| >= 6 && VerticalScaleTag[..6] == "[INFO]"
  {
  }

  lemma VerticalScaleTagChars()
    ensures forall c :: c in "-RTmH" ==> c !in VerticalScaleTag
  {
  }

  /**
    Both vertical-scale acknowledgements read `[C1 Vertical Scale]`, while the client looks
    for `[C1-Vertical Scale]` and `[C2-Vertical Scale]`: the client changes nothing.
   */
  lemma VerticalScaleAckIgnored(s: View, v: string)
    requires ']' !in v
    ensures Received(s, VerticalScaleTag + v) == s
  {
    VerticalScaleTagPrefix();
    VerticalScaleTagChars();
    UnmarkedTags();
    InfoIgnored(s, VerticalScaleTag, Unmarked, "-RTmH", v);
  }

  lemma SamplingRateTagPrefix()
    ensures |SamplingRateTag| >= 6 && SamplingRateTag[..6] == "[INFO]"
  {
  }

  lemma SamplingRateTagChars()
    ensures forall c :: c in "-RTmH" ==> c !in SamplingRateTag
  {
  }

  /** The sampling-rate acknowledgement has no sub-tag at all: the client changes nothing. */
  lemma SamplingRateAckIgnored(s: View, v: string)
    requires ']' !in v
    ensures Received(s, SamplingRateTag + v) == s
  {
    SamplingRateTagPrefix();
    SamplingRateTagChars();
    UnmarkedTags();
    InfoIgnored(s, SamplingRateTag, Unmarked, "-RTmH", v);
  }

  lemma AutoSetupDonePrefix()
    ensures |AutoSetupDone| >= 6 && AutoSetupDone[..6] == "[INFO]"
  {
  }

  lemma AutoSetupDoneChars()
    ensures forall c :: c in "-RTmH" ==> c !in AutoSetupDone
  {
  }

  lemma ExitDonePrefix()
    ensures |ExitDone| >= 6 && ExitDone[..6] == "[INFO]"
  {
  }

  lemma ExitDoneChars()
    ensures forall c :: c in "-RTmH" ==> c !in ExitDone
  {
  }

  /** The auto-setup and exit confirmations change nothing on the client. */
  lemma ConfirmationsIgnored(s: View)
    ensures Received(s, AutoSetupDone) == s && Received(s, ExitDone) == s
  {
    // Each confirmation is read as an information prefix followed by an empty value.
    assert AutoSetupDone + "" == AutoSetupDone && ExitDone + "" == ExitDone;
    UnmarkedTags();
    AutoSetupDonePrefix();
    AutoSetupDoneChars();
    InfoIgnored(s, AutoSetupDone, Unmarked, "-RTmH", "");
    ExitDonePrefix();
    ExitDoneChars();
    InfoIgnored(s, ExitDone, Unmarked, "-RTmH", "");
  }

  // ---------------------------------------------------------------------------
  // Error replies
  // ---------------------------------------------------------------------------

  /** The failure texts of the time-scale and time-offset setters start with `[ERROR]:` and have no '-'. */
  lemma TimeFailureShape(a: Action)
    requires a.ChangeTimeScale? || a.ChangeTimeOffset?
    ensures |FailureText(a)| >= 8 && FailureText(a)[..8] == "[ERROR]:" && '-' !in FailureText(a)
  {
  }

  /** The same for the samples and sampling-rate setters. */
  lemma SamplingFailureShape(a: Action)
    requires a.ChangeSamplesPerRead? || a.ChangeSamplingRate?
    ensures |FailureText(a)| >= 8 && FailureText(a)[..8] == "[ERROR]:" && '-' !in FailureText(a)
  {
  }

  /** The same for the vertical-scale setter and `exit`. */
  lemma ChannelFailureShape(a: Action)
    requires a.ChangeVerticalScale? || a.Exit?
    ensures |FailureText(a)| >= 8 && FailureText(a)[..8] == "[ERROR]:" && '-' !in FailureText(a)
  {
  }

  /** The same for the trigger-source and trigger-level setters. */
  lemma TriggerSourceFailureShape(a: Action)
    requires a.ChangeTriggerSource? || a.ChangeTriggerLevel?
    ensures |FailureText(a)| >= 8 && FailureText(a)[..8] == "[ERROR]:" && '-' !in FailureText(a)
  {
  }

  /** The same for the coupling, slope and mode setters. */
  lemma TriggerFailureShape(a: Action)
    requires a.ChangeTriggerCoupling? || a.ChangeTriggerSlope? || a.ChangeTriggerMode?
    ensures |FailureText(a)| >= 8 && FailureText(a)[..8] == "[ERROR]:" && '-' !in FailureText(a)
  {
  }

  /** Every failure text but the auto-setup one has a colon, so the client only prints it. */
  lemma FailuresIgnored(s: View, a: Action)
    requires !a.AutoSetup?
    ensures Received(s, FailureText(a)) == s
  {
    if a.ChangeTimeScale? || a.ChangeTimeOffset? {
      TimeFailureShape(a);
    } else if a.ChangeSamplesPerRead? || a.ChangeSamplingRate? {
      SamplingFailureShape(a);
    } else if a.ChangeVerticalScale? || a.Exit? {
      ChannelFailureShape(a);
    } else if a.ChangeTriggerSource? || a.ChangeTriggerLevel? {
      TriggerSourceFailureShape(a);
    } else {
      TriggerFailureShape(a);
    }
    ColonErrorIgnored(s, FailureText(a));
  }

  lemma ChannelRejectionShape(a: Action)
    requires Rejected(a) && (a.ChangeVerticalScale? || a.ChangeTriggerSource?)
    ensures |RejectionText(a)| >= 8 && RejectionText(a)[..8] == "[ERROR]:" && '-' !in RejectionText(a)
  {
  }

  lemma NameRejectionShape(a: Action)
    requires Rejected(a) && (a.ChangeTriggerCoupling? || a.ChangeTriggerSlope? || a.ChangeTriggerMode?)
    ensures |RejectionText(a)| >= 8 && RejectionText(a)[..8] == "[ERROR]:" && '-' !in RejectionText(a)
  {
  }

  /** Every rejection text of a setter changes nothing on the client. */
  lemma RejectionsIgnored(s: View, a: Action)
    requires Rejected(a)
    ensures Received(s, RejectionText(a)) == s
  {
    if a.ChangeVerticalScale? || a.ChangeTriggerSource? {
      ChannelRejectionShape(a);
    } else {
      NameRejectionShape(a);
    }
    ColonErrorIgnored(s, RejectionText(a));
  }

  lemma AutoSetupFailedShape()
    ensures |AutoSetupFailed| >= 7 && AutoSetupFailed[..7] == "[ERROR]"
    ensures ':' !in AutoSetupFailed && '-' !in AutoSetupFailed
  {
  }

  /** `[ERROR] Could not do auto setup` has no colon: taking its token raises and stops the client. */
  lemma AutoSetupFailureStopsClient(s: View)
    ensures Received(s, AutoSetupFailed) == s.(listening := false)
  {
    AutoSetupFailedShape();
    ColonlessErrorStops(s, AutoSetupFailed);
  }

  // ---------------------------------------------------------------------------
  // Data messages
  // ---------------------------------------------------------------------------

  /**
    The server's data message for channel 1 or 2 is stored as that channel's data and
    appended to its log, when the data itself holds no ':' or ']'.
   */
  lemma ChannelMessageReceived(s: View, channel: int, d: string)
    requires channel == 1 || channel == 2
    requires ':' !in d && ']' !in d
    ensures Received(s, Dispatch.ChannelMessage(channel, d)) ==
      if channel == 1 then s.(ch1Data := Some(d), channel1File := s.channel1File + [d])
      else s.(ch2Data := Some(d), channel2File := s.channel2File + [d])
  {
    var head := if channel == 1 then "[C-1]" else "[C-2]";
    assert IntText(channel) == if channel == 1 then "1" else "2";
    assert Dispatch.ChannelMessage(channel, d) == head + ":" + d;
    ContainsAt(head, head, 0);
    ContainsExtend(head, ":" + d, head);
    assert head + ":" + d == head + (":" + d);
    if channel == 2 {
      AbsentAfter("[C-2]:", d, "[C-1]", '1');
      assert head + ":" + d == "[C-2]:" + d;
    }
    TokenAfterHead(head, d);
  }

  // ---------------------------------------------------------------------------
  // Whole exchanges
  // ---------------------------------------------------------------------------

  /** A device whose answers never contain ']'. */
  ghost predicate BracketFree(ans: Answer) {
    forall h, a :: ans(h, a).Some? ==> ']' !in ans(h, a).value
  }

  /**
    Whatever `change_vertical_scale` replies, the client's mirror is left as it was, although
    on success the wrapper has stored the device's read-back value.
   */
  lemma VerticalScaleNeverMirrored(c: Config, ans: Answer, h: seq<Access>, s: View, channel: int, scale: string)
    requires BracketFree(ans)
    ensures var o := Perform(c, ans, h, ChangeVerticalScale(channel, scale));
      Received(s, o.reply) == s
  {
    var a := ChangeVerticalScale(channel, scale);
    var o := Perform(c, ans, h, a);
    FailuresIgnored(s, a);
    if Rejected(a) {
      RejectedArgumentsSkipDevice(c, ans, h, a);
      RejectionsIgnored(s, a);
    } else if o.reply != FailureText(a) {
      ReplyReportsStoredValue(c, ans, h, a);
      SetterStoresReadBack(c, ans, h, a);
      VerticalScaleAckIgnored(s, o.config.Value(TargetField(a)));
    }
  }

  /** Whatever `change_sampling_rate` replies, the client's mirror is left as it was. */
  lemma SamplingRateNeverMirrored(c: Config, ans: Answer, h: seq<Access>, s: View, rate: int)
    requires BracketFree(ans)
    ensures Received(s, Perform(c, ans, h, ChangeSamplingRate(rate)).reply) == s
  {
    var a := ChangeSamplingRate(rate);
    var o := Perform(c, ans, h, a);
    FailuresIgnored(s, a);
    if o.reply != FailureText(a) {
      ReplyReportsStoredValue(c, ans, h, a);
      SetterStoresReadBack(c, ans, h, a);
      SamplingRateAckIgnored(s, o.config.Value(TargetField(a)));
    }
  }

  /**
    The full exchange for `change vertical scale:<channel>:<scale>`: the server sends one
    message; the client leaves its mirror unchanged; and when the device accepted the value,
    the server side holds the read-back value in that channel's field.
   */
  lemma VerticalScaleExchange(c: Config, ans: Answer, h: seq<Access>, s: View, channel: int, v: string)
    requires BracketFree(ans)
    requires channel == 1 || channel == 2
    requires ParseFloat(v).Some?
    ensures var data := "change vertical scale" + ":" + IntText(channel) + ":" + v;
      var step := Dispatch.React(c, ans, h, data);
      var w := Put(VerScale(channel), ParseFloat(v).value);
      var g := Get(VerScale(channel));
      var f := if channel == 1 then C1VerticalScale else C2VerticalScale;
      && |step.sent| == 1 && step.listening
      && Received(s, step.sent[0]) == s
      && (ans(h, w).Some? && ans(h + [w], g).Some? ==> step.config.Value(f) == ans(h + [w], g).value)
  {
    var data := "change vertical scale" + ":" + IntText(channel) + ":" + v;
    var a := ChangeVerticalScale(channel, ParseFloat(v).value);
    Dispatch.VerticalScaleCommandParses(channel, v);
    assert data != "" by { assert |data| >= 21; }
    Dispatch.ConfigureSendsReply(c, ans, h, data, a);
    VerticalScaleNeverMirrored(c, ans, h, s, channel, ParseFloat(v).value);
    SetterStoresReadBack(c, ans, h, a);
  }
}
