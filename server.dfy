/**
  The command dispatcher of server.py (`Server.__listen`): every text received from the
  client is matched against a fixed, ordered list of command phrases, its arguments are
  taken from the colon-separated tokens, one oscilloscope operation is called and its
  reply is queued for sending. `Classify`, `Parse` and `React` state what one received
  text does; the class `Server` keeps the outbound queue and is proved against `React`.
 */
module Dispatch {
  import opened Wrappers
  import opened Text
  import opened Instrument
  import opened Scope

  // ---------------------------------------------------------------------------
  // Phrase classification
  // ---------------------------------------------------------------------------

  datatype Command =
    | TimeScaleCmd | TimeOffsetCmd | VerticalScaleCmd | SamplesCmd | SamplingRateCmd
    | AutoSetupCmd | ExitCmd
    | TriggerSourceCmd | TriggerLevelCmd | TriggerCouplingCmd | TriggerSlopeCmd | TriggerModeCmd
    | ReadOnceCmd | ReadTriggerCmd

  /** The substring that selects a command. The four trigger edge commands include the colon. */
  function Phrase(cmd: Command): string {
    match cmd
    case TimeScaleCmd => "change time scale"
    case TimeOffsetCmd => "change time offset"
    case VerticalScaleCmd => "change vertical scale"
    case SamplesCmd => "change samples per read"
    case SamplingRateCmd => "change sampling rate"
    case AutoSetupCmd => "auto setup"
    case ExitCmd => "exit"
    case TriggerSourceCmd => "set trigger source:"
    case TriggerLevelCmd => "set trigger level:"
    case TriggerCouplingCmd => "set trigger coupling:"
    case TriggerSlopeCmd => "set trigger slope:"
    case TriggerModeCmd => "change trigger mode"
    case ReadOnceCmd => "read once"
    case ReadTriggerCmd => "read trigger"
  }

  /** The order in which the phrases are tested. */
  const Order: seq<Command> := [
    TimeScaleCmd, TimeOffsetCmd, VerticalScaleCmd, SamplesCmd, SamplingRateCmd,
    AutoSetupCmd, ExitCmd,
    TriggerSourceCmd, TriggerLevelCmd, TriggerCouplingCmd, TriggerSlopeCmd, TriggerModeCmd,
    ReadOnceCmd, ReadTriggerCmd]

  /** The first command of `cmds` whose phrase occurs in `data`. */
  function FirstMatch(data: string, cmds: seq<Command>): (r: Option<Command>)
    ensures r.Some? ==> r.value in cmds && Contains(data, Phrase(r.value))
    ensures r.None? ==> forall k :: 0 <= k < |cmds| ==> !Contains(data, Phrase(cmds[k]))
  {
    if |cmds| == 0 then None
    else if Contains(data, Phrase(cmds[0])) then Some(cmds[0])
    else FirstMatch(data, cmds[1..])
  }

  function Classify(data: string): Option<Command> {
    FirstMatch(data, Order)
  }

  /** A command whose phrase occurs, with no earlier phrase occurring, is the one selected. */
  lemma {:induction false} FirstMatchEarliest(data: string, cmds: seq<Command>, i: nat)
    requires i < |cmds| && Contains(data, Phrase(cmds[i]))
    requires forall j :: 0 <= j < i ==> !Contains(data, Phrase(cmds[j]))
    ensures FirstMatch(data, cmds) == Some(cmds[i])
  {
    if i > 0 {
      FirstMatchEarliest(data, cmds[1..], i - 1);
    }
  }

  /** The selected command sits at a position before which no phrase occurs. */
  lemma {:induction false} FirstMatchPosition(data: string, cmds: seq<Command>)
    requires FirstMatch(data, cmds).Some?
    ensures exists i ::
      (0 <= i < |cmds| && cmds[i] == FirstMatch(data, cmds).value
       && forall j :: 0 <= j < i ==> !Contains(data, Phrase(cmds[j])))
  {
    if !Contains(data, Phrase(cmds[0])) {
      FirstMatchPosition(data, cmds[1..]);
      var i :| 0 <= i < |cmds[1..]| && cmds[1..][i] == FirstMatch(data, cmds[1..]).value
        && (forall j :: 0 <= j < i ==> !Contains(data, Phrase(cmds[1..][j])));
      assert cmds[i + 1] == FirstMatch(data, cmds).value;
      forall j | 0 <= j < i + 1
        ensures !Contains(data, Phrase(cmds[j]))
      {
        if j > 0 { assert cmds[j] == cmds[1..][j - 1]; }
      }
    }
  }

  lemma OrderDistinct()
    ensures forall i, j :: 0 <= i < j < |Order| ==> Order[i] != Order[j]
  {
  }

  /**
    The command at position i of the order is selected exactly when its phrase occurs in the
    text and none of the earlier phrases does.
   */
  lemma ClassifyFirstMatching(data: string, i: nat)
    requires i < |Order|
    ensures Classify(data) == Some(Order[i]) <==>
      Contains(data, Phrase(Order[i])) && forall j :: 0 <= j < i ==> !Contains(data, Phrase(Order[j]))
  {
    if Contains(data, Phrase(Order[i])) && forall j :: 0 <= j < i ==> !Contains(data, Phrase(Order[j])) {
      FirstMatchEarliest(data, Order, i);
    }
    if Classify(data) == Some(Order[i]) {
      FirstMatchPosition(data, Order);
      var k :| 0 <= k < |Order| && Order[k] == Order[i]
        && (forall j :: 0 <= j < k ==> !Contains(data, Phrase(Order[j])));
      OrderDistinct();
      assert k == i;
    }
  }

  /** A text containing no phrase is classified as no command at all. */
  lemma ClassifyNone(data: string)
    ensures Classify(data).None? <==> forall k :: 0 <= k < |Order| ==> !Contains(data, Phrase(Order[k]))
  {
    if Classify(data).Some? {
      FirstMatchPosition(data, Order);
    }
  }

  // ---------------------------------------------------------------------------
  // Argument extraction
  // ---------------------------------------------------------------------------

  /** What the selected branch asks of the oscilloscope. */
  datatype Request = Configure(action: Action) | ReadChannel(channel: int) | ReadTriggered

  /** No phrase matched; an argument was missing or not a number; or a request. */
  datatype Parsed = Unknown | Malformed | Request(request: Request)

  /** `float(data.split(':')[k])`, failing on a missing or non-numeric token. */
  function FloatArg(data: string, k: nat): Option<string> {
    var t := Token(data, k);
    if t.None? then None else ParseFloat(t.value)
  }

  /** `int(data.split(':')[k])`, failing on a missing or non-numeric token. */
  function IntArg(data: string, k: nat): Option<int> {
    var t := Token(data, k);
    if t.None? then None else ParseInt(t.value)
  }

  /** The vertical-scale arguments: `int` of token 1, then `float` of token 2. */
  function WithChannelAndFloat(data: string): Parsed {
    var ch := IntArg(data, 1);
    if ch.None? then Malformed
    else
      var x := FloatArg(data, 2);
      if x.None? then Malformed else Request(Configure(ChangeVerticalScale(ch.value, x.value)))
  }

  function WithFloat(data: string, make: string -> Action): Parsed {
    var x := FloatArg(data, 1);
    if x.None? then Malformed else Request(Configure(make(x.value)))
  }

  function WithInt(data: string, make: int -> Action): Parsed {
    var n := IntArg(data, 1);
    if n.None? then Malformed else Request(Configure(make(n.value)))
  }

  function WithText(data: string, make: string -> Action): Parsed {
    var t := Token(data, 1);
    if t.None? then Malformed else Request(Configure(make(t.value)))
  }

  /** The branch taken for `data` and the arguments it extracts. */
  function Parse(data: string): Parsed {
    match Classify(data)
    case None => Unknown
    case Some(cmd) => ParseAs(data, cmd)
  }

  /** The arguments the branch of `cmd` extracts from `data`. */
  function ParseAs(data: string, cmd: Command): Parsed {
    match cmd
    case TimeScaleCmd => WithFloat(data, x => ChangeTimeScale(x))
    case TimeOffsetCmd => WithFloat(data, x => ChangeTimeOffset(x))
    case VerticalScaleCmd => WithChannelAndFloat(data)
    case SamplesCmd => WithInt(data, n => ChangeSamplesPerRead(n))
    case SamplingRateCmd => WithInt(data, n => ChangeSamplingRate(n))
    case AutoSetupCmd => Request(Configure(AutoSetup))
    case ExitCmd => Request(Configure(Exit))
    case TriggerSourceCmd => WithInt(data, n => ChangeTriggerSource(n))
    case TriggerLevelCmd => WithFloat(data, x => ChangeTriggerLevel(x))
    case TriggerCouplingCmd => WithText(data, t => ChangeTriggerCoupling(t))
    case TriggerSlopeCmd => WithText(data, t => ChangeTriggerSlope(t))
    case TriggerModeCmd => WithText(data, t => ChangeTriggerMode(t))
    case ReadOnceCmd =>
      var n := IntArg(data, 1);
      if n.None? then Malformed else Request(ReadChannel(n.value))
    case ReadTriggerCmd => Request(ReadTriggered)
  }

  // ---------------------------------------------------------------------------
  // One received text
  // ---------------------------------------------------------------------------

  const InvalidCommand := "[ERROR]: Invalid Command"

  /** The data message for one channel. */
  function ChannelMessage(channel: int, data: string): string {
    "[C-" + IntText(channel) + "]:" + data
  }

  /**
    The new configuration, the device accesses, the messages queued for sending in order,
    and whether the loop goes on (an uncaught exception ends it).
   */
  datatype Step = Step(config: Config, accesses: seq<Access>, sent: seq<string>, listening: bool)

  function React(c: Config, ans: Answer, h: seq<Access>, data: string): Step {
    if data == "" then Step(c, [], [], true)
    else
      match Parse(data)
      case Unknown => Step(c, [], [InvalidCommand], true)
      case Malformed => Step(c, [], [], false)
      case Request(r) => Serve(c, ans, h, r)
  }

  /** The branch for a parsed request: call the oscilloscope and queue its replies. */
  function Serve(c: Config, ans: Answer, h: seq<Access>, r: Request): Step {
    match r
    case Configure(a) =>
      var o := Perform(c, ans, h, a);
      Step(o.config, o.accesses, [o.reply], true)
    case ReadChannel(ch) =>
      var run := ReadOnceSpec(c, ans, h, ch);
      if run.reading.Measured? then
        Step(c, run.accesses, [ChannelMessage(run.reading.channel, run.reading.data)], true)
      else
        Step(c, run.accesses, [], false)
    case ReadTriggered =>
      var run := ReadAroundTriggerSpec(c, ans, h);
      if run.capture.Captured? then
        Step(run.config, run.accesses, [ChannelMessage(1, run.capture.ch1), ChannelMessage(2, run.capture.ch2)], true)
      else
        Step(run.config, run.accesses, [], false)
  }

  // ---------------------------------------------------------------------------
  // Properties
  // ---------------------------------------------------------------------------

  /** Empty received data is skipped: no call, no message. */
  lemma EmptyDataIgnored(c: Config, ans: Answer, h: seq<Access>)
    ensures React(c, ans, h, "") == Step(c, [], [], true)
  {
  }

  /** A text matching no phrase gets exactly the invalid-command message and no oscilloscope call. */
  lemma UnknownCommandRejected(c: Config, ans: Answer, h: seq<Access>, data: string)
    requires data != ""
    requires forall k :: 0 <= k < |Order| ==> !Contains(data, Phrase(Order[k]))
    ensures React(c, ans, h, data) == Step(c, [], [InvalidCommand], true)
  {
    ClassifyNone(data);
  }

  /** A missing or non-numeric argument stops the loop before the oscilloscope is called. */
  lemma MalformedStopsBeforeCall(c: Config, ans: Answer, h: seq<Access>, data: string)
    requires data != "" && Parse(data) == Malformed
    ensures React(c, ans, h, data) == Step(c, [], [], false)
  {
  }

  /** The branches that parse arguments fail exactly when a needed token is missing or not a number. */
  lemma MalformedWhen(data: string)
    requires Classify(data).Some?
    ensures var cmd := Classify(data).value;
      Parse(data) == Malformed <==>
        || ((cmd == TimeScaleCmd || cmd == TimeOffsetCmd || cmd == TriggerLevelCmd) && FloatArg(data, 1).None?)
        || (cmd == VerticalScaleCmd && (IntArg(data, 1).None? || FloatArg(data, 2).None?))
        || ((cmd == SamplesCmd || cmd == SamplingRateCmd || cmd == TriggerSourceCmd || cmd == ReadOnceCmd)
            && IntArg(data, 1).None?)
        || ((cmd == TriggerCouplingCmd || cmd == TriggerSlopeCmd || cmd == TriggerModeCmd) && ':' !in data)
  {
    TokenOneExists(data);
  }

  /** A configuration command, auto setup or exit sends exactly one message: the operation's reply. */
  lemma ConfigureSendsReply(c: Config, ans: Answer, h: seq<Access>, data: string, a: Action)
    requires data != "" && Parse(data) == Request(Configure(a))
    ensures var s := React(c, ans, h, data);
      var o := Perform(c, ans, h, a);
      s.sent == [o.reply] && s.listening && s.config == o.config && s.accesses == o.accesses
  {
  }

  /**
    `read once` on channel 1 or 2 sends one message tagged with that channel; any other channel
    makes `read_once` return nothing, and unpacking it stops the loop; a device failure stops
    it too, and in both cases nothing is sent.
   */
  lemma ReadOnceMessage(c: Config, ans: Answer, h: seq<Access>, data: string, channel: int)
    requires data != "" && Parse(data) == Request(ReadChannel(channel))
    ensures var s := React(c, ans, h, data);
      var run := ReadOnceSpec(c, ans, h, channel);
      && s.config == c && s.accesses == run.accesses
      && (s.listening <==> run.reading.Measured?)
      && (!s.listening ==> s.sent == [])
      && (s.listening ==> (channel == 1 || channel == 2)
                          && s.sent == [ChannelMessage(channel, run.reading.data)])
      && (channel != 1 && channel != 2 ==> !s.listening && s.sent == [])
  {
    assert React(c, ans, h, data) == Serve(c, ans, h, ReadChannel(channel));
    ReadOnceOutcomes(c, ans, h, channel);
  }

  /**
    `read trigger` sends channel 1's message and then channel 2's, or on a timeout two zeros;
    a device failure stops the loop with nothing sent.
   */
  lemma ReadTriggerMessages(c: Config, ans: Answer, h: seq<Access>, data: string)
    requires data != "" && Parse(data) == Request(ReadTriggered)
    ensures var s := React(c, ans, h, data);
      var run := ReadAroundTriggerSpec(c, ans, h);
      && s.config == run.config && s.accesses == run.accesses
      && (s.listening <==> run.capture.Captured?)
      && (!s.listening ==> s.sent == [])
      && (s.listening ==> s.sent == [ChannelMessage(1, run.capture.ch1), ChannelMessage(2, run.capture.ch2)])
      && (run.capture == Captured("0", "0") ==> s.sent == ["[C-1]:0", "[C-2]:0"])
  {
    assert React(c, ans, h, data) == Serve(c, ans, h, ReadTriggered);
    TriggeredServed(c, ans, h);
  }

  /** The `read trigger` branch on its own, whatever text selected it. */
  lemma TriggeredServed(c: Config, ans: Answer, h: seq<Access>)
    ensures var s := Serve(c, ans, h, ReadTriggered);
      var run := ReadAroundTriggerSpec(c, ans, h);
      && s.config == run.config && s.accesses == run.accesses
      && (s.listening <==> run.capture.Captured?)
      && (!s.listening ==> s.sent == [])
      && (s.listening ==> s.sent == [ChannelMessage(1, run.capture.ch1), ChannelMessage(2, run.capture.ch2)])
      && (run.capture == Captured("0", "0") ==> s.sent == ["[C-1]:0", "[C-2]:0"])
  {
    assert ChannelMessage(1, "0") == "[C-1]:0" && ChannelMessage(2, "0") == "[C-2]:0";
  }

  /** A text starting with the time-scale phrase selects the time-scale command. */
  lemma TimeScaleClassified(v: string)
    ensures Classify("change time scale:" + v) == Some(TimeScaleCmd)
  {
    var data := "change time scale:" + v;
    assert data[..|Phrase(TimeScaleCmd)|] == Phrase(TimeScaleCmd);
    FirstMatchEarliest(data, Order, 0);
  }

  /** The time-scale command's argument is the token after the first colon. */
  lemma TimeScaleToken(v: string)
    requires ':' !in v
    ensures Token("change time scale:" + v, 1) == Some(v)
  {
    TokenAfterHead("change time scale", v);
    assert "change time scale" + ":" + v == "change time scale:" + v;
  }

  /** The time-scale command converts token 1 to a float and fails when it does not convert. */
  lemma TimeScaleBranch(data: string)
    requires Classify(data) == Some(TimeScaleCmd)
    ensures Parse(data) == if FloatArg(data, 1).None? then Malformed
                           else Request(Configure(ChangeTimeScale(FloatArg(data, 1).value)))
  {
  }

  /** A well-formed time-scale command carries its number through to the oscilloscope. */
  lemma TimeScaleCommandParses(v: string)
    requires ParseFloat(v).Some?
    ensures Parse("change time scale:" + v) == Request(Configure(ChangeTimeScale(ParseFloat(v).value)))
  {
    FloatTextChars(v);
    TimeScaleClassified(v);
    TimeScaleToken(v);
    TimeScaleBranch("change time scale:" + v);
  }

  /** The four edge-trigger commands are selected only when the text has a colon. */
  lemma EdgeCommandsNeedColon(data: string)
    requires ':' !in data
    ensures Classify(data) != Some(TriggerSourceCmd) && Classify(data) != Some(TriggerLevelCmd)
    ensures Classify(data) != Some(TriggerCouplingCmd) && Classify(data) != Some(TriggerSlopeCmd)
  {
    if Classify(data).Some? {
      var cmd := Classify(data).value;
      if cmd == TriggerSourceCmd || cmd == TriggerLevelCmd || cmd == TriggerCouplingCmd || cmd == TriggerSlopeCmd {
        Absent(data, Phrase(cmd), ':');
      }
    }
  }

  /** A text without any of the characters h, a, x and ':' contains none of the phrases. */
  lemma NoPhraseWithout(data: string)
    requires 'h' !in data && 'a' !in data && 'x' !in data && ':' !in data
    ensures Classify(data).None?
  {
    forall k | 0 <= k < |Order| ensures !Contains(data, Phrase(Order[k])) {
      var p := Phrase(Order[k]);
      if 'h' in p { Absent(data, p, 'h'); }
      else if 'a' in p { Absent(data, p, 'a'); }
      else if 'x' in p { Absent(data, p, 'x'); }
      else { Absent(data, p, ':'); }
    }
    ClassifyNone(data);
  }

  /** `set trigger source 1` (any channel number, no colon) is an invalid command. */
  lemma TriggerSourceNeedsColon(n: int)
    ensures Parse("set trigger source " + IntText(n)) == Unknown
  {
    var p := "set trigger source ";
    var data := p + IntText(n);
    IntTextChars(n);
    assert 'h' !in p && 'a' !in p && 'x' !in p && ':' !in p;
    forall k | 0 <= k < |data|
      ensures data[k] != 'h' && data[k] != 'a' && data[k] != 'x' && data[k] != ':'
    {
      if k < |p| { assert data[k] == p[k]; } else { assert data[k] == IntText(n)[k - |p|]; }
    }
    NoPhraseWithout(data);
  }

  /** Three colon-free pieces joined by colons split back into those pieces. */
  lemma ThreeTokens(a: string, b: string, c: string)
    requires ':' !in a && ':' !in b && ':' !in c
    ensures Split(a + ":" + b + ":" + c, ':') == [a, b, c]
  {
    assert a + ":" + b + ":" + c == a + [':'] + (b + [':'] + c);
    SplitAfter(a, ':', b + [':'] + c);
    SplitAfter(b, ':', c);
    SplitFree(c, ':');
  }

  /** The vertical-scale command for a numeric channel and a scale without m has no letter m. */
  lemma VerticalScaleCommandChars(n: string, v: string)
    requires forall i :: 0 <= i < |n| ==> IsDigit(n[i]) || n[i] == '-'
    requires 'm' !in v
    ensures 'm' !in "change vertical scale" + ":" + n + ":" + v
  {
    var p := "change vertical scale" + ":";
    var data := p + n + ":" + v;
    assert 'm' !in p;
    forall k | 0 <= k < |data| ensures data[k] != 'm' {
      if k < |p| { assert data[k] == p[k]; }
      else if k < |p| + |n| { assert data[k] == n[k - |p|]; }
      else if k > |p| + |n| { assert data[k] == v[k - |p| - |n| - 1]; }
    }
  }

  /**
    A vertical-scale command with a numeric channel and a scale without m selects that command:
    the two phrases tested before it both contain an m.
   */
  lemma VerticalScaleClassified(n: string, v: string)
    requires forall i :: 0 <= i < |n| ==> IsDigit(n[i]) || n[i] == '-'
    requires 'm' !in v
    ensures Classify("change vertical scale" + ":" + n + ":" + v) == Some(VerticalScaleCmd)
  {
    var head := "change vertical scale";
    var data := head + ":" + n + ":" + v;
    VerticalScaleCommandChars(n, v);
    Absent(data, Phrase(TimeScaleCmd), 'm');
    Absent(data, Phrase(TimeOffsetCmd), 'm');
    assert data[..|head|] == head;
    FirstMatchEarliest(data, Order, 2);
  }

  /** The vertical-scale command's channel and scale are tokens 1 and 2. */
  lemma VerticalScaleTokens(n: string, v: string)
    requires ':' !in n && ':' !in v
    ensures var data := "change vertical scale" + ":" + n + ":" + v;
      Token(data, 1) == Some(n) && Token(data, 2) == Some(v)
  {
    assert ':' !in "change vertical scale";
    ThreeTokens("change vertical scale", n, v);
  }

  /** The vertical-scale command converts token 1 to an integer and token 2 to a float. */
  lemma VerticalScaleBranch(data: string)
    requires Classify(data) == Some(VerticalScaleCmd)
    ensures Parse(data) == WithChannelAndFloat(data)
  {
  }

  /** The vertical-scale branch reads the channel from token 1 and the scale from token 2. */
  lemma VerticalScaleArguments(n: string, v: string, data: string)
    requires ':' !in n && ':' !in v
    requires data == "change vertical scale" + ":" + n + ":" + v
    requires Classify(data) == Some(VerticalScaleCmd)
    ensures Parse(data) == if ParseInt(n).None? || ParseFloat(v).None? then Malformed
                           else Request(Configure(ChangeVerticalScale(ParseInt(n).value, ParseFloat(v).value)))
  {
    VerticalScaleTokens(n, v);
    VerticalScaleBranch(data);
  }

  /**
    `change vertical scale:<channel>:<scale>` with any scale `float()` accepts asks for that
    channel and that scale.
   */
  lemma VerticalScaleCommandParses(channel: int, v: string)
    requires ParseFloat(v).Some?
    ensures Parse("change vertical scale" + ":" + IntText(channel) + ":" + v)
            == Request(Configure(ChangeVerticalScale(channel, ParseFloat(v).value)))
  {
    var n := IntText(channel);
    IntTextChars(channel);
    FloatTextChars(v);
    VerticalScaleClassified(n, v);
    VerticalScaleArguments(n, v, "change vertical scale" + ":" + n + ":" + v);
    IntTextRoundTrip(channel);
  }

  /** The samples command for an integer's text has no letter t. */
  lemma SamplesCommandChars(n: int)
    ensures 't' !in "change samples per read" + ":" + IntText(n)
  {
    var p := "change samples per read" + ":";
    var data := p + IntText(n);
    IntTextChars(n);
    assert 't' !in p;
    forall k | 0 <= k < |data| ensures data[k] != 't' {
      if k < |p| { assert data[k] == p[k]; }
      else { assert data[k] == IntText(n)[k - |p|]; }
    }
  }

  /**
    `change samples per read:<n>` selects the samples command: the three phrases tested
    before it all contain a t.
   */
  lemma SamplesClassified(n: int)
    ensures Classify("change samples per read" + ":" + IntText(n)) == Some(SamplesCmd)
  {
    var head := "change samples per read";
    var data := head + ":" + IntText(n);
    SamplesCommandChars(n);
    WithoutTBeforeSamples(data);
    assert data[..|head|] == head;
    FirstMatchEarliest(data, Order, 3);
  }

  /** The three phrases tested before the samples phrase all contain a t. */
  lemma WithoutTBeforeSamples(data: string)
    requires 't' !in data
    ensures forall j :: 0 <= j < 3 ==> !Contains(data, Phrase(Order[j]))
  {
    Absent(data, Phrase(TimeScaleCmd), 't');
    Absent(data, Phrase(TimeOffsetCmd), 't');
    Absent(data, Phrase(VerticalScaleCmd), 't');
    assert Order[..3] == [TimeScaleCmd, TimeOffsetCmd, VerticalScaleCmd];
  }

  /** The samples command converts token 1 to an integer and fails when it does not convert. */
  lemma SamplesBranch(data: string)
    requires Classify(data) == Some(SamplesCmd)
    ensures Parse(data) == if IntArg(data, 1).None? then Malformed
                           else Request(Configure(ChangeSamplesPerRead(IntArg(data, 1).value)))
  {
    assert Parse(data) == ParseAs(data, SamplesCmd);
    SamplesArguments(data);
  }

  /** The samples branch itself: token 1, converted by `int()`. */
  lemma SamplesArguments(data: string)
    ensures ParseAs(data, SamplesCmd) == if IntArg(data, 1).None? then Malformed
                                         else Request(Configure(ChangeSamplesPerRead(IntArg(data, 1).value)))
  {
  }

  /** `change samples per read:<n>` for the text of any integer n asks for n samples. */
  lemma SamplesCommandParses(n: int)
    ensures Parse("change samples per read" + ":" + IntText(n)) == Request(Configure(ChangeSamplesPerRead(n)))
  {
    var data := "change samples per read" + ":" + IntText(n);
    SamplesClassified(n);
    SamplesArgument(n);
    SamplesBranch(data);
  }

  /** Token 1 of the samples command is the integer's text, which `int()` reads back. */
  lemma SamplesArgument(n: int)
    ensures IntArg("change samples per read" + ":" + IntText(n), 1) == Some(n)
  {
    IntTextChars(n);
    TokenAfterHead("change samples per read", IntText(n));
    IntTextRoundTrip(n);
  }

  /** The nine phrases tested before the coupling phrase each miss a character of it. */
  lemma CouplingHeadFree(j: nat)
    requires j < 9
    ensures !Contains("set trigger coupling:", Phrase(Order[j]))
  {
    if j < 5 {
      CouplingMissesH(j);
    } else {
      CouplingMissesLate(j);
    }
  }

  /** The five time, scale and sampling phrases all hold an `h`, which the coupling phrase lacks. */
  lemma CouplingMissesH(j: nat)
    requires j < 5
    ensures !Contains("set trigger coupling:", Phrase(Order[j]))
  {
    assert Order[..5] == [TimeScaleCmd, TimeOffsetCmd, VerticalScaleCmd, SamplesCmd, SamplingRateCmd];
    assert 'h' in Phrase(Order[j]) && 'h' !in "set trigger coupling:";
    Absent("set trigger coupling:", Phrase(Order[j]), 'h');
  }

  /** Auto setup, exit, trigger source and trigger level: each misses a character or a position. */
  lemma CouplingMissesLate(j: nat)
    requires 5 <= j < 9
    ensures !Contains("set trigger coupling:", Phrase(Order[j]))
  {
    var cmd := Order[j];
    if j == 5 {
      assert cmd == AutoSetupCmd;
      MissingCharNotInCoupling(cmd, 'a');
    } else if j == 6 {
      assert cmd == ExitCmd;
      MissingCharNotInCoupling(cmd, 'x');
    } else if j == 7 {
      assert cmd == TriggerSourceCmd;
      SourceNotInCoupling();
    } else {
      assert cmd == TriggerLevelCmd;
      MissingCharNotInCoupling(cmd, 'v');
    }
  }

  /** A phrase holding a character that the coupling phrase lacks. */
  lemma MissingCharNotInCoupling(cmd: Command, c: char)
    requires (cmd, c) == (AutoSetupCmd, 'a') || (cmd, c) == (ExitCmd, 'x') || (cmd, c) == (TriggerLevelCmd, 'v')
    ensures !Contains("set trigger coupling:", Phrase(cmd))
  {
    assert c in Phrase(cmd) && c !in "set trigger coupling:";
    Absent("set trigger coupling:", Phrase(cmd), c);
  }

  /** "set trigger source:" and "set trigger coupling:" differ where they could overlap. */
  lemma SourceNotInCoupling()
    ensures !Contains("set trigger coupling:", "set trigger source:")
  {
    var p, t := "set trigger coupling:", "set trigger source:";
    assert p[12] != t[12] && p[1] != t[0] && p[2] != t[0];
    assert !StartsWith(p, t) by { assert p[..|t|][12] != t[12]; }
    assert !StartsWith(p[1..], t) by { assert p[1..][0] != t[0]; }
    assert !StartsWith(p[2..], t) by { assert p[2..][0] != t[0]; }
    if Contains(p[3..], t) {
      ContainsLength(p[3..], t);
    }
  }

  /** Only the last character of the nine earlier phrases can be a colon. */
  lemma EarlyPhrasesColons(j: nat)
    requires j < 9
    ensures |Phrase(Order[j])| > 0 && ':' !in Phrase(Order[j])[..|Phrase(Order[j])| - 1]
  {
    assert Order[..9] == [TimeScaleCmd, TimeOffsetCmd, VerticalScaleCmd, SamplesCmd, SamplingRateCmd,
                          AutoSetupCmd, ExitCmd, TriggerSourceCmd, TriggerLevelCmd];
    var t := Phrase(Order[j]);
    if j < 7 {
      assert ':' !in t;
    } else {
      assert t[..|t| - 1] == if j == 7 then "set trigger source" else "set trigger level";
    }
  }

  /**
    `set trigger coupling:<v>` selects the coupling command when v has no colon and none of the
    phrases tested before it.
   */
  lemma CouplingClassified(v: string)
    requires ':' !in v
    requires forall j :: 0 <= j < 9 ==> !Contains(v, Phrase(Order[j]))
    ensures Classify("set trigger coupling:" + v) == Some(TriggerCouplingCmd)
  {
    var head := "set trigger coupling:";
    var data := head + v;
    forall j | 0 <= j < 9 ensures !Contains(data, Phrase(Order[j])) {
      CouplingHeadFree(j);
      EarlyPhrasesColons(j);
      NotContainsJoin(head, v, Phrase(Order[j]), ':');
    }
    assert data[..|head|] == head;
    FirstMatchEarliest(data, Order, 9);
  }

  /**
    `set trigger coupling:<v>` passes v unchanged to the coupling setter when v has no colon
    and none of the phrases tested before it.
   */
  lemma CouplingCommandParses(v: string)
    requires ':' !in v
    requires forall j :: 0 <= j < 9 ==> !Contains(v, Phrase(Order[j]))
    ensures Parse("set trigger coupling:" + v) == Request(Configure(ChangeTriggerCoupling(v)))
  {
    var data := "set trigger coupling:" + v;
    CouplingClassified(v);
    CouplingArgument(v);
    CouplingBranch(data);
  }

  /** Token 1 of the coupling command is the text after its colon. */
  lemma CouplingArgument(v: string)
    requires ':' !in v
    ensures Token("set trigger coupling:" + v, 1) == Some(v)
  {
    TokenAfterHead("set trigger coupling", v);
    assert "set trigger coupling" + ":" + v == "set trigger coupling:" + v;
  }

  /** The coupling command passes token 1 on as text and fails only when it is missing. */
  lemma CouplingBranch(data: string)
    requires Classify(data) == Some(TriggerCouplingCmd)
    ensures Parse(data) == if Token(data, 1).None? then Malformed
                           else Request(Configure(ChangeTriggerCoupling(Token(data, 1).value)))
  {
    assert Parse(data) == ParseAs(data, TriggerCouplingCmd);
    CouplingArguments(data);
  }

  /** The coupling branch itself: token 1, passed on unconverted. */
  lemma CouplingArguments(data: string)
    ensures ParseAs(data, TriggerCouplingCmd) == if Token(data, 1).None? then Malformed
                                                 else Request(Configure(ChangeTriggerCoupling(Token(data, 1).value)))
  {
  }

  // ---------------------------------------------------------------------------
  // The listening loop
  // ---------------------------------------------------------------------------

  class Server {
    const scope: Oscilloscope
    /** Messages handed to the sender, oldest first. */
    var outbox: seq<string>
    /** False once an exception has escaped the loop. */
    var listening: bool

    constructor (scope: Oscilloscope)
      ensures this.scope == scope && outbox == [] && listening
    {
      this.scope := scope;
      outbox := [];
      listening := true;
    }

    /** One pass of the loop for the received text `data`. */
    method Receive(data: string)
      requires listening
      modifies this, scope, scope.dev
      ensures var s := React(old(scope.Settings()), scope.dev.answer, old(scope.dev.history), data);
        && scope.Settings() == s.config && scope.dev.history == old(scope.dev.history) + s.accesses
        && outbox == old(outbox) + s.sent && listening == s.listening
    {
      if data == "" {
        assert scope.dev.history == old(scope.dev.history) + [];
        return;
      }
      match Parse(data)
      case Unknown =>
        assert scope.dev.history == old(scope.dev.history) + [];
        outbox := outbox + [InvalidCommand];
      case Malformed =>
        assert scope.dev.history == old(scope.dev.history) + [];
        listening := false;
      case Request(Configure(a)) =>
        var message := Invoke(a);
        outbox := outbox + [message];
      case Request(ReadChannel(ch)) =>
        var reading := scope.ReadOnce(ch);
        if reading.Measured? {
          outbox := outbox + [ChannelMessage(reading.channel, reading.data)];
        } else {
          listening := false;
        }
      case Request(ReadTriggered) =>
        var capture := scope.ReadAroundTrigger();
        if capture.Captured? {
          outbox := outbox + [ChannelMessage(1, capture.ch1)];
          outbox := outbox + [ChannelMessage(2, capture.ch2)];
        } else {
          listening := false;
        }
    }

    /** Calls the oscilloscope operation named by `a`. */
    method Invoke(a: Action) returns (reply: string)
      modifies scope, scope.dev
      ensures scope.Performed(old(scope.Settings()), old(scope.dev.history), a, reply)
    {
      match a
      case ChangeTimeScale(x) => reply := scope.ChangeTimeScale(x);
      case ChangeTimeOffset(x) => reply := scope.ChangeTimeOffset(x);
      case ChangeVerticalScale(ch, x) => reply := scope.ChangeVerticalScale(ch, x);
      case ChangeSamplesPerRead(n) => reply := scope.ChangeSamplesPerRead(n);
      case ChangeSamplingRate(n) => reply := scope.ChangeSamplingRate(n);
      case AutoSetup => reply := scope.AutoSetup();
      case Exit => reply := scope.Exit();
      case ChangeTriggerSource(n) => reply := scope.ChangeTriggerSource(n);
      case ChangeTriggerLevel(x) => reply := scope.ChangeTriggerLevel(x);
      case ChangeTriggerCoupling(t) => reply := scope.ChangeTriggerCoupling(t);
      case ChangeTriggerSlope(t) => reply := scope.ChangeTriggerSlope(t);
      case ChangeTriggerMode(t) => reply := scope.ChangeTriggerMode(t);
    }
  }
}
