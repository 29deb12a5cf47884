/**
  The client of client.py: it decodes every text the server sends, keeps the latest data of
  each channel with an append-only log per channel, mirrors the oscilloscope configuration
  from the `[INFO]` acknowledgements, and logs each command before sending it. `Decode` and
  `Received` state what one inbound text does; the class `Client` holds the state in fields
  and is proved against them.
 */
module Session {
  import opened Wrappers
  import opened Text
  import opened Scope

  // ---------------------------------------------------------------------------
  // Inbound classification
  // ---------------------------------------------------------------------------

  /** The tag that decides how an inbound text is handled, tested in this order. */
  datatype Tag = Channel1 | Channel2 | ErrorTag | InfoTag | Other

  function TagOf(data: string): (t: Tag)
    ensures t == Channel1 <==> Contains(data, "[C-1]")
    ensures t == Channel2 <==> !Contains(data, "[C-1]") && Contains(data, "[C-2]")
    ensures t == ErrorTag <==> !Contains(data, "[C-1]") && !Contains(data, "[C-2]") && Contains(data, "[ERROR]")
    ensures t == InfoTag <==>
      !Contains(data, "[C-1]") && !Contains(data, "[C-2]") && !Contains(data, "[ERROR]") && Contains(data, "[INFO]")
  {
    if Contains(data, "[C-1]") then Channel1
    else if Contains(data, "[C-2]") then Channel2
    else if Contains(data, "[ERROR]") then ErrorTag
    else if Contains(data, "[INFO]") then InfoTag
    else Other
  }

  /** How the token after the first colon becomes the mirrored value. */
  datatype Kind = FloatValue | IntValue | TextValue

  /** A sub-tag of an `[INFO]` acknowledgement and the mirror field it overwrites. */
  datatype SubTag = SubTag(tag: string, field: Field, kind: Kind)

  /** The sub-tags in the order they are tested. */
  const SubTags: seq<SubTag> := [
    SubTag("[C1-Vertical Scale]", C1VerticalScale, FloatValue),
    SubTag("[C2-Vertical Scale]", C2VerticalScale, FloatValue),
    SubTag("[Time Scale]", TimeScale, FloatValue),
    SubTag("[Samples]", Samples, IntValue),
    SubTag("[Sampling Rate]", SamplingRate, IntValue),
    SubTag("[Trigger Source]", TriggerChannel, TextValue),
    SubTag("[Trigger Level]", TriggerLevel, FloatValue),
    SubTag("[Trigger Coupling]", TriggerCoupling, TextValue),
    SubTag("[Trigger Slope]", TriggerSlope, TextValue),
    SubTag("[Trigger Mode]", TriggerMode, TextValue),
    SubTag("[Horizontal Offset]", TimeOffset, FloatValue)]

  /** The first sub-tag of `tags` occurring in `data`. */
  function FirstSubTag(data: string, tags: seq<SubTag>): (r: Option<SubTag>)
    ensures r.Some? ==> r.value in tags && Contains(data, r.value.tag)
    ensures r.None? ==> forall k :: 0 <= k < |tags| ==> !Contains(data, tags[k].tag)
  {
    if |tags| == 0 then None
    else if Contains(data, tags[0].tag) then Some(tags[0])
    else FirstSubTag(data, tags[1..])
  }

  /** The sub-tag at position i is the one used when it occurs and no earlier one does. */
  lemma {:induction false} FirstSubTagEarliest(data: string, tags: seq<SubTag>, i: nat)
    requires i < |tags| && Contains(data, tags[i].tag)
    requires forall j :: 0 <= j < i ==> !Contains(data, tags[j].tag)
    ensures FirstSubTag(data, tags) == Some(tags[i])
  {
    if i > 0 {
      FirstSubTagEarliest(data, tags[1..], i - 1);
    }
  }

  /** `float(token)`, `int(token)` or the token itself, as text; None when the conversion raises. */
  function Convert(kind: Kind, token: string): Option<string> {
    match kind
    case FloatValue => ParseFloat(token)
    case IntValue =>
      var n := ParseInt(token);
      if n.None? then None else Some(IntText(n.value))
    case TextValue => Some(token)
  }

  /** What one inbound text does. */
  datatype Decoded =
    | Unchanged                              // empty, an error report, an unknown sub-tag, or no tag
    | ChannelData(channel: int, data: string) // `[C-1]` or `[C-2]` with the token after the first colon
    | Assigned(field: Field, value: string)  // an `[INFO]` acknowledgement for a known sub-tag
    | Crashed                                // a missing token or a failed conversion ends the loop

  function Decode(data: string): Decoded {
    if data == "" then Unchanged
    else
      match TagOf(data)
      case Channel1 => var t := Token(data, 1); if t.None? then Crashed else ChannelData(1, t.value)
      case Channel2 => var t := Token(data, 1); if t.None? then Crashed else ChannelData(2, t.value)
      case ErrorTag => if Token(data, 1).None? then Crashed else Unchanged
      case InfoTag =>
        var st := FirstSubTag(data, SubTags);
        if st.None? then Unchanged
        else
          var t := Token(data, 1);
          if t.None? then Crashed
          else
            var v := Convert(st.value.kind, t.value);
            if v.None? then Crashed else Assigned(st.value.field, v.value)
      case Other => Unchanged
  }

  // ---------------------------------------------------------------------------
  // Client state
  // ---------------------------------------------------------------------------

  /**
    The mirrored configuration (client.py names `time_offset` `horizontal_offset` and
    `trigger_channel` `trigger_source`), the latest data of each channel, the contents of the
    two channel files, and whether the listening loop is still running.
   */
  datatype View = View(
    mirror: Config,
    ch1Data: Option<string>, ch2Data: Option<string>,
    channel1File: seq<string>, channel2File: seq<string>,
    listening: bool)

  /** The values the client's constructor assigns to its mirror. */
  const MirrorDefaults := Config("1.0", "0.0", "1.0", "1.0", "20000", "1000000", "1", "1", "ac", "positive", "auto")

  /** The state after receiving `data`. */
  function Received(s: View, data: string): View {
    match Decode(data)
    case Unchanged => s
    case Crashed => s.(listening := false)
    case ChannelData(ch, d) =>
      if ch == 1 then s.(ch1Data := Some(d), channel1File := s.channel1File + [d])
      else s.(ch2Data := Some(d), channel2File := s.channel2File + [d])
    case Assigned(f, v) => s.(mirror := s.mirror.Update(f, v))
  }

  /** An entry of the client log or a payload handed to the socket, in program order. */
  datatype Event = Logged(line: string) | Sent(payload: string)

  // ---------------------------------------------------------------------------
  // Properties
  // ---------------------------------------------------------------------------

  /** The client starts from the same configuration as the oscilloscope wrapper. */
  lemma MirrorDefaultsAgree()
    ensures forall f :: MirrorDefaults.Value(f) == Defaults.Value(f)
  {
  }

  /**
    A channel message stores the token after the first colon as that channel's data and
    appends it to that channel's log; the other channel and the mirror are untouched.
   */
  lemma ChannelMessageRecorded(s: View, data: string)
    requires TagOf(data) == Channel1 || TagOf(data) == Channel2
    ensures var r := Received(s, data);
      var t := Token(data, 1);
      && r.mirror == s.mirror
      && (t.None? ==> r == s.(listening := false))
      && (t.Some? && TagOf(data) == Channel1 ==>
            r == s.(ch1Data := Some(t.value), channel1File := s.channel1File + [t.value]))
      && (t.Some? && TagOf(data) == Channel2 ==>
            r == s.(ch2Data := Some(t.value), channel2File := s.channel2File + [t.value]))
  {
    assert data != "";
  }

  /** An error report changes no mirror field and no data; without a colon it ends the loop. */
  lemma ErrorChangesNothing(s: View, data: string)
    requires TagOf(data) == ErrorTag
    ensures Received(s, data) == s.(listening := s.listening && ':' in data)
  {
    assert data != "";
    TokenOneExists(data);
  }

  /** A text with none of the four tags changes nothing. */
  lemma UntaggedIgnored(s: View, data: string)
    requires TagOf(data) == Other
    ensures Received(s, data) == s
  {
  }

  /**
    An `[INFO]` acknowledgement overwrites exactly the field of its first known sub-tag with
    the converted token after the first colon; with no known sub-tag it changes nothing.
   */
  lemma InfoOverwritesOneField(s: View, data: string)
    requires TagOf(data) == InfoTag
    ensures var st := FirstSubTag(data, SubTags);
      var r := Received(s, data);
      && (st.None? ==> r == s)
      && (st.Some? && Token(data, 1).Some? && Convert(st.value.kind, Token(data, 1).value).Some? ==>
            var v := Convert(st.value.kind, Token(data, 1).value).value;
            && r == s.(mirror := r.mirror)
            && r.mirror.Value(st.value.field) == v
            && (forall g :: g != st.value.field ==> r.mirror.Value(g) == s.mirror.Value(g)))
      && (st.Some? && (Token(data, 1).None? || Convert(st.value.kind, Token(data, 1).value).None?) ==>
            r == s.(listening := false))
  {
    assert data != "";
  }

  /**
    An acknowledgement `[INFO]` + head + `:` + value, where head holds sub-tag i and none
    before it and no other tag, assigns the converted value to sub-tag i's field.
   */
  lemma InfoAssigns(head: string, v: string, i: nat)
    requires i < |SubTags|
    requires Contains(head, "[INFO]") && Contains(head, SubTags[i].tag)
    requires forall j :: 0 <= j < i ==> !Contains(head + ":" + v, SubTags[j].tag)
    requires !Contains(head + ":" + v, "[C-1]") && !Contains(head + ":" + v, "[C-2]")
    requires !Contains(head + ":" + v, "[ERROR]")
    requires ':' !in head && ':' !in v
    ensures var w := Convert(SubTags[i].kind, v);
      Decode(head + ":" + v) == if w.None? then Crashed else Assigned(SubTags[i].field, w.value)
  {
    InfoSubTag(head, v, i);
    TokenAfterHead(head, v);
    InfoDecodes(head + ":" + v, SubTags[i], v);
  }

  /** Under the same conditions the text is an `[INFO]` text whose first known sub-tag is i. */
  lemma InfoSubTag(head: string, v: string, i: nat)
    requires i < |SubTags|
    requires Contains(head, "[INFO]") && Contains(head, SubTags[i].tag)
    requires forall j :: 0 <= j < i ==> !Contains(head + ":" + v, SubTags[j].tag)
    requires !Contains(head + ":" + v, "[C-1]") && !Contains(head + ":" + v, "[C-2]")
    requires !Contains(head + ":" + v, "[ERROR]")
    ensures TagOf(head + ":" + v) == InfoTag && FirstSubTag(head + ":" + v, SubTags) == Some(SubTags[i])
  {
    ContainsExtend(head, ":" + v, "[INFO]");
    assert head + ":" + v == head + (":" + v);
    FirstSubTagAfter(head, ":" + v, i);
  }

  /** A sub-tag in the head, with no earlier one in the whole text, is the first sub-tag. */
  lemma FirstSubTagAfter(head: string, rest: string, i: nat)
    requires i < |SubTags| && Contains(head, SubTags[i].tag)
    requires forall j :: 0 <= j < i ==> !Contains(head + rest, SubTags[j].tag)
    ensures FirstSubTag(head + rest, SubTags) == Some(SubTags[i])
  {
    ContainsExtend(head, rest, SubTags[i].tag);
    FirstSubTagEarliest(head + rest, SubTags, i);
  }

  /** An `[INFO]` text with a known sub-tag and a token after its first colon assigns the converted token. */
  lemma InfoDecodes(data: string, st: SubTag, t: string)
    requires TagOf(data) == InfoTag && FirstSubTag(data, SubTags) == Some(st) && Token(data, 1) == Some(t)
    ensures var w := Convert(st.kind, t);
      Decode(data) == if w.None? then Crashed else Assigned(st.field, w.value)
  {
    assert data != "";
  }

  // ---------------------------------------------------------------------------
  // The client object
  // ---------------------------------------------------------------------------

  class Client {
    var mirror: Config
    var ch1Data: Option<string>
    var ch2Data: Option<string>
    var channel1File: seq<string>
    var channel2File: seq<string>
    /** The client log and the socket, interleaved in program order. */
    var events: seq<Event>
    var listening: bool

    function State(): View
      reads this
    {
      View(mirror, ch1Data, ch2Data, channel1File, channel2File, listening)
    }

    /** `timestamp` is the start date and time used in the file headers. */
    constructor (timestamp: string)
      ensures State() == View(MirrorDefaults, None, None,
                              ["Channel 1 - " + timestamp + "\n"], ["Channel 2 - " + timestamp + "\n"], true)
      ensures events == [Logged("Started @ " + timestamp + " \n")]
    {
      channel1File := ["Channel 1 - " + timestamp + "\n"];
      channel2File := ["Channel 2 - " + timestamp + "\n"];
      events := [Logged("Started @ " + timestamp + " \n")];
      ch1Data, ch2Data := None, None;
      mirror := MirrorDefaults;
      listening := true;
    }

    /** One pass of the listening loop for the inbound text `data`. */
    method Receive(data: string)
      requires listening
      modifies this
      ensures State() == Received(old(State()), data)
      ensures events == old(events)
    {
      if data == "" {
        return;
      }
      if Contains(data, "[C-1]") {
        var t := Token(data, 1);
        if t.None? { listening := false; return; }
        ch1Data := Some(t.value);
        WriteMeasurement(1, t.value);
      } else if Contains(data, "[C-2]") {
        var t := Token(data, 1);
        if t.None? { listening := false; return; }
        ch2Data := Some(t.value);
        WriteMeasurement(2, t.value);
      } else if Contains(data, "[ERROR]") {
        if Token(data, 1).None? { listening := false; }
      } else if Contains(data, "[INFO]") {
        var st := FirstSubTag(data, SubTags);
        if st.Some? {
          var t := Token(data, 1);
          if t.None? { listening := false; return; }
          var v := Convert(st.value.kind, t.value);
          if v.None? { listening := false; return; }
          mirror := mirror.Update(st.value.field, v.value);
        }
      }
    }

    /** Appends the data to the file of channel 1 or 2; any other channel writes nothing. */
    method WriteMeasurement(channel: int, data: string)
      modifies this
      ensures channel1File == old(channel1File) + (if channel == 1 then [data] else [])
      ensures channel2File == old(channel2File) + (if channel == 2 then [data] else [])
      ensures mirror == old(mirror) && ch1Data == old(ch1Data) && ch2Data == old(ch2Data)
      ensures events == old(events) && listening == old(listening)
    {
      if channel == 1 {
        channel1File := channel1File + [data];
      } else if channel == 2 {
        channel2File := channel2File + [data];
      }
    }

    /** Logs the stripped command with the time `now`, then sends the same stripped text. */
    method SendMessage(message: string, now: string)
      modifies this
      ensures var m := Strip(message);
        events == old(events) + [Logged("[" + now + "]: " + m + "\n"), Sent(m)]
      ensures State() == old(State())
    {
      var m := Strip(message);
      events := events + [Logged("[" + now + "]: " + m + "\n")];
      events := events + [Sent(m)];
    }
  }
}
