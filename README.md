# LeCroy oscilloscope remote control, modelled in Dafny

The system drives a LeCroy XStreamDSO oscilloscope from a remote client. It has three parts:

- The `Oscilloscope` wrapper keeps its own copy of the instrument's settings: time scale and offset, the two vertical scales, samples per read, sampling rate, and trigger source, level, coupling, slope and mode. Each setter writes its automation property, reads the property back, stores what the instrument reports and returns a tagged reply text. `change_samples_per_read` writes the sample count of both channels and reads back channel 1's. The five trigger setters read the property a second time to build their reply. The reply starts with `[INFO]...:` on success and `[ERROR]...` on failure.
- The server waits for one command text at a time from the client. It picks the first command phrase that occurs in the text, takes the arguments from the colon-separated tokens, calls one wrapper operation and sends back the reply. `read once` and `read trigger` return measurement messages tagged `[C-1]` / `[C-2]`.
- The client sends commands and logs each one with a time stamp. It appends channel measurements to two files and updates its own mirror of the settings from the `[INFO]` acknowledgements.

The model works like this:

- The instrument is `Instrument.Device`. It is an answer function over the history of property accesses, plus that history. An answer of `None` stands for the COM call raising.
- Values travel as text. A value the instrument reports is carried as the text of the device's answer. A number typed at the client reaches the wrapper as its stripped literal: `2.50` stays `2.50`, where Python would pass the float 2.5.
- Each part has pure specification functions:
  - `Scope.Perform`, `Scope.ReadOnceSpec`, `Scope.AcquireSpec` and `Scope.ReadAroundTriggerSpec` for the wrapper;
  - `Dispatch.Classify`, `Dispatch.Parse` and `Dispatch.React` for the server's loop body;
  - `Session.Decode` and `Session.Received` for the client's loop body.
- Each part also has a class (`Scope.Oscilloscope`, `Dispatch.Server`, `Session.Client`) whose fields the methods update. The methods are proved against those functions.
- The module `Protocol` connects the three. It proves which server replies the client's listener actually acts on.

An uncaught Python exception ends a listening loop. The model shows this as `listening` becoming false. This covers:

- a missing `:` token;
- a failed `int()` or `float()`;
- `read_once` returning nothing;
- a device failure inside `read_once` or `read_around_trigger`.

Three properties of the code as written are proved:

- `VerticalScaleNeverMirrored`: for a device whose answers hold no `]` (`Protocol.BracketFree`), the vertical-scale acknowledgement `[INFO][C1 Vertical Scale]:v` never changes the client's mirror. The client looks for `[C1-Vertical Scale]` and `[C2-Vertical Scale]`. In addition, channel 2's reply also says `C1`.
- `SamplingRateNeverMirrored`: for a device whose answers hold no `]`, the sampling-rate acknowledgement `[INFO]:v` carries no sub-tag, so the client never updates `sampling_rate`.
- `AutoSetupFailureStopsClient`: the auto-setup failure text `[ERROR] Could not do auto setup` has no colon. The client's `split(':')[1]` therefore raises, and the listener stops.

The condition on `]` in the first two is needed because the reported value is copied into the reply: an answer that itself holds a client sub-tag such as `[Time Scale]` would be picked up by the client.

Three behaviours of the code a reader may not expect:

- A command whose argument does not parse gets no reply at all. The uncaught `int()` / `float()` exception ends the server's loop (`Dispatch.MalformedStopsBeforeCall`).
- A full vertical-scale exchange leaves the client's mirror as it was (for a device whose answers hold no `]`), although the wrapper stores the new scale (`Protocol.VerticalScaleExchange`).
- A trigger setter whose third device access fails answers with its `[ERROR]` text, although the wrapper's field has already been updated (`Scope.TriggerSetterRereads`).

## Model

| member | source | states |
|---|---|---|
| Scope.Config.Update | oscilloscope.py:13-23 | replacing one wrapper field gives that field the new value and keeps every other field |
| Scope.Oscilloscope.constructor | oscilloscope.py:7-23 | a new wrapper holds the default settings (1.0, 0.0, 1.0, 1.0, 20000, 1000000, 1, 1, ac, positive, auto) and uses the given device |
| Scope.Oscilloscope.ChangeTimeScale | oscilloscope.py:25-32 | the new settings, device history and reply are those of `Perform` for the time-scale setter: write HorScale, read it back, store and report the read-back value; on a device failure, settings unchanged and the error text |
| Scope.Oscilloscope.ChangeTimeOffset | oscilloscope.py:34-40 | as for the time scale, on HorOffset and the time-offset field |
| Scope.Oscilloscope.ChangeVerticalScale | oscilloscope.py:42-55 | channels 1 and 2 write and read back that channel's VerScale with the `[INFO][C1 Vertical Scale]:` tag; any other channel gives `Invaild Channel Number` without touching the device |
| Scope.Oscilloscope.ChangeSamplesPerRead | oscilloscope.py:57-64 | writes Samples on channel 1 and channel 2, then stores and reports channel 1's read-back value |
| Scope.Oscilloscope.ChangeSamplingRate | oscilloscope.py:66-72 | writes and reads back SampleRate; the reply is `[INFO]:` followed by the stored value |
| Scope.Oscilloscope.AutoSetup | oscilloscope.py:74-79 | one AutoSetup access; `[INFO]:Auto Setup Done`, or the colon-less error text when it fails; settings unchanged |
| Scope.Oscilloscope.Exit | oscilloscope.py:81-86 | one Exit access; `[INFO]:Exit done` or `[ERROR]: Could not exit`; settings unchanged |
| Scope.Oscilloscope.WriteReadReread | oscilloscope.py:99-105 | the trigger-setter pattern: write, read back and store, then read a third time for the reply; each outcome of each of the three accesses, with the settings and history after it |
| Scope.Oscilloscope.ChangeTriggerSource | oscilloscope.py:88-97 | channels 1 and 2 write `C1`/`C2` to the edge source, store the read-back value and report a third read; any other channel gives the channel error without any device access |
| Scope.Oscilloscope.ChangeTriggerLevel | oscilloscope.py:99-105 | writes the edge level, stores the read-back value and reports a third read |
| Scope.Oscilloscope.ChangeTriggerCoupling | oscilloscope.py:107-117 | `ac`/`dc` are written upper-cased; anything else gives `Invalid Coupling type` without any device access |
| Scope.Oscilloscope.ChangeTriggerSlope | oscilloscope.py:119-129 | `positive`/`negative`/`either` are written capitalised; anything else gives `Invalid Slope type` without any device access |
| Scope.Oscilloscope.ChangeTriggerMode | oscilloscope.py:131-141 | the four modes are written capitalised to TriggerMode; anything else gives `Invalid Trigger Mode` without any device access |
| Scope.Oscilloscope.ReadOnce | oscilloscope.py:143-153 | settings unchanged; the device history grows by exactly the accesses of `ReadOnceSpec`, and the result is its reading |
| Scope.Oscilloscope.ReadAroundTrigger | oscilloscope.py:155-167 | the new settings, history and capture are those of arming Single, then `AcquireSpec` from the settings and history that arming leaves |
| Scope.Oscilloscope.AcquireAndRestore | oscilloscope.py:157-167 | from Acquire(10) on, the new settings, history and capture are those of `AcquireSpec` |
| Scope.Oscilloscope.CollectAndRestore | oscilloscope.py:160-164 | after an Acquire that answered 1: read both channels' data, then put the mode back to Auto, as `AcquireSpec` says |
| Scope.Perform | oscilloscope.py:25-141 | the outcome of each setter, `auto_setup` and `exit`: the new settings, the device accesses in order and the reply text; an out-of-vocabulary argument answers its rejection text with no access; characterised by the lemmas below, from `RejectedArgumentsSkipDevice` to `ModeChange` |
| Scope.EchoRun | oscilloscope.py:25-72 | the time-scale, time-offset, vertical-scale and sampling-rate pattern (write, read back, store and report the read-back value, or the error text after the first failing access); characterised by `SetterStoresReadBack` and `ReplyReportsStoredValue` |
| Scope.RereadRun | oscilloscope.py:88-141 | the trigger-setter pattern (write, read back and store, read again for the reply); characterised by `TriggerSetterRereads` |
| Scope.SamplesRun | oscilloscope.py:57-64 | the samples-per-read pattern (write channel 1, write channel 2, read channel 1 back); characterised by `SetterStoresReadBack` |
| Scope.ReadOnceSpec | oscilloscope.py:143-153 | the accesses and the reading of `read_once`: a raised exception, nothing for another channel, or the channel and its data array; characterised by `ReadOnceOutcomes` |
| Scope.AcquireSpec | oscilloscope.py:157-167 | everything `read_around_trigger` does from Acquire(10) on; characterised by `AcquireOutcomes` |
| Scope.ReadAroundTriggerSpec | oscilloscope.py:155-167 | the mode request for single, followed by `AcquireSpec` from the state it leaves; characterised by `TriggerReadArmsSingle`, `TriggerReadTimeout` and `TriggerReadCaptured` |
| Scope.RejectedArgumentsSkipDevice | oscilloscope.py:42-141 | an operation makes no device access exactly when its argument is out of vocabulary, and then it keeps the settings and answers the rejection text |
| Scope.RejectionIsError | oscilloscope.py:107-141 | every rejection text starts with `[ERROR]` |
| Scope.SetterStoresReadBack | oscilloscope.py:25-141 | every accepted setter first writes the transformed argument to its property; when the read-back answers, exactly the setter's field takes the read-back value; otherwise the settings are unchanged and the reply is the setter's error text |
| Scope.ReplyReportsStoredValue | oscilloscope.py:25-72 | for the setters that do not read a third time: when the device answers the read-back, the reply is the setter's tag followed by that answer, which is also the value stored in the target field; when it does not (or an earlier write fails), the reply is the failure text |
| Scope.TriggerSetterRereads | oscilloscope.py:88-141 | a trigger setter makes three accesses (write, read, read); the field takes the first read, and the reply reports the second read, or is the error text when that second read fails, even though the field has already changed |
| Scope.SourceNamesWritten | oscilloscope.py:91 | source channels 1 and 2 are written as `C1` and `C2` |
| Scope.CouplingsUpperCased | oscilloscope.py:110 | `ac` and `dc` are written as `AC` and `DC` |
| Scope.SlopesCapitalised | oscilloscope.py:122 | the three slopes are written as `Positive`, `Negative`, `Either` |
| Scope.ModesCapitalised | oscilloscope.py:134 | the four modes are written as `Auto`, `Single`, `Normal`, `Stopped` |
| Scope.VerticalScaleOneChannel | oscilloscope.py:42-51 | a vertical-scale change for channel 1 or 2 leaves every other field as it was; when the device answers the write and the read-back, the reply is `[INFO][C1 Vertical Scale]:` followed by the read-back value (for both channels) and that value is stored in the channel's field; otherwise the reply is the failure text and the settings are unchanged |
| Scope.ReadOnceOutcomes | oscilloscope.py:143-153 | the sampling rate is always written first; any channel other than 1 or 2 makes only that access and gives no reading; for channel 1 or 2, when the device answers the two writes and the data read, the reading is that channel with the data answer, and the operation raises exactly when one of the three accesses fails; a missing reading, rather than a failure, happens exactly when the first write succeeds and the channel is not 1 or 2 |
| Scope.ModeChange | oscilloscope.py:131-141 | a valid mode request changes at most the trigger-mode field (to the read-back value, when the write and the read-back both answer) and first writes the capitalised mode |
| Scope.AcquireOutcomes | oscilloscope.py:157-167 | Acquire(10) comes first; a failure gives no capture, an answer other than 1 gives (0, 0) with the settings kept; after a 1, when both data reads are answered the capture is the two answers, in channel order, followed by a write of `Auto`, and when either read fails the operation raises with the settings kept |
| Scope.TriggerReadArmsSingle | oscilloscope.py:156 | reading around the trigger first writes `Single` to the trigger mode |
| Scope.TriggerReadTimeout | oscilloscope.py:158-167 | after arming, a failed or non-1 Acquire gives no capture or (0, 0) respectively, with the trigger mode left as arming set it |
| Scope.TriggerReadCaptured | oscilloscope.py:158-164 | after arming and an Acquire that answers 1: when both data reads are answered the result is the two answers in channel order and the mode is then restored to Auto; when either read fails the operation raises and the mode is left at the single read-back |
| Dispatch.Classify | server.py:38-95 | the branch the `if`/`elif` chain takes: the first command, in the server's order, whose phrase occurs in the text; characterised by `ClassifyFirstMatching` and `ClassifyNone` |
| Dispatch.Parse | server.py:38-93 | the branch together with the arguments it converts, Malformed when a conversion or a token lookup raises, Unknown when no phrase occurs; characterised by `MalformedWhen`, `TimeScaleCommandParses`, `VerticalScaleCommandParses`, `SamplesCommandParses`, `CouplingCommandParses` and `TriggerSourceNeedsColon` |
| Dispatch.React | server.py:35-95 | one pass of the loop on a received text: the wrapper's new settings, the device accesses, the messages sent and whether the loop goes on; characterised by `EmptyDataIgnored`, `UnknownCommandRejected`, `MalformedStopsBeforeCall`, `ConfigureSendsReply`, `ReadOnceMessage` and `ReadTriggerMessages` |
| Dispatch.Serve | server.py:38-93 | the call and the messages for a parsed request: the wrapper's reply, one `[C-n]` message, or the two trigger messages; an unpacking or device failure ends the loop with nothing sent; characterised by the same lemmas as `React` |
| Dispatch.ChannelMessage | server.py:88-93 | the measurement message `[C-n]:data`; the client's reading of it is `Protocol.ChannelMessageReceived` |
| Dispatch.ClassifyFirstMatching | server.py:38-95 | the command chosen is the first, in the server's order, whose phrase occurs in the text |
| Dispatch.ClassifyNone | server.py:94-95 | no command is chosen exactly when no phrase occurs |
| Dispatch.EmptyDataIgnored | server.py:35 | empty received data makes no call and sends nothing |
| Dispatch.UnknownCommandRejected | server.py:94-95 | a text with no command phrase gets `[ERROR]: Invalid Command` and the loop goes on |
| Dispatch.MalformedStopsBeforeCall | server.py:38-93 | an argument that does not parse ends the loop before any device access or reply |
| Dispatch.MalformedWhen | server.py:38-86 | which commands need which argument tokens: a float, a channel and a float, an int, or just a second token |
| Dispatch.ConfigureSendsReply | server.py:38-84 | a configuration command sends exactly the wrapper's reply, with the wrapper's new settings and device accesses |
| Dispatch.ReadOnceMessage | server.py:85-89 | `read once` keeps the settings and makes exactly the accesses of `ReadOnceSpec`; it sends one `[C-n]:data` message when the channel has a reading; otherwise (a channel other than 1 or 2, or a device failure) the loop ends and nothing is sent |
| Dispatch.ReadTriggerMessages | server.py:90-93 | `read trigger` takes the settings and accesses of `ReadAroundTriggerSpec`; it sends the `[C-1]` then the `[C-2]` message of the capture (`0` and `0` after a timeout); a device failure ends the loop with nothing sent |
| Dispatch.TimeScaleCommandParses | server.py:38-39 | `change time scale:v` for every token v that `float()` accepts calls the time-scale setter with the stripped literal |
| Dispatch.SamplesCommandParses | server.py:51-52 | `change samples per read:n` for the text of every integer n calls the samples setter with n |
| Dispatch.CouplingCommandParses | server.py:73-75 | `set trigger coupling:v`, for v without a colon and without any of the nine phrases tested earlier, calls the coupling setter with v unchanged |
| Dispatch.EdgeCommandsNeedColon | server.py:65-80 | without a colon, none of the four `set trigger ...:` commands can be selected |
| Dispatch.TriggerSourceNeedsColon | server.py:65 | `set trigger source 1` is rejected as an invalid command |
| Dispatch.VerticalScaleCommandParses | server.py:46-48 | `change vertical scale:n:v`, for every integer n and every token v that `float()` accepts, calls the vertical-scale setter with channel n and the stripped scale v |
| Dispatch.Server.constructor | server.py:10-17 | a new server uses the given wrapper, has queued nothing and is listening |
| Dispatch.Server.Receive | server.py:31-95 | one pass of the loop: the wrapper's settings, device history, queued messages and whether the loop goes on are those of `React` |
| Dispatch.Server.Invoke | server.py:38-84 | calls the wrapper operation for an action with the effect `Perform` states |
| Session.Decode | client.py:49-89 | what one received text means: nothing, a channel's data, an assignment of one mirror field, or a crash of the listener; characterised by `ChannelMessageRecorded`, `ErrorChangesNothing`, `UntaggedIgnored` and `InfoOverwritesOneField` |
| Session.Received | client.py:46-89 | the client state after one pass of the listener, obtained by applying `Decode`'s meaning to the state; characterised by the same lemmas as `Decode` and by the acknowledgement lemmas of `Protocol` |
| Session.Convert | client.py:66-87 | the conversion a sub-tag applies to its token: `float()` (giving the stripped literal), `int()` (giving the integer's text) or none, failing where the model's `float()` or `int()` rejects the token; used by `InfoOverwritesOneField` and `AckMirrored` |
| Session.TagOf | client.py:54-64 | the message kind: `[C-1]` is tested first, then `[C-2]`, `[ERROR]` and `[INFO]` |
| Session.FirstSubTag | client.py:66-87 | the acknowledgement sub-tag chosen is one that occurs in the text; none is chosen only when none of them occurs |
| Session.MirrorDefaultsAgree | client.py:27-38 | the client's initial mirror equals the wrapper's defaults, field by field |
| Session.ChannelMessageRecorded | client.py:54-61 | a channel message stores the token after the first colon as that channel's latest data and appends it to that channel's file; without a colon the listener stops; the mirror never changes |
| Session.ErrorChangesNothing | client.py:62-63 | an `[ERROR]` message changes nothing, except that one without a colon stops the listener |
| Session.UntaggedIgnored | client.py:88-89 | a text with none of the tags changes nothing |
| Session.InfoOverwritesOneField | client.py:64-87 | an `[INFO]` message with a known sub-tag overwrites exactly that sub-tag's field with the converted token; a missing token or a failed conversion stops the listener; an unknown sub-tag changes nothing |
| Session.InfoAssigns | client.py:64-87 | information text with the i-th sub-tag as its head, then `:v`, decodes to an assignment of that sub-tag's field (or to a crash when v does not convert) |
| Session.Client.constructor | client.py:8-38 | a new client has the default mirror, no channel data, each channel file holding its header line, a log holding the start line, and a running listener |
| Session.Client.Receive | client.py:46-89 | one pass of the listener: the new client state is `Received` of the old one, and nothing is logged or sent |
| Session.Client.WriteMeasurement | client.py:91-108 | channel 1 or 2 appends the data to that channel's file; any other channel writes nothing; all else unchanged |
| Session.Client.SendMessage | client.py:116-129 | logs `[now]: m` and then sends m, where m is the stripped message; the client state is unchanged |
| Protocol.AckMirrored | client.py:70-87 | the acknowledgement of the time-scale, time-offset, samples and trigger setters sets exactly the matching mirror field to the value the server reported, when the value is in the form the client's conversion keeps (`MirrorsAs`): a float value is its own stripped literal (`ParseFloat(v) == Some(v)`), a samples value is an integer's text, and a text value holds no `:` and no `]` |
| Protocol.TimeScaleAck | client.py:70-71 | `[INFO][Time Scale]:v` sets the mirror's time scale to v, for v its own stripped float literal (`ParseFloat(v) == Some(v)`) |
| Protocol.TimeOffsetAck | client.py:86-87 | `[INFO][Horizontal Offset]:v` sets the mirror's time offset to v, for v its own stripped float literal |
| Protocol.SamplesAck | client.py:72-73 | `[INFO][Samples]:n` sets the mirror's samples to n, for the text of every integer n |
| Protocol.TriggerSourceAck | client.py:76-77 | `[INFO][Trigger Source]:v` sets the mirror's trigger source to v, for v holding no `:` and no `]` |
| Protocol.TriggerLevelAck | client.py:78-79 | `[INFO][Trigger Level]:v` sets the mirror's trigger level to v, for v its own stripped float literal |
| Protocol.TriggerCouplingAck | client.py:80-81 | `[INFO][Trigger Coupling]:v` sets the mirror's coupling to v, for v holding no `:` and no `]` |
| Protocol.TriggerSlopeAck | client.py:82-83 | `[INFO][Trigger Slope]:v` sets the mirror's slope to v, for v holding no `:` and no `]` |
| Protocol.TriggerModeAck | client.py:84-85 | `[INFO][Trigger Mode]:v` sets the mirror's trigger mode to v, for v holding no `:` and no `]` |
| Protocol.VerticalScaleAckIgnored | oscilloscope.py:47 | for any value v without `]`, the wrapper's vertical-scale acknowledgement `[INFO][C1 Vertical Scale]:v` leaves the client state unchanged |
| Protocol.SamplingRateAckIgnored | oscilloscope.py:70 | for any value v without `]`, the wrapper's sampling-rate acknowledgement `[INFO]:v` leaves the client state unchanged |
| Protocol.ConfirmationsIgnored | oscilloscope.py:77-84 | `[INFO]:Auto Setup Done` and `[INFO]:Exit done` leave the client state unchanged |
| Protocol.FailuresIgnored | oscilloscope.py:25-141 | every failure text except auto setup's leaves the client state unchanged |
| Protocol.RejectionsIgnored | oscilloscope.py:53 | every rejection text leaves the client state unchanged |
| Protocol.AutoSetupFailureStopsClient | oscilloscope.py:79 | the auto-setup failure text stops the client's listener and changes nothing else |
| Protocol.ChannelMessageReceived | server.py:88-93 | a measurement message the server builds for channel 1 or 2, with data holding no `:` and no `]`, becomes that channel's latest data and is appended to its file |
| Protocol.VerticalScaleNeverMirrored | oscilloscope.py:42-55 | for a device whose answers hold no `]`: whatever a vertical-scale change replies (success, failure or rejection), the client state stays as it was |
| Protocol.SamplingRateNeverMirrored | oscilloscope.py:66-72 | for a device whose answers hold no `]`: whatever a sampling-rate change replies, the client state stays as it was |
| Protocol.VerticalScaleExchange | server.py:46-50 | for a device whose answers hold no `]`, `change vertical scale:n:v` for channel 1 or 2 and every token v that `float()` accepts: the server sends one message and keeps listening; the client leaves its state unchanged; and when the device accepted the value, the wrapper holds the read-back value in that channel's field |
| Text.Split | server.py:39 | Python's `split(':')`: at least one piece; joining the pieces gives back the text (`JoinSplit`), and the pieces hold no separator (`SplitPieces`) |
| Text.Strip | client.py:118 | Python's `strip()` over the characters `str.isspace` accepts, including the separators U+001C to U+001F; characterised by `TrimSpec` |
| Text.ParseInt | server.py:52 | Python's `int()` on a token: surrounding whitespace (the `str.isspace` set without U+001C to U+001F), an optional sign and decimal digits; characterised by `IntTextRoundTrip` and `SeparatorAroundNumber` |
| Text.ParseFloat | server.py:39 | Python's `float()` on a token, giving the literal with the same surrounding whitespace as `int()` removed: a decimal literal with an optional exponent, or inf, infinity or nan in any case; `FloatTextChars` shows such a token has no colon, closing bracket or letter m |
| Text.FloatTextChars | server.py:48 | a token `float()` accepts, surrounding whitespace included, holds no colon, no closing bracket and no letter m |
| Text.Upper | oscilloscope.py:110 | Python's `upper()` on ASCII letters, character by character |
| Text.Capitalize | oscilloscope.py:122 | Python's `capitalize()` on ASCII letters: the first character upper-cased and the rest lower-cased |
| Text.Token | server.py:39 | the k-th colon-separated token exists exactly when the text has more than k pieces, and it contains no colon |
| Text.JoinSplit | client.py:55 | joining the colon-separated pieces with colons gives back the text |
| Text.TrimSpec | client.py:118 | for `strip()` and for the whitespace removal of `int()` / `float()`: the trimmed text is the original with only whitespace of that set removed from the two ends; it has none at either end, and trimming again changes nothing |
| Text.SeparatorAroundNumber | server.py:52 | the file separator U+001C around a digit is removed by `strip()`, while `int()` and `float()` reject the text |
| Text.IntTextRoundTrip | server.py:52 | `int()` of the decimal text of n gives back n |
| Instrument.Device.Access | oscilloscope.py:27-28 | one device access is appended to the history, and the result is the device's answer to it given the earlier history |

## Left out

- Sockets, zlib compression and UTF-8 coding are not modelled. The server and the client exchange texts directly. `Server.config_server`, `Client.config`, `start`, `start_dev` and both `__main__` blocks are not part of this model.
- The server's `__send_message` sends from a new thread. The model queues the messages in program order, so reordering between sender threads is not captured. The client's file writes also run on their own thread and are modelled as happening at once, in order.
- The COM automation object, `win32com.client.Dispatch`, is the answer function of `Instrument.Device`. It is not modelled further.
- `print` output of the server and the client is not modelled. This includes the `timed out` message and the client's `Invalid return message`.
- The client's interactive loop, `__send_message_dev`, and its `input` prompt are left out. The loop only strips each line and calls `send_message`, which is modelled.
- Python `float` values are carried as text. A value the instrument reports is stored and echoed as the text the model's device answers with. A float typed by the user is passed on as its stripped literal. Python's float formatting (`1` becoming `1.0`, exponent notation, rounding) is therefore not modelled.
- Text.ParseInt, Text.ParseFloat: Python's `int()` and `float()` are modelled as accepting surrounding whitespace (the `str.isspace` set without the separators U+001C to U+001F, which both reject), an optional sign, and decimal digits or a decimal literal with an optional exponent, `inf`, `infinity` or `nan`. Two forms Python also accepts are not accepted here: underscores between digits, and non-ASCII digits.
- Instrument.IsOne: the result of `Acquire(10)` is judged by its answer text. `is_triggered == 1` holds for the texts `1`, `1.0` and `True`, which stand for the int 1, the float 1.0 and the bool True; any other answer counts as not triggered.
- The wrapper's initial `trigger_channel = 1` and `trigger_level = 1`, and the client's matching fields, are integers in Python. The model carries them as the text `1`.
- The dates and times in file names, headers and log lines are parameters: the client constructor's `timestamp` and `SendMessage`'s `now`. Reading the clock is left out.
- The file names are left out. The model keeps each channel file's contents and the log as sequences.
- A failing file write (the `except` in `__write_measurement_to_file`) and a failing socket send (the `except` in `send_message`) are not modelled. Both only print a message.
- Session.Client.SendMessage: the log line and the send are both always recorded, because a failing send is not modelled.
