/**
  The LeCroy XStreamDSO automation object, seen only through the property accesses the
  oscilloscope wrapper makes. Every access either returns a value (the text Python would
  obtain) or fails, which stands for the COM call raising an exception. What the device
  answers is an arbitrary function of everything it has been asked so far, so clamping,
  rounding, timeouts and intermittent failures are all instances of it.
 */
module Instrument {
  import opened Wrappers

  /** The device properties the wrapper writes or reads. */
  datatype Property =
    | HorScale                 // Acquisition.Horizontal.HorScale
    | HorOffset                // Acquisition.Horizontal.HorOffset
    | SampleRate               // Acquisition.Horizontal.SampleRate
    | VerScale(channel: int)   // Acquisition.C<n>.VerScale
    | OutSamples(channel: int) // Acquisition.C<n>.Out.Result.Samples
    | OutData(channel: int)    // Acquisition.C<n>.Out.Result.DataArray
    | EdgeSource               // Acquisition.Trigger.Edge.Source
    | EdgeLevel                // Acquisition.Trigger.Edge.Level
    | EdgeCoupling             // Acquisition.Trigger.Edge.Coupling
    | EdgeSlope                // Acquisition.Trigger.Edge.Slope
    | AcquisitionMode          // Acquisition.TriggerMode

  /** One interaction with the device. */
  datatype Access =
    | Put(property: Property, value: string)  // property assignment
    | Get(property: Property)                 // property read
    | RunAutoSetup                            // scope.AutoSetup
    | RunExit                                 // scope.Exit
    | Acquire(timeout: int)                   // Acquisition.Acquire(timeout)

  /** The device's behaviour: its reply to an access after the given history; None = raised. */
  type Answer = (seq<Access>, Access) -> Option<string>

  /** Acquire's result compares equal to 1 (Python's `is_triggered == 1`). */
  predicate IsOne(v: string) {
    v == "1" || v == "1.0" || v == "True"
  }

  class Device {
    const answer: Answer
    /** Every access made so far, oldest first. */
    var history: seq<Access>

    constructor (answer: Answer)
      ensures this.answer == answer && history == []
    {
      this.answer := answer;
      history := [];
    }

    /** Performs one access: it is recorded and answered according to the history before it. */
    method Access(a: Access) returns (r: Option<string>)
      modifies this
      ensures history == old(history) + [a]
      ensures r == answer(old(history), a)
    {
      r := answer(history, a);
      history := history + [a];
    }
  }
}
