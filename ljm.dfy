/**
 * The LabJack `ljm` library as the controllers see it. Every call into it is foreign:
 * the device answers each call with any reply of the right shape, and a ghost trace
 * records every call issued together with the reply it got, in order.
 */
module Ljm {
  import opened Wrappers

  // Vendor constants. Only their identity matters to the controllers, so their values are left open.
  const WARNINGS_END: int   // ljm.errorcodes.WARNINGS_END: codes above it are errors, the rest warnings
  const UINT16: int         // ljm.constants.UINT16: data type tag of a 16-bit register
  const DEMO_MODE: string   // ljm.constants.DEMO_MODE: identifier of the simulated device
  const DT_T4: int          // ljm.constants.dtT4: device model
  const CT_TCP: int         // ljm.constants.ctTCP: connection type

  /** Python exceptions that reach or leave the controllers. */
  datatype Error =
    | RuntimeError(msg: string)
    | TypeError(msg: string)
    | ValueError(msg: string)
    | LJMError(code: int)        // ljm.LJMError, carrying its errorCode
    | OtherError(kind: string)   // any other exception raised by foreign code

  /** One call into the library (or into the data-client base class that wraps it). */
  datatype Call =
    | OpenConfigured   // BaseLabJackDataClient._blocking_connect: opens the configured device
    | Open(deviceType: int, connectionType: int, identifier: Option<string>)
    | Close(handle: Option<int>)
    | ReadName(handle: Option<int>, name: string)
    | WriteName(handle: Option<int>, name: string, value: real)
    | WriteAddresses(handle: Option<int>, numFrames: int, addresses: seq<int>, dataTypes: seq<int>, values: seq<bool>)
    | ReadNames(handle: Option<int>, numFrames: int, names: set<string>)

  /** What a call did: returned a handle, one value, several values, nothing, or raised. */
  datatype Reply =
    | Opened(handle: int)
    | Value(x: real)
    | Values(xs: seq<real>)
    | Done
    | Raised(error: Error)

  /** The replies a call can give: its own kind of return value, or an exception. */
  predicate Fits(c: Call, r: Reply)
  {
    r.Raised? ||
    match c
    case OpenConfigured => r.Opened?
    case Open(_, _, _) => r.Opened?
    case ReadName(_, _) => r.Value?
    case ReadNames(_, _, _) => r.Values?
    case _ => r.Done?
  }

  /** The device behind the library; its replies are not under the controllers' control. */
  class Device {
    ghost var calls: seq<Call>
    ghost var replies: seq<Reply>

    ghost predicate Valid()
      reads this
    {
      |calls| == |replies|
    }

    constructor ()
      ensures Valid() && calls == [] && replies == []
    {
      calls, replies := [], [];
    }

    /** Issues `c`; the device answers with any reply that fits it. */
    method Invoke(c: Call) returns (r: Reply)
      requires Valid()
      modifies this
      ensures Valid() && Fits(c, r)
      ensures calls == old(calls) + [c] && replies == old(replies) + [r]
    {
      assert Fits(c, Raised(OtherError("device")));
      r :| Fits(c, r);
      calls, replies := calls + [c], replies + [r];
    }
  }
}
