/**
 * `ReflectorController` (reflector.py): owns one LabJack port and the device handle, and
 * actuates the reflector by writing one register, connecting first when there is no handle.
 *
 * `ConnectRun` and `ActuateRun` say what the blocking operations do for every sequence of
 * replies the device may give; the methods are proved to follow them, and the lemmas state
 * what the source promises about them.
 */
module Reflector {
  import opened Wrappers
  import opened Ljm
  import opened Channels

  const CANT_CONNECT := "Labjack can't connect"
  const LJM_REPORTED := "ljm reported error, see log"
  const INVALID_TARGET := "is an invalid state to set the reflector to"
  const INVALID_STATUS := "Status to set reflector to is not valid"
  const LENGTH_MISMATCH := "len(input_channel_names) != len(values)"

  // ---------------------------------------------------------------------------
  // Accepted targets and statuses
  // ---------------------------------------------------------------------------

  /** The gate of `_blocking_actuate_reflector`: `t in [ON, OFF, False, True]`, by Python equality. */
  predicate ValidTarget(t: Target, v: Valuation)
  {
    PyEq(t, St(ON), v) || PyEq(t, St(OFF), v) || PyEq(t, B(false), v) || PyEq(t, B(true), v)
  }

  /** The gate lets through ON, OFF, the bools, and any other member whose value is 0 or 1. */
  lemma ValidTargetIff(t: Target, v: Valuation)
    requires Distinct(v)
    ensures ValidTarget(t, v) <==>
      t == St(ON) || t == St(OFF) || t.B? || (t.St? && (v(t.state) == 0 || v(t.state) == 1))
  {
  }

  /** No member other than ON and OFF has the value 0 or 1 (so none equals a bool). */
  ghost predicate NoBoolAliases(v: Valuation)
  {
    forall s :: s != ON && s != OFF ==> v(s) != 0 && v(s) != 1
  }

  /** When no other member equals a bool, the gate accepts exactly what `check_valid` accepts: ON, OFF and the bools. */
  lemma ValidTargetExact(t: Target, v: Valuation)
    requires Distinct(v) && NoBoolAliases(v)
    ensures ValidTarget(t, v) <==> CheckValid(t, v)
    ensures ValidTarget(t, v) <==> t == St(ON) || t == St(OFF) || t.B?
  {
    ValidTargetIff(t, v);
    CheckValidIff(t, v);
  }

  /** Every member of `ReflectorState`. */
  const Members: seq<ReflectorState> := [UNKNOWN, ON, OFF, ERROR]

  lemma MembersComplete(s: ReflectorState)
    ensures s in Members
  {
  }

  /** `t in ReflectorState` (Python 3.12 and later): a member, or a value equal to some member's value. */
  predicate InEnum(t: Target, v: Valuation)
  {
    match t
    case St(_) => true
    case B(b) => exists s :: s in Members && v(s) == BoolInt(b)
    case Other(_) => false
  }

  /** `t in [False, True]`, by Python equality. */
  predicate InBools(t: Target, v: Valuation)
  {
    PyEq(t, B(false), v) || PyEq(t, B(true), v)
  }

  /** The guard of `_set_state` as written: it raises when `t not in ReflectorState or t not in [False, True]`. */
  predicate SetStateAccepts(t: Target, v: Valuation)
  {
    !(!InEnum(t, v) || !InBools(t, v))
  }

  /** As written, `_set_state` accepts only members whose value is 0 or 1, and bools equal to some member. */
  lemma SetStateAcceptsIff(t: Target, v: Valuation)
    ensures SetStateAccepts(t, v) <==>
      (t.St? && (v(t.state) == 0 || v(t.state) == 1)) ||
      (t.B? && exists s :: v(s) == BoolInt(t.b))
  {
    if t.B? && exists s :: v(s) == BoolInt(t.b) {
      var s :| v(s) == BoolInt(t.b);
      MembersComplete(s);
    }
  }

  /** As written, `_set_state(ON)` raises ValueError whenever ON's value is neither 0 nor 1. */
  lemma SetStateRejectsOn(v: Valuation)
    requires v(ON) != 0 && v(ON) != 1
    ensures !SetStateAccepts(St(ON), v)
  {
  }

  /** As written, whatever the members' values, at least one of UNKNOWN, ON and OFF is refused. */
  lemma SetStateRefusesAMember(v: Valuation)
    requires Distinct(v)
    ensures !SetStateAccepts(St(UNKNOWN), v) || !SetStateAccepts(St(ON), v) || !SetStateAccepts(St(OFF), v)
  {
  }

  /** The guard meant: raise only when `t` is neither a member nor a bool. */
  predicate SetStateAcceptsIntended(t: Target, v: Valuation)
  {
    InEnum(t, v) || InBools(t, v)
  }

  /** The intended guard accepts exactly the members and the bools, and refuses anything else such as "bogus". */
  lemma SetStateIntendedIff(t: Target, v: Valuation)
    ensures SetStateAcceptsIntended(t, v) <==> t.St? || t.B?
  {
  }

  // ---------------------------------------------------------------------------
  // Connecting
  // ---------------------------------------------------------------------------

  /** The result of a blocking operation: the device calls it issued, the handle it left, its outcome. */
  datatype Run = Run(calls: seq<Call>, handle: Option<int>, outcome: Outcome<Error>)

  /** The reply to the `i`-th call, if there is one. */
  function ReplyAt(rs: seq<Reply>, i: nat): Reply
  {
    if i < |rs| then rs[i] else Raised(OtherError("no reply"))
  }

  /** The exception a reply raised. */
  function ErrorOf(r: Reply): Error
  {
    if r.Raised? then r.error else OtherError("unexpected reply")
  }

  /** `set(channel)`: the distinct one-character strings of the channel name. */
  function CharNames(name: string): set<string>
  {
    set i | 0 <= i < |name| :: [name[i]]
  }

  /** The calls that configure the device once it is open on `h`: the two digital-mode writes, then the read-back. */
  function ConfigureCalls(h: Option<int>, names: set<string>): seq<Call>
  {
    [WriteName(h, "DIO_INHIBIT", 0.0), WriteName(h, "DIO_ANALOG_ENABLE", 0.0), ReadNames(h, |names|, names)]
  }

  /**
   * What `_blocking_connect` does when the device gives the replies `rs`: open (the base class),
   * then the digital-mode writes and the read-back, stopping at the first exception; a read-back
   * of the wrong length raises RuntimeError.
   */
  function ConnectRun(h0: Option<int>, names: set<string>, rs: seq<Reply>): Run
  {
    var reply0 := ReplyAt(rs, 0);
    if !reply0.Opened? then Run([OpenConfigured], h0, Fail(ErrorOf(reply0)))
    else
      var h := Some(reply0.handle);
      var script := [OpenConfigured] + ConfigureCalls(h, names);
      var inhibit, analog, read := ReplyAt(rs, 1), ReplyAt(rs, 2), ReplyAt(rs, 3);
      if inhibit.Raised? then Run(script[..2], h, Fail(inhibit.error))
      else if analog.Raised? then Run(script[..3], h, Fail(analog.error))
      else if !read.Values? then Run(script, h, Fail(ErrorOf(read)))
      else if |read.xs| != |names| then Run(script, h, Fail(RuntimeError(LENGTH_MISMATCH)))
      else Run(script, h, Pass)
  }

  /** A connect that succeeds has opened the device, written DIO_INHIBIT then DIO_ANALOG_ENABLE, and read back one value per name. */
  lemma ConnectRunSucceeds(h0: Option<int>, names: set<string>, rs: seq<Reply>)
    requires ConnectRun(h0, names, rs).outcome.Pass?
    ensures |rs| >= 4 && rs[0].Opened? && rs[3].Values? && |rs[3].xs| == |names|
    ensures var run := ConnectRun(h0, names, rs);
      run.handle == Some(rs[0].handle) &&
      run.calls == [OpenConfigured, WriteName(run.handle, "DIO_INHIBIT", 0.0),
                    WriteName(run.handle, "DIO_ANALOG_ENABLE", 0.0), ReadNames(run.handle, |names|, names)]
  {
  }

  /** A connect whose open fails leaves the handle as it was and issues nothing else. */
  lemma ConnectRunOpenFails(h0: Option<int>, names: set<string>, rs: seq<Reply>)
    requires !ReplyAt(rs, 0).Opened?
    ensures ConnectRun(h0, names, rs) == Run([OpenConfigured], h0, Fail(ErrorOf(ReplyAt(rs, 0))))
  {
  }

  /** A connect that opened keeps the opened handle, even when a later step fails; one that did not open leaves the handle as it was. */
  lemma ConnectRunHandle(h0: Option<int>, names: set<string>, rs: seq<Reply>)
    ensures ConnectRun(h0, names, rs).handle ==
      if ReplyAt(rs, 0).Opened? then Some(ReplyAt(rs, 0).handle) else h0
  {
  }

  /** The documented failure: a read-back whose length differs from the number of names raises RuntimeError after all four calls. */
  lemma ConnectRunLengthMismatch(h0: Option<int>, names: set<string>, rs: seq<Reply>)
    requires |rs| >= 4 && rs[0].Opened? && !rs[1].Raised? && !rs[2].Raised?
    requires rs[3].Values? && |rs[3].xs| != |names|
    ensures ConnectRun(h0, names, rs) ==
      Run([OpenConfigured] + ConfigureCalls(Some(rs[0].handle), names), Some(rs[0].handle), Fail(RuntimeError(LENGTH_MISMATCH)))
  {
  }

  /** A connect examines only the replies to the calls it issued, so later replies do not change it. */
  lemma ConnectRunPrefix(h0: Option<int>, names: set<string>, rs: seq<Reply>, more: seq<Reply>)
    requires |ConnectRun(h0, names, rs).calls| <= |rs|
    ensures ConnectRun(h0, names, rs + more) == ConnectRun(h0, names, rs)
  {
    var k := |ConnectRun(h0, names, rs).calls|;
    forall i | 0 <= i < k
      ensures ReplyAt(rs + more, i) == ReplyAt(rs, i)
    {
    }
  }

  /** The read-back asks for at most as many names as the channel name has characters, and never for the channel itself. */
  lemma {:induction false} CharNamesBound(name: string)
    ensures |CharNames(name)| <= |name|
    ensures |name| != 1 ==> name !in CharNames(name)
  {
    if |name| > 0 {
      var init := name[..|name| - 1];
      CharNamesBound(init);
      assert CharNames(name) == CharNames(init) + {[name[|name| - 1]]} by {
        forall x | x in CharNames(name) ensures x in CharNames(init) + {[name[|name| - 1]]} {
          var i :| 0 <= i < |name| && x == [name[i]];
          if i < |name| - 1 {
            assert x == [init[i]];
          }
        }
        forall x | x in CharNames(init) ensures x in CharNames(name) {
          var i :| 0 <= i < |init| && x == [init[i]];
          assert x == [name[i]];
        }
      }
    }
  }

  /** As written, the read-back for DIO1 asks for the four names "D", "I", "O" and "1". */
  lemma ReadBackOfDio1()
    ensures CharNames("DIO1") == {"D", "I", "O", "1"}
    ensures "DIO1" !in CharNames("DIO1")
  {
    var name := "DIO1";
    assert [name[0]] == "D" && [name[1]] == "I" && [name[2]] == "O" && [name[3]] == "1";
    forall x | x in CharNames(name) ensures x in {"D", "I", "O", "1"} {
      var i :| 0 <= i < |name| && x == [name[i]];
    }
  }

  /** The read-back meant by "read each input channel": the configured channel, one frame. */
  function IntendedReadNames(channel: string): (names: set<string>)
    ensures channel in names && |names| == 1
  {
    {channel}
  }

  // ---------------------------------------------------------------------------
  // Actuating
  // ---------------------------------------------------------------------------

  /** The one-element batch: register `addr`, typed UINT16, and the target's bit. */
  function BatchCall(h: Option<int>, addr: nat, t: Target, v: Valuation): Call
  {
    WriteAddresses(h, 1, [addr], [UINT16], [WriteValue(t, v)])
  }

  /** How the batch's reply is judged: an LJM code above WARNINGS_END becomes a RuntimeError, a lower one is only a warning. */
  function WriteOutcome(r: Reply): Outcome<Error>
  {
    if !r.Raised? then Pass
    else if r.error.LJMError? then
      if r.error.code > WARNINGS_END then Fail(RuntimeError(LJM_REPORTED)) else Pass
    else Fail(r.error)
  }

  /** The batch fails exactly on an LJM error above the warning range or on any other exception. */
  lemma WriteOutcomeIff(r: Reply)
    ensures WriteOutcome(r).Pass? <==> !r.Raised? || (r.error.LJMError? && r.error.code <= WARNINGS_END)
    ensures r.Raised? && r.error.LJMError? && r.error.code > WARNINGS_END ==>
      WriteOutcome(r) == Fail(RuntimeError(LJM_REPORTED))
  {
  }

  /**
   * What `_blocking_actuate_reflector(t)` does when the device gives the replies `rs`, for a
   * port at register `addr` whose connect reads back `names`: refuse an invalid target, connect
   * when there is no handle (a RuntimeError while connecting becomes "Labjack can't connect"),
   * then write the batch and judge its reply.
   */
  function ActuateRun(h0: Option<int>, addr: nat, names: set<string>, t: Target, v: Valuation, rs: seq<Reply>): Run
  {
    if !ValidTarget(t, v) then Run([], h0, Fail(TypeError(INVALID_TARGET)))
    else if h0.Some? then Run([BatchCall(h0, addr, t, v)], h0, WriteOutcome(ReplyAt(rs, 0)))
    else
      var c := ConnectRun(h0, names, rs);
      if c.outcome.Fail? then
        var e := c.outcome.error;
        Run(c.calls, c.handle, Fail(if e.RuntimeError? then RuntimeError(CANT_CONNECT) else e))
      else
        Run(c.calls + [BatchCall(c.handle, addr, t, v)], c.handle, WriteOutcome(ReplyAt(rs, |c.calls|)))
  }

  /** The code as written on `channel`: the batch goes to `address()` and connect reads back `set(channel)`. */
  function ActuateRunAsWritten(h0: Option<int>, channel: string, t: Target, v: Valuation, rs: seq<Reply>): Run
    requires ValidChannel(channel)
  {
    ActuateRun(h0, Address(channel), CharNames(channel), t, v, rs)
  }

  /** The corrected run on `channel`: the DAC offset applied and the channel itself read back. */
  function ActuateRunIntended(h0: Option<int>, channel: string, t: Target, v: Valuation, rs: seq<Reply>): Run
    requires ValidChannel(channel)
  {
    ActuateRun(h0, ModbusAddress(channel), IntendedReadNames(channel), t, v, rs)
  }

  /** An invalid target raises TypeError before any device call, and the handle is untouched. */
  lemma ActuateInvalidTarget(h0: Option<int>, addr: nat, names: set<string>, t: Target, v: Valuation, rs: seq<Reply>)
    requires !ValidTarget(t, v)
    ensures ActuateRun(h0, addr, names, t, v, rs) == Run([], h0, Fail(TypeError(INVALID_TARGET)))
  {
  }

  /** With a handle, a valid target issues exactly the one batch write, whatever the current status. */
  lemma ActuateWhenConnected(h0: Option<int>, addr: nat, names: set<string>, t: Target, v: Valuation, rs: seq<Reply>)
    requires ValidTarget(t, v) && h0.Some?
    ensures var run := ActuateRun(h0, addr, names, t, v, rs);
      run.calls == [WriteAddresses(h0, 1, [addr], [UINT16], [WriteValue(t, v)])] &&
      run.handle == h0 && run.outcome == WriteOutcome(ReplyAt(rs, 0))
  {
  }

  /**
   * Without a handle, a failed connect ends the actuation: a RuntimeError becomes "Labjack can't
   * connect", other exceptions propagate, no batch is written, and the handle is the one the
   * connect left (the opened one, if opening succeeded).
   */
  lemma ActuateConnectFails(addr: nat, names: set<string>, t: Target, v: Valuation, rs: seq<Reply>)
    requires ValidTarget(t, v)
    requires ConnectRun(None, names, rs).outcome.Fail?
    ensures var run := ActuateRun(None, addr, names, t, v, rs);
      var c := ConnectRun(None, names, rs);
      var e := c.outcome.error;
      && (e.RuntimeError? ==> run.outcome == Fail(RuntimeError(CANT_CONNECT)))
      && (!e.RuntimeError? ==> run.outcome == Fail(e))
      && run.calls == c.calls && run.handle == c.handle
      && (forall i :: 0 <= i < |run.calls| ==> !run.calls[i].WriteAddresses?)
  {
  }

  /**
   * An actuation that succeeds wrote exactly one batch, as its last call, on the handle it
   * ends with; without a handle at the start it first connected in full. Its batch reply was
   * no exception, or an LJM warning.
   */
  lemma ActuateSucceeds(h0: Option<int>, addr: nat, names: set<string>, t: Target, v: Valuation, rs: seq<Reply>)
    requires ActuateRun(h0, addr, names, t, v, rs).outcome.Pass?
    ensures var run := ActuateRun(h0, addr, names, t, v, rs);
      var batch := WriteAddresses(run.handle, 1, [addr], [UINT16], [WriteValue(t, v)]);
      && ValidTarget(t, v) && run.handle.Some?
      && (h0.Some? ==> run.calls == [batch])
      && (h0.None? ==> run.calls == [OpenConfigured] + ConfigureCalls(run.handle, names) + [batch])
      && var last := ReplyAt(rs, |run.calls| - 1);
         !last.Raised? || (last.error.LJMError? && last.error.code <= WARNINGS_END)
  {
    if h0.None? {
      ConnectRunSucceeds(h0, names, rs);
      WriteOutcomeIff(ReplyAt(rs, 4));
    } else {
      WriteOutcomeIff(ReplyAt(rs, 0));
    }
  }

  /**
   * The converse: a valid target succeeds exactly when, with a handle, the batch reply passes,
   * and without one, the connect succeeds and the batch reply (the fifth) passes.
   */
  lemma ActuatePassIff(h0: Option<int>, addr: nat, names: set<string>, t: Target, v: Valuation, rs: seq<Reply>)
    requires ValidTarget(t, v)
    ensures h0.Some? ==>
      (ActuateRun(h0, addr, names, t, v, rs).outcome.Pass? <==> WriteOutcome(ReplyAt(rs, 0)).Pass?)
    ensures h0.None? ==>
      (ActuateRun(h0, addr, names, t, v, rs).outcome.Pass? <==>
        ConnectRun(None, names, rs).outcome.Pass? && WriteOutcome(ReplyAt(rs, 4)).Pass?)
  {
    if h0.None? && ConnectRun(None, names, rs).outcome.Pass? {
      ConnectRunSucceeds(None, names, rs);
    }
  }

  /**
   * A read-back of the wrong length fails the actuation with "Labjack can't connect" but keeps
   * the opened handle, so the next actuation skips connecting and writes only its batch.
   */
  lemma ActuateCantConnectKeepsHandle(addr: nat, names: set<string>, t: Target, v: Valuation, rs: seq<Reply>, next: seq<Reply>)
    requires ValidTarget(t, v)
    requires |rs| >= 4 && rs[0].Opened? && !rs[1].Raised? && !rs[2].Raised?
    requires rs[3].Values? && |rs[3].xs| != |names|
    ensures var run := ActuateRun(None, addr, names, t, v, rs);
      && run.outcome == Fail(RuntimeError(CANT_CONNECT))
      && run.handle == Some(rs[0].handle)
      && ActuateRun(run.handle, addr, names, t, v, next).calls == [BatchCall(run.handle, addr, t, v)]
  {
    ConnectRunLengthMismatch(None, names, rs);
  }

  /**
   * An exception other than RuntimeError raised after the open (here by the DIO_INHIBIT write)
   * is not caught: it propagates unchanged, yet the opened handle is kept, so the next actuation
   * also skips connecting and writes only its batch.
   */
  lemma ActuateOtherErrorKeepsHandle(addr: nat, names: set<string>, t: Target, v: Valuation, rs: seq<Reply>, next: seq<Reply>)
    requires ValidTarget(t, v)
    requires |rs| >= 2 && rs[0].Opened? && rs[1].Raised? && !rs[1].error.RuntimeError?
    ensures var run := ActuateRun(None, addr, names, t, v, rs);
      && run.outcome == Fail(rs[1].error)
      && run.handle == Some(rs[0].handle)
      && ActuateRun(run.handle, addr, names, t, v, next).calls == [BatchCall(run.handle, addr, t, v)]
  {
    ActuateConnectFails(addr, names, t, v, rs);
  }

  /** As written, a controller on DAC1 that holds a handle writes its batch to register 2, AIN1's; corrected, to 1002. */
  lemma ActuateDac1(h: int, t: Target, v: Valuation, rs: seq<Reply>)
    requires ValidTarget(t, v)
    ensures ValidChannel("DAC1")
    ensures ActuateRunAsWritten(Some(h), "DAC1", t, v, rs).calls == [WriteAddresses(Some(h), 1, [2], [UINT16], [WriteValue(t, v)])]
    ensures ActuateRunIntended(Some(h), "DAC1", t, v, rs).calls == [WriteAddresses(Some(h), 1, [1002], [UINT16], [WriteValue(t, v)])]
  {
    DacSharesAinAddress();
    ModbusAddressDac1();
  }

  // ---------------------------------------------------------------------------
  // The controller
  // ---------------------------------------------------------------------------

  /** The reflector controller: the device handle (None when disconnected) and the port it drives. */
  class ReflectorController {
    var handle: Option<int>
    const item: LabjackChannel
    const dev: Device
    const enumValue: Valuation

    ghost predicate Valid()
      reads this, dev
    {
      ValidChannel(item.channel) && dev.Valid()
    }

    constructor (item: LabjackChannel, dev: Device, v: Valuation)
      requires ValidChannel(item.channel) && dev.Valid()
      ensures Valid() && handle == None && this.item == item && this.dev == dev && enumValue == v
    {
      handle := None;
      this.item := item;
      this.dev := dev;
      enumValue := v;
    }

    /**
     * `ReflectorController(config, status=...)`: builds the port from the configured channel
     * name (TypeError when it fails the check); the status defaults to UNKNOWN; no handle yet.
     */
    static method Create(channelName: string, dev: Device, v: Valuation, status: Target := St(UNKNOWN))
      returns (r: Result<ReflectorController, Error>)
      requires dev.Valid()
      ensures r.Success? <==> ValidChannel(channelName)
      ensures r.Failure? ==> r.error == TypeError("Invalid labjack channel " + channelName)
      ensures r.Success? ==>
        var c := r.value;
        fresh(c) && fresh(c.item) && c.Valid() && c.handle == None && c.dev == dev && c.enumValue == v &&
        c.item.channel == channelName && c.item.status == status
    {
      var item := LabjackChannel.Create(channelName, status);
      if item.Failure? {
        return Failure(item.error);
      }
      var c := new ReflectorController(item.value, dev, v);
      return Success(c);
    }

    /** `get_state`: the status stored on the port; reading it changes nothing. */
    function GetState(): (s: Target)
      reads item
      ensures s == item.status
    {
      item.status
    }

    /** `_set_state`, with the intended guard: assigns a member or a bool, else raises ValueError and changes nothing. */
    method SetState(status: Target) returns (r: Outcome<Error>)
      modifies item
      ensures r.Pass? <==> SetStateAcceptsIntended(status, enumValue)
      ensures r.Fail? ==> r.error == ValueError(INVALID_STATUS)
      ensures item.status == if r.Pass? then status else old(item.status)
    {
      if !InEnum(status, enumValue) && !InBools(status, enumValue) {
        return Fail(ValueError(INVALID_STATUS));
      }
      item.status := status;
      return Pass;
    }

    /** `_blocking_connect`: follows `ConnectRun` on the replies the device gives; the status is untouched. */
    method BlockingConnect() returns (r: Outcome<Error>)
      requires Valid()
      modifies this, dev
      ensures Valid() && |dev.replies| >= |old(dev.replies)|
      ensures var n := |old(dev.replies)|;
        var run := ConnectRun(old(handle), IntendedReadNames(item.channel), dev.replies[n..]);
        && dev.calls == old(dev.calls) + run.calls
        && dev.replies[..n] == old(dev.replies)
        && handle == run.handle && r == run.outcome
    {
      ghost var n := |dev.replies|;
      ghost var r0, c0 := dev.replies, dev.calls;
      var names := IntendedReadNames(item.channel);
      var reply0 := dev.Invoke(OpenConfigured);
      assert dev.replies[..n] == r0 && dev.replies[n..] == [reply0];
      if !reply0.Opened? {
        ConnectRunOpenFails(old(handle), names, [reply0]);
        return Fail(reply0.error);
      }
      handle := Some(reply0.handle);
      ghost var script := [OpenConfigured] + ConfigureCalls(handle, names);
      var inhibit := dev.Invoke(WriteName(handle, "DIO_INHIBIT", 0.0));
      assert dev.replies[..n] == r0 && dev.replies[n..] == [reply0, inhibit];
      assert dev.calls == c0 + script[..2];
      if inhibit.Raised? {
        return Fail(inhibit.error);
      }
      var analog := dev.Invoke(WriteName(handle, "DIO_ANALOG_ENABLE", 0.0));
      assert dev.replies[..n] == r0 && dev.replies[n..] == [reply0, inhibit, analog];
      assert dev.calls == c0 + script[..3];
      if analog.Raised? {
        return Fail(analog.error);
      }
      var values := dev.Invoke(ReadNames(handle, |names|, names));
      assert dev.replies[..n] == r0 && dev.replies[n..] == [reply0, inhibit, analog, values];
      assert dev.calls == c0 + script;
      if values.Raised? {
        return Fail(values.error);
      }
      if |values.xs| != |names| {
        return Fail(RuntimeError(LENGTH_MISMATCH));
      }
      return Pass;
    }

    /**
     * `_blocking_actuate_reflector`: follows `ActuateRunIntended` on the replies the device gives, and
     * sets the status to the target exactly when it succeeds.
     */
    method BlockingActuateReflector(actuate: Target) returns (r: Outcome<Error>)
      requires Valid()
      modifies this, item, dev
      ensures Valid() && |dev.replies| >= |old(dev.replies)|
      ensures var n := |old(dev.replies)|;
        var run := ActuateRunIntended(old(handle), item.channel, actuate, enumValue, dev.replies[n..]);
        && dev.calls == old(dev.calls) + run.calls
        && dev.replies[..n] == old(dev.replies)
        && handle == run.handle && r == run.outcome
      ensures item.status == if r.Pass? then actuate else old(item.status)
    {
      ghost var n := |dev.replies|;
      ghost var c0 := dev.calls;
      ghost var addr, names := ModbusAddress(item.channel), IntendedReadNames(item.channel);
      if !ValidTarget(actuate, enumValue) {
        return Fail(TypeError(INVALID_TARGET));
      }
      if handle.None? {
        var connected := BlockingConnect();
        if connected.Fail? {
          return Fail(if connected.error.RuntimeError? then RuntimeError(CANT_CONNECT) else connected.error);
        }
        ConnectRunSucceeds(None, names, dev.replies[n..]);
      }
      ghost var m := |dev.replies|;
      var w := dev.Invoke(BatchCall(handle, ModbusAddress(item.channel), actuate, enumValue));
      assert dev.replies[n..] == dev.replies[n..m] + [w];
      if old(handle).None? {
        ConnectRunPrefix(old(handle), names, dev.replies[n..m], [w]);
        assert m - n == 4;
      }
      ghost var run := ActuateRun(old(handle), addr, names, actuate, enumValue, dev.replies[n..]);
      assert dev.calls == c0 + run.calls && handle == run.handle && run.outcome == WriteOutcome(w);
      if w.Raised? && w.error.LJMError? {
        if w.error.code > WARNINGS_END {
          return Fail(RuntimeError(LJM_REPORTED));
        }
      } else if w.Raised? {
        return Fail(w.error);
      }
      item.status := actuate;
      return Pass;
    }
  }

  /**
   * A controller on DIO1 starts UNKNOWN, refuses the status "bogus", accepts the status OFF,
   * refuses to actuate to UNKNOWN or ERROR without touching the device (the status stays OFF),
   * and holds ON after an actuation to ON succeeds.
   */
  method StatusScenario(dev: Device, v: Valuation)
    returns (initial: Target, bogus: Outcome<Error>, setOff: Outcome<Error>, toUnknown: Outcome<Error>,
             toError: Outcome<Error>, afterRefusals: Target, toOn: Outcome<Error>, afterOn: Target)
    requires dev.Valid() && Distinct(v) && NoBoolAliases(v)
    modifies dev
    ensures initial == St(UNKNOWN)
    ensures bogus == Fail(ValueError(INVALID_STATUS)) && setOff == Pass
    ensures toUnknown == Fail(TypeError(INVALID_TARGET)) && toError == Fail(TypeError(INVALID_TARGET))
    ensures afterRefusals == St(OFF)
    ensures toOn.Pass? ==> afterOn == St(ON)
  {
    assert Code(DIO) + Decimal(1) == "DIO1";
    SpelledChannel(DIO, Decimal(1));
    var made := ReflectorController.Create("DIO1", dev, v);
    var c := made.value;
    initial := c.GetState();
    bogus := c.SetState(Other("bogus"));
    setOff := c.SetState(St(OFF));
    ValidTargetExact(St(UNKNOWN), v);
    ValidTargetExact(St(ERROR), v);
    ghost var addr, names := ModbusAddress("DIO1"), IntendedReadNames("DIO1");
    ghost var h0, n0 := c.handle, |dev.replies|;
    toUnknown := c.BlockingActuateReflector(St(UNKNOWN));
    ActuateInvalidTarget(h0, addr, names, St(UNKNOWN), v, dev.replies[n0..]);
    ghost var h1, n1 := c.handle, |dev.replies|;
    toError := c.BlockingActuateReflector(St(ERROR));
    ActuateInvalidTarget(h1, addr, names, St(ERROR), v, dev.replies[n1..]);
    afterRefusals := c.GetState();
    toOn := c.BlockingActuateReflector(St(ON));
    afterOn := c.GetState();
  }
}
