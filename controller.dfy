/**
 * `Controller` (controller.py): the two-channel reflector controller. It holds the LabJack
 * handle (None when disconnected), drives the screen with an ordered pair of writes to CIO1
 * and CIO0, and decodes the CIO_STATE register into the reflector status.
 *
 * Every device call goes through `run`, which swallows exceptions and yields None instead,
 * so a failed call shows only as a missing value.
 */
module MTController {
  import opened Wrappers
  import opened Ljm

  const NOT_CONNECTED := "Labjack is not connected."
  const UNKNOWN_STATE := "Reflector is in unknown state."
  const CIO_STATE := "CIO_STATE"

  /** `CIOStates`: the CIO_STATE readings with the screen open and closed. */
  const CIO_OPEN: real := 13.0
  const CIO_CLOSED: real := 14.0

  /** `MTReflectorStatus` (lsst.ts.xml.enums.MTReflector): the members the source uses. */
  datatype MTReflectorStatus = UNKNOWN | DISCONNECTED | CONNECTED | OPEN | CLOSE | CONNECTION_ERROR

  /** The part of the configuration the controller reads. */
  datatype Config = Config(identifier: string)

  /** What `run` yields for a call: the value it returned, or None when it raised. */
  function ValueOf(r: Reply): Option<real>
  {
    if r.Value? then Some(r.x) else None
  }

  /** What `run(ljm.open, ...)` yields: the handle, or None when opening raised. */
  function HandleOf(r: Reply): Option<int>
  {
    if r.Opened? then Some(r.handle) else None
  }

  /** The status a final CIO_STATE reading means: 13 is OPEN, 14 is CLOSE, anything else (None included) is no status. */
  function DecodeCio(x: Option<real>): (s: Option<MTReflectorStatus>)
    ensures s == Some(OPEN) <==> x == Some(CIO_OPEN)
    ensures s == Some(CLOSE) <==> x == Some(CIO_CLOSED)
    ensures s.None? <==> x != Some(CIO_OPEN) && x != Some(CIO_CLOSED)
  {
    if x == Some(CIO_OPEN) then Some(OPEN)
    else if x == Some(CIO_CLOSED) then Some(CLOSE)
    else None
  }

  /** The reading forced in simulation mode: OPEN's value for a command of 1, CLOSED's otherwise. */
  function SimulatedCio(value: real): real
  {
    if value == 1.0 then CIO_OPEN else CIO_CLOSED
  }

  /** In simulation mode a command of 1 always ends OPEN and any other command CLOSE, whatever the device reads. */
  lemma SimulatedDecode(value: real)
    ensures DecodeCio(Some(SimulatedCio(value))) == Some(if value == 1.0 then OPEN else CLOSE)
  {
  }

  /** One write of a level to a named line. */
  datatype PinWrite = PinWrite(name: string, level: real)

  /** The writes of `actuate(value)`: the close line first, then the open line; other values write nothing. */
  function ActuatePlan(value: real, openName: string, closeName: string): seq<PinWrite>
  {
    if value == 1.0 then [PinWrite(closeName, 0.0), PinWrite(openName, 1.0)]
    else if value == 0.0 then [PinWrite(closeName, 1.0), PinWrite(openName, 0.0)]
    else []
  }

  /** The level a sequence of writes leaves on a line: its last write there, if any. */
  function LastLevel(writes: seq<PinWrite>, name: string): Option<real>
  {
    if |writes| == 0 then None
    else if writes[|writes| - 1].name == name then Some(writes[|writes| - 1].level)
    else LastLevel(writes[..|writes| - 1], name)
  }

  /**
   * The plan leaves the open line at the commanded value and the close line at its complement,
   * writing the close line first; any value other than 0 and 1 writes nothing.
   */
  lemma ActuatePlanLevels(value: real, openName: string, closeName: string)
    requires openName != closeName
    ensures var plan := ActuatePlan(value, openName, closeName);
      && (value == 1.0 || value == 0.0 ==>
           |plan| == 2 && plan[0].name == closeName && plan[1].name == openName &&
           LastLevel(plan, openName) == Some(value) && LastLevel(plan, closeName) == Some(1.0 - value))
      && (value != 1.0 && value != 0.0 ==> plan == [])
  {
    var plan := ActuatePlan(value, openName, closeName);
    if value == 1.0 || value == 0.0 {
      assert plan[..1] == [plan[0]];
    }
  }

  /** The device calls of a sequence of writes on handle `h`, in order. */
  function WriteCalls(h: Option<int>, writes: seq<PinWrite>): (calls: seq<Call>)
    ensures |calls| == |writes|
    ensures forall i :: 0 <= i < |writes| ==> calls[i] == WriteName(h, writes[i].name, writes[i].level)
  {
    if |writes| == 0 then [] else [WriteName(h, writes[0].name, writes[0].level)] + WriteCalls(h, writes[1..])
  }

  /** The controller: its handle, last decoded status and device identifier. */
  class Controller {
    var handle: Option<int>
    var state: MTReflectorStatus
    var identifier: Option<string>
    const deviceType: int
    const connectionType: int
    const simulationMode: int
    const config: Config
    const openChannelName: string
    const closeChannelName: string
    const dev: Device

    ghost predicate Valid()
      reads this, dev
    {
      dev.Valid() && openChannelName != closeChannelName
    }

    /** `connected`: a handle is held. */
    predicate Connected()
      reads this
      ensures Connected() <==> handle != None
    {
      handle.Some?
    }

    /** A fresh controller: no handle, status UNKNOWN, lines CIO0 (open) and CIO1 (close); DEMO_MODE identifier iff simulation mode is 1. */
    constructor (config: Config, simulationMode: int, dev: Device)
      requires dev.Valid()
      ensures Valid() && !Connected() && handle == None && state == UNKNOWN
      ensures identifier == if simulationMode == 1 then Some(DEMO_MODE) else None
      ensures deviceType == DT_T4 && connectionType == CT_TCP
      ensures this.simulationMode == simulationMode && this.config == config && this.dev == dev
      ensures openChannelName == "CIO0" && closeChannelName == "CIO1"
    {
      handle := None;
      state := UNKNOWN;
      deviceType := DT_T4;
      connectionType := CT_TCP;
      identifier := None;
      this.simulationMode := simulationMode;
      if simulationMode == 1 {
        identifier := Some(DEMO_MODE);
      }
      this.config := config;
      this.dev := dev;
      openChannelName := "CIO0";
      closeChannelName := "CIO1";
    }

    /** `configure`: the configured identifier when not simulating (mode 0), DEMO_MODE otherwise. */
    method Configure()
      modifies this`identifier
      ensures identifier == Some(if simulationMode == 0 then config.identifier else DEMO_MODE)
    {
      if simulationMode == 0 {
        identifier := Some(config.identifier);
      } else {
        identifier := Some(DEMO_MODE);
      }
    }

    /** `read_channel`: refused without a handle (no device call); otherwise the value read, or None if the read raised. */
    method ReadChannel(name: string) returns (r: Result<Option<real>, Error>)
      requires Valid()
      modifies dev
      ensures Valid() && old(dev.replies) <= dev.replies
      ensures handle.None? ==>
        r == Failure(RuntimeError(NOT_CONNECTED)) && dev.calls == old(dev.calls) && dev.replies == old(dev.replies)
      ensures handle.Some? ==>
        && dev.calls == old(dev.calls) + [ReadName(handle, name)]
        && |dev.replies| == |old(dev.replies)| + 1 && dev.replies[..|old(dev.replies)|] == old(dev.replies)
        && r == Success(ValueOf(dev.replies[|dev.replies| - 1]))
    {
      if handle.None? {
        return Failure(RuntimeError(NOT_CONNECTED));
      }
      var reply := dev.Invoke(ReadName(handle, name));
      return Success(ValueOf(reply));
    }

    /** `write_channel`: refused without a handle (no device call); otherwise one write, whose failure is swallowed. */
    method WriteChannel(name: string, value: real) returns (r: Outcome<Error>)
      requires Valid()
      modifies dev
      ensures Valid() && old(dev.replies) <= dev.replies
      ensures handle.None? ==>
        r == Fail(RuntimeError(NOT_CONNECTED)) && dev.calls == old(dev.calls) && dev.replies == old(dev.replies)
      ensures handle.Some? ==>
        && r == Pass
        && dev.calls == old(dev.calls) + [WriteName(handle, name, value)]
        && |dev.replies| == |old(dev.replies)| + 1 && dev.replies[..|old(dev.replies)|] == old(dev.replies)
    {
      if handle.None? {
        return Fail(RuntimeError(NOT_CONNECTED));
      }
      var _ := dev.Invoke(WriteName(handle, name, value));
      return Pass;
    }

    /**
     * `connect`: configure, open (the handle is None when opening raised), then put the flexible
     * I/O in digital mode: DIO_INHIBIT := 0, then DIO_ANALOG_ENABLE := 0. Without a handle the
     * first write raises "not connected".
     */
    method Connect() returns (r: Outcome<Error>)
      requires Valid()
      modifies this, dev
      ensures Valid() && state == old(state)
      ensures identifier == Some(if simulationMode == 0 then config.identifier else DEMO_MODE)
      ensures var n := |old(dev.replies)|;
        && |dev.replies| > n && dev.replies[..n] == old(dev.replies)
        && handle == HandleOf(dev.replies[n])
        && (handle.None? ==>
              r == Fail(RuntimeError(NOT_CONNECTED)) &&
              dev.calls == old(dev.calls) + [Open(deviceType, connectionType, identifier)])
        && (handle.Some? ==>
              r == Pass &&
              dev.calls == old(dev.calls) + [Open(deviceType, connectionType, identifier),
                                             WriteName(handle, "DIO_INHIBIT", 0.0),
                                             WriteName(handle, "DIO_ANALOG_ENABLE", 0.0)])
    {
      Configure();
      var reply := dev.Invoke(Open(deviceType, connectionType, identifier));
      handle := HandleOf(reply);
      r := WriteChannel("DIO_INHIBIT", 0.0);
      if r.Fail? {
        return;
      }
      r := WriteChannel("DIO_ANALOG_ENABLE", 0.0);
    }

    /** `disconnect`: closes whatever handle is held (a failure is swallowed) and always ends without a handle. */
    method Disconnect()
      requires Valid()
      modifies this, dev
      ensures Valid() && !Connected() && handle == None
      ensures state == old(state) && identifier == old(identifier)
      ensures dev.calls == old(dev.calls) + [Close(old(handle))]
      ensures |dev.replies| == |old(dev.replies)| + 1 && dev.replies[..|old(dev.replies)|] == old(dev.replies)
    {
      var _ := dev.Invoke(Close(handle));
      handle := None;
    }

    /**
     * `actuate(value)`: read CIO_STATE (refused without a handle, before any write), write the
     * plan for `value`, read CIO_STATE again (forced in simulation mode), and decode it into the
     * status; a reading that decodes to nothing raises and leaves the status as it was.
     */
    method Actuate(value: real) returns (r: Outcome<Error>)
      requires Valid()
      modifies this, dev
      ensures Valid() && handle == old(handle) && identifier == old(identifier)
      ensures |dev.replies| >= |old(dev.replies)| && dev.replies[..|old(dev.replies)|] == old(dev.replies)
      ensures handle.None? ==>
        r == Fail(RuntimeError(NOT_CONNECTED)) && dev.calls == old(dev.calls) && state == old(state)
      ensures handle.Some? ==>
        && dev.calls == old(dev.calls) + [ReadName(handle, CIO_STATE)]
                        + WriteCalls(handle, ActuatePlan(value, openChannelName, closeChannelName))
                        + [ReadName(handle, CIO_STATE)]
        && var observed := if simulationMode != 0 then Some(SimulatedCio(value))
                           else ValueOf(dev.replies[|dev.replies| - 1]);
           match DecodeCio(observed)
           case Some(s) => r == Pass && state == s
           case None => r == Fail(RuntimeError(UNKNOWN_STATE)) && state == old(state)
    {
      ghost var r0 := dev.replies;
      var begin := ReadChannel(CIO_STATE);
      assert r0 <= dev.replies;
      if begin.Failure? {
        return Fail(begin.error);
      }
      ghost var plan := ActuatePlan(value, openChannelName, closeChannelName);
      ghost var before := dev.calls;
      ghost var r1 := dev.replies;
      if value == 1.0 {
        var w := WriteChannel(closeChannelName, 0.0);
        assert r1 <= dev.replies;
        w := WriteChannel(openChannelName, 1.0);
      } else if value == 0.0 {
        var w := WriteChannel(closeChannelName, 1.0);
        assert r1 <= dev.replies;
        w := WriteChannel(openChannelName, 0.0);
      }
      assert r1 <= dev.replies;
      assert r0 <= dev.replies;
      assert dev.calls == before + WriteCalls(handle, plan);
      ghost var r2 := dev.replies;
      var end := ReadChannel(CIO_STATE);
      assert r2 <= dev.replies;
      assert r0 <= dev.replies;
      var endState := end.value;
      if simulationMode != 0 {
        endState := Some(SimulatedCio(value));
      }
      match DecodeCio(endState) {
        case Some(s) =>
          state := s;
          r := Pass;
        case None =>
          r := Fail(RuntimeError(UNKNOWN_STATE));
      }
    }
  }

  /**
   * The switching scenario in simulation mode: once connected, opening then closing reach OPEN
   * then CLOSE; after two disconnects in a row nothing is held and actuating is refused.
   */
  method SimulatedSwitching(config: Config, dev: Device)
    returns (connected: bool, afterOpen: MTReflectorStatus, afterClose: MTReflectorStatus, late: Outcome<Error>)
    requires dev.Valid()
    modifies dev
    ensures connected ==> afterOpen == OPEN && afterClose == CLOSE
    ensures late == Fail(RuntimeError(NOT_CONNECTED))
  {
    var c := new Controller(config, 1, dev);
    assert c.state == UNKNOWN;
    var link := c.Connect();
    connected := link.Pass?;
    afterOpen, afterClose := UNKNOWN, UNKNOWN;
    if connected {
      var r := c.Actuate(1.0);
      afterOpen := c.state;
      r := c.Actuate(0.0);
      afterClose := c.state;
    }
    c.Disconnect();
    c.Disconnect();
    late := c.Actuate(1.0);
  }
}
