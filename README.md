# Reflector actuation controllers, modelled in Dafny

This project models the LabJack side of the telescope reflector screen, the part that turns a
two-state command into register writes. The repository has two generations of this code, and
both are modelled:

- `ReflectorController` with `LabjackChannel` (python/lsst/ts/reflector/reflector.py):
  - One configured port such as `DIO1` is resolved to a Modbus address through a fixed offset
    table.
  - A `ReflectorState` (ON/OFF) or a bool is mapped to the bit written.
  - Without a handle the controller connects first. Connecting opens the device, puts all
    flexible I/O in digital mode and reads back the characters of the channel name (see
    Findings).
  - It then writes one batch (`eWriteAddresses`). An LJM error code above `WARNINGS_END` is
    reported as a `RuntimeError`; a lower code is only a warning.
- `Controller` with `CIOStates` (python/lsst/ts/mtreflector/controller.py):
  - Two lines, CIO1 (close) and CIO0 (open), are written in a fixed order.
  - The `CIO_STATE` register is read back and decoded: 13 is OPEN, 14 is CLOSE, and anything
    else is an error.
  - Every device call goes through `run`, which swallows exceptions and yields `None`.

Files:

- `wrappers.dfy`: `Option`, `Result`, and `Outcome` (pass or fail with an error).
- `ljm.dfy`: the LabJack library (`ljm`) as a `Device` object.
  - `Invoke` records each call and the reply the device chose in two ghost traces.
  - Any reply of the right kind may come back, including a raised exception.
  - The vendor constants `WARNINGS_END`, `UINT16`, `DEMO_MODE`, `dtT4` and `ctTCP` are
    declared without a value, so nothing depends on their numbers.
- `channels.dfy`: `LabjackChannel`. It covers the offset table, the name check, the address
  and the command-to-bit mapping.
  - Python `==` between an IntEnum member and a bool depends on the members' integer values.
    Those values are defined outside this repository, so they are a parameter (`Valuation`).
- `reflector.dfy`: `ReflectorController`.
  - The reference functions `ConnectRun` and `ActuateRun` say what `_blocking_connect` and
    `_blocking_actuate_reflector` do for every sequence of device replies.
  - Both take the register written and the names read back as parameters. That lets the code as
    written (`ActuateRunAsWritten`) and the corrected version (`ActuateRunIntended`) be stated
    side by side.
  - The methods are proved to issue exactly those calls and to return those outcomes.
  - The lemmas state what the code promises about them.
  - The controller uses the corrected definitions of the three Findings below. The code as
    written is modelled beside each one, with the input that shows the difference.
- `controller.dfy`: the two-channel `Controller`. Each method is specified by the device calls it
  issues, its outcome and its new state.

## Behaviour worth knowing

- The `_blocking_connect` override does not check for a held handle. The model treats the base
  class's open as one call that would simply run again; `_blocking_actuate_reflector` calls it
  only when no handle is held.
- A connect that opened the device but then failed keeps the opened handle. If the failure was a
  RuntimeError (the read-back length check), the actuation reports "Labjack can't connect"; any
  other exception propagates unchanged. Either way the next actuation skips connecting and
  writes its batch.
- `Controller.actuate` without a handle raises "Labjack is not connected." before any write.
  `ReflectorController` connects first instead.
- The DAC offset of 1000 is in the table but is never added (see Findings).
- The read-back during connect reads the channel name's characters (see Findings).
- The `_set_state` guard accepts almost nothing as written (see Findings).

## Model

| member | source | states |
|---|---|---|
| Channels.CategoryOf | python/lsst/ts/reflector/reflector.py:67-76 | looking a three-letter prefix up in the offset table finds exactly the category spelled by it, and nothing for any other prefix |
| Channels.DecimalValue | python/lsst/ts/reflector/reflector.py:90 | `int` of the decimal spelling of n is n, so the index parsed from a name is the number it spells |
| Channels.SpelledChannel | python/lsst/ts/reflector/reflector.py:78-80 | a table key followed by digits passes the name check, with that category and those digits as its index part |
| Channels.ValidChannelIff | python/lsst/ts/reflector/reflector.py:78-80 | the name check accepts a name exactly when it is a table key followed by one or more digits |
| Channels.RejectedChannels | tests/test_reflector.py:147-152 | "AIN" and "AINO1" (the test's bad channels), an unknown key and a too-short name are refused |
| Channels.LabjackChannel.constructor | python/lsst/ts/reflector/reflector.py:59-65 | the port keeps the given name and status |
| Channels.LabjackChannel.Create | python/lsst/ts/reflector/reflector.py:59-80 | construction succeeds exactly for names passing the check; otherwise it fails with TypeError "Invalid labjack channel <name>"; the status defaults to UNKNOWN |
| Channels.AddressOf | python/lsst/ts/reflector/reflector.py:82-99 | the address of category c number n, as written: 2n for AIN and DAC, n plus the table offset for the others |
| Channels.AddressExamples | python/lsst/ts/reflector/reflector.py:82-99 | DIO1 resolves to 2001, AIN2 to 4, CIO0 to 2016 |
| Channels.DacSharesAinAddress | python/lsst/ts/reflector/reflector.py:94-95 | as written, DAC1 and AIN1 both resolve to address 2 |
| Channels.ModbusAddressAgrees | python/lsst/ts/reflector/reflector.py:67-76 | the address with the DAC offset applied differs from the written one for DAC channels only |
| Channels.ModbusAddressSeparatesAnalog | python/lsst/ts/reflector/reflector.py:67-76 | with the offset applied, no analog input below 500 overlaps the two registers of any analog output |
| Channels.ModbusAddressDac1 | python/lsst/ts/reflector/reflector.py:67-76 | with the offset applied, DAC1 resolves to 1002 |
| Channels.CheckValidIff | python/lsst/ts/reflector/reflector.py:101-125 | `check_valid` accepts exactly ON, OFF, True and False |
| Channels.WriteValuePolarity | python/lsst/ts/reflector/reflector.py:127-144 | when ON's integer value is not 0, the bit written is 1 exactly for ON and True, and 0 for OFF, False and every other value |
| Channels.WriteValueWhenOnIsZero | python/lsst/ts/reflector/reflector.py:141-144 | when ON's integer value is 0, `False == ON` holds in Python, so ON and both bools write 1, and OFF and the other members write 0 |
| Reflector.ValidTargetIff | python/lsst/ts/reflector/reflector.py:347-349 | the actuation gate lets through ON, OFF, the bools, and any other member whose value equals 0 or 1 |
| Reflector.ValidTargetExact | python/lsst/ts/reflector/reflector.py:347-349 | when no other member's value is 0 or 1, the gate accepts exactly what `check_valid` accepts |
| Reflector.SetStateAcceptsIff | python/lsst/ts/reflector/reflector.py:277-278 | as written, `_set_state` accepts only members whose value is 0 or 1 and bools equal to some member |
| Reflector.SetStateRejectsOn | python/lsst/ts/reflector/reflector.py:277-278 | as written, `_set_state(ON)` raises whenever ON's value is neither 0 nor 1 |
| Reflector.SetStateRefusesAMember | python/lsst/ts/reflector/reflector.py:277-278 | as written, whatever the values, one of UNKNOWN, ON and OFF is refused |
| Reflector.SetStateIntendedIff | python/lsst/ts/reflector/reflector.py:264-279 | the intended guard accepts exactly the members and the bools, and refuses anything else such as "bogus" |
| Reflector.ConnectRunSucceeds | python/lsst/ts/reflector/reflector.py:394-424 | a successful connect opened the device, wrote DIO_INHIBIT = 0, then DIO_ANALOG_ENABLE = 0, then read one value per requested name, and keeps the opened handle |
| Reflector.ConnectRunOpenFails | python/lsst/ts/reflector/reflector.py:407-408 | when opening fails, the handle is unchanged, no further call is made and the exception propagates |
| Reflector.ConnectRunHandle | python/lsst/ts/reflector/reflector.py:394-424 | after a connect, the handle is the opened one whenever opening succeeded, even if a later step raised; otherwise it is unchanged |
| Reflector.ConnectRunLengthMismatch | python/lsst/ts/reflector/reflector.py:417-424 | when the read-back returns a number of values different from the number of names, the connect raises RuntimeError after its four calls, keeping the opened handle |
| Reflector.ConnectRunPrefix | python/lsst/ts/reflector/reflector.py:394-424 | a connect depends only on the replies to the calls it issued |
| Reflector.CharNamesBound | python/lsst/ts/reflector/reflector.py:417-420 | as written, the read-back requests at most one name per character, and never the channel itself unless it is one character long |
| Reflector.ReadBackOfDio1 | python/lsst/ts/reflector/reflector.py:417-420 | as written, connecting on DIO1 reads the names "D", "I", "O" and "1" |
| Reflector.IntendedReadNames | python/lsst/ts/reflector/reflector.py:417-420 | the intended read-back requests the configured channel, one frame |
| Reflector.WriteOutcomeIff | python/lsst/ts/reflector/reflector.py:364-389 | the batch write fails exactly on an LJM code above WARNINGS_END (as RuntimeError) or on any other exception; lower codes are only warnings |
| Reflector.ActuateInvalidTarget | python/lsst/ts/reflector/reflector.py:347-349 | an invalid target raises TypeError before any device call, and the handle is unchanged |
| Reflector.ActuateWhenConnected | python/lsst/ts/reflector/reflector.py:361-371 | for any register and read-back (so also `address()` and `set(channel)` as written): with a handle, a valid target issues exactly one batch, to that register, typed UINT16, with the target's bit |
| Reflector.ActuateConnectFails | python/lsst/ts/reflector/reflector.py:351-357 | without a handle, a RuntimeError while connecting becomes "Labjack can't connect" and other exceptions propagate. No batch is written, and the calls and the handle are those the connect left |
| Reflector.ActuateSucceeds | python/lsst/ts/reflector/reflector.py:328-392 | for any register and read-back: a successful actuation had a valid target and ends with a handle. It wrote the batch as its last call (after a complete connect, if there was no handle), and its batch reply was no error above the warning range |
| Reflector.ActuatePassIff | python/lsst/ts/reflector/reflector.py:351-392 | the converse: a valid target succeeds exactly when the batch reply passes, after a successful connect if there was no handle |
| Reflector.ActuateCantConnectKeepsHandle | python/lsst/ts/reflector/reflector.py:352-357 | a read-back of the wrong length fails the actuation with "Labjack can't connect" but keeps the opened handle, so the next actuation writes only its batch |
| Reflector.ActuateOtherErrorKeepsHandle | python/lsst/ts/reflector/reflector.py:351-357 | an exception other than RuntimeError raised while connecting after the open (such as an LJM error from the DIO_INHIBIT write) propagates unchanged, but the opened handle is kept, so the next actuation writes only its batch |
| Reflector.ActuateDac1 | python/lsst/ts/reflector/reflector.py:361-371 | as written, an actuation on DAC1 with a handle writes to register 2 (AIN1's); corrected, it writes to 1002 |
| Reflector.ReflectorController.constructor | python/lsst/ts/reflector/reflector.py:160-179 | a new controller holds the port and the device, with no handle |
| Reflector.ReflectorController.Create | python/lsst/ts/reflector/reflector.py:160-179 | building a controller from a configured channel name succeeds exactly when the name is valid (else TypeError), with the given status and no handle |
| Reflector.ReflectorController.GetState | python/lsst/ts/reflector/reflector.py:252-262 | the state is the port's stored status |
| Reflector.ReflectorController.SetState | python/lsst/ts/reflector/reflector.py:264-279 | with the intended guard: a member or a bool is assigned; anything else raises ValueError and leaves the status unchanged |
| Reflector.ReflectorController.BlockingConnect | python/lsst/ts/reflector/reflector.py:394-424 | the device calls, the final handle and the outcome are those of `ConnectRun` on the replies received, with the configured channel as the one name read back |
| Reflector.ReflectorController.BlockingActuateReflector | python/lsst/ts/reflector/reflector.py:328-392 | the device calls, handle and outcome are those of `ActuateRun` with the corrected register and read-back; the status becomes the target exactly when the actuation succeeds |
| Reflector.StatusScenario | tests/test_reflector.py:78-98 | a controller on DIO1 starts UNKNOWN, refuses the status "bogus" and accepts OFF. Actuating to UNKNOWN or ERROR is refused and leaves OFF; after a successful actuation to ON it holds ON |
| MTController.DecodeCio | python/lsst/ts/mtreflector/controller.py:222-232 | a final reading of 13 (CIOStates.OPEN) means OPEN, 14 (CIOStates.CLOSED) means CLOSE, and anything else, a failed read included, is an unknown state |
| MTController.SimulatedDecode | python/lsst/ts/mtreflector/controller.py:223-224 | in simulation mode, a command of 1 always ends OPEN and any other command ends CLOSE |
| MTController.ActuatePlanLevels | python/lsst/ts/mtreflector/controller.py:215-221 | for 1 or 0, the close line is written first, then the open line; the open line ends at the commanded value and the close line at its complement; other values write nothing |
| MTController.Controller.constructor | python/lsst/ts/mtreflector/controller.py:76-98 | a new controller has no handle, status UNKNOWN, device T4 over TCP, lines CIO0 (open) and CIO1 (close), and the DEMO_MODE identifier exactly when the simulation mode is 1 |
| MTController.Controller.Connected | python/lsst/ts/mtreflector/controller.py:127-130 | the controller is connected exactly when it holds a handle |
| MTController.Controller.Configure | python/lsst/ts/mtreflector/controller.py:132-137 | the identifier is the configured one when the simulation mode is 0, and DEMO_MODE otherwise |
| MTController.Controller.ReadChannel | python/lsst/ts/mtreflector/controller.py:166-181 | without a handle: "Labjack is not connected.", with no device call; with a handle: one read, whose value is None if the read raised |
| MTController.Controller.WriteChannel | python/lsst/ts/mtreflector/controller.py:183-203 | without a handle: "Labjack is not connected.", with no device call; with a handle: one write, whose failure is swallowed |
| MTController.Controller.Connect | python/lsst/ts/mtreflector/controller.py:139-155 | configures, then opens; the handle is the opened one, or None if opening raised. With a handle it writes DIO_INHIBIT = 0 then DIO_ANALOG_ENABLE = 0; without one it raises "not connected" after the open |
| MTController.Controller.Disconnect | python/lsst/ts/mtreflector/controller.py:157-164 | closes the held handle, swallowing any failure, and always ends without a handle |
| MTController.Controller.Actuate | python/lsst/ts/mtreflector/controller.py:205-232 | without a handle it raises "not connected" before any write. Otherwise: read CIO_STATE, write the plan for the value, read CIO_STATE again. The status becomes the decoded reading (forced in simulation mode); an undecodable reading raises "Reflector is in unknown state." and leaves the status unchanged |
| MTController.SimulatedSwitching | tests/test_csc.py:75-108 | in simulation mode, once connected, opening then closing ends OPEN then CLOSE; after two disconnects actuating is refused |

## Left out

- The asynchronous wrappers are not modelled: `actuate_reflector` (reflector.py:281-326) and the
  executor in `Controller.run`. This leaves out the thread pool, the 5-second
  `COMMUNICATION_TIMEOUT`, `RECONNECT_WAIT`, the swallowing of `CancelledError` and the
  exception logging. Only the blocking operations they run are modelled.
- The "already of status" notice in `actuate_reflector` only logs. The write happens
  regardless, as `BlockingActuateReflector` does.
- The base class `BaseLabJackDataClient` is not part of this model. Its `_blocking_connect` is
  one device call (`OpenConfigured`) that yields a handle or raises.
- `run` and `read_data` of `ReflectorController` are empty, and `get_config_schema` is not
  modelled. Configuration is represented only by the fields read: `channel_name`, `identifier`
  and `simulation_mode`.
- The CSCs (csc.py, mt_reflector_csc.py, reflector_csc.py) and the configuration schemas are not
  modelled.
- Logging is not modelled, and neither is the unused `fake_value` attribute of `Controller`.
- The integer values of `ReflectorState`, and the LJM vendor constants, are defined outside this
  repository. They are parameters or value-less constants.
- `x in ReflectorState` follows Python 3.12 and later, where it tests value membership. Earlier
  versions raise TypeError for a non-member.
- Channels.ValidChannel: Python's `isdigit` also accepts non-ASCII decimal digits and other
  digit characters such as superscript two. The model accepts only `0`-`9`. So it does not
  capture the path where such a name passes construction but `int` in `address()` then raises
  ValueError.
- MTController.Controller.Actuate: the command is a real number. Python's `int`, `float` and
  `bool` values that compare equal to 1 or 0 behave alike.
- Reflector.ReflectorController.SetState: uses the intended guard. The guard as written is
  `SetStateAccepts`, and it is kept only for the Findings lemmas.
- Reflector.ReflectorController.BlockingConnect: reads back the configured channel. The
  character-by-character read-back as written is `CharNames`, and it is kept only for the
  Findings lemmas.
- Reflector.ReflectorController.BlockingActuateReflector: writes to the address with the DAC
  offset applied (`ModbusAddress`) and connects with the corrected read-back
  (`ActuateRunIntended`). The code as written is `ActuateRunAsWritten`, which uses `Address` and
  `CharNames`. The actuation lemmas hold for any register and read-back, so they cover both. The
  two addresses agree on every category except DAC.
- Ljm.Device.Invoke: the device's replies are chosen freely within their kind. Device-side
  physics is not modelled, nor is the fact that reading CIO_STATE reflects the writes.

## Findings

| source | as written | input that shows it | evidently intended | confidence | as-written member | corrected member |
|---|---|---|---|---|---|---|
| python/lsst/ts/reflector/reflector.py:94-95 | AIN and DAC indices are doubled and no offset is added, so the DAC offset of 1000 in the table is never used | channel "DAC1" resolves to 2, the address of "AIN1" | DACn at 1000 + 2n, as the offset table lists | not executed | Channels.DacSharesAinAddress | Channels.ModbusAddressSeparatesAnalog |
| python/lsst/ts/reflector/reflector.py:418 | `set(self.labjack_item.channel)` is the set of the name's characters | channel "DIO1" reads back the names "D", "I", "O", "1" | read back the configured channel itself, one frame | not executed | Reflector.ReadBackOfDio1 | Reflector.IntendedReadNames |
| python/lsst/ts/reflector/reflector.py:277 | the guard raises when the status is not a member OR not a bool, so a status must be both | `_set_state(ReflectorState.ON)` with ON's value neither 0 nor 1 raises ValueError | raise only when the status is neither a member nor a bool | not executed | Reflector.SetStateRejectsOn | Reflector.SetStateIntendedIff |
