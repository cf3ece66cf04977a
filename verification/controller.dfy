/** USBRelayController: relays and digital inputs numbered from 1 over
    the coils and discrete inputs of one Modbus slave, behind a
    connected-flag guard. */
module Controller {
  import opened Base
  import opened Codec
  import opened Client

  datatype RelayState = RelayState(relayId: int, state: bool, address: int)
  datatype InputState = InputState(inputId: int, state: bool, address: int)

  /** The controller's state: its `_connected` flag and its client's state. */
  datatype Ctl = Ctl(connected: bool, line: Line)

  /** A call's effect on the controller together with what it returns. */
  datatype Outcome<+T> = Outcome(ctl: Ctl, result: Result<T>)

  /** The slave address and the two address bases (both 0x0000 as built). */
  datatype Config = Config(slaveId: int, relayStartAddress: int, inputStartAddress: int)

  /** is_connected: the flag AND the client's port. */
  predicate Ready(c: Ctl)
    ensures Ready(c) ==> Connected(c.line)
  {
    c.connected && Connected(c.line)
  }

  /** Relay n is coil relay_start_address + n - 1. */
  function RelayAddress(cfg: Config, relayId: int): int {
    cfg.relayStartAddress + relayId - 1
  }

  /** Input n is discrete input input_start_address + n - 1. */
  function InputAddress(cfg: Config, inputId: int): int {
    cfg.inputStartAddress + inputId - 1
  }

  /** The list get_relay_states builds from the states read. */
  function RelayList(startRelay: int, address: int, states: seq<bool>): seq<RelayState> {
    seq(|states|, i requires 0 <= i < |states| => RelayState(startRelay + i, states[i], address + i))
  }

  function InputList(startInput: int, address: int, states: seq<bool>): seq<InputState> {
    seq(|states|, i requires 0 <= i < |states| => InputState(startInput + i, states[i], address + i))
  }

  /** [state] * n: n copies, none for n <= 0. */
  function AllOf(n: int, state: bool): (values: seq<bool>)
    ensures |values| == if n > 0 then n else 0
    ensures forall i :: 0 <= i < |values| ==> values[i] == state
  {
    seq(if n > 0 then n else 0, _ => state)
  }

  /** connect: the flag follows whether the client connected. */
  function ConnectOp(c: Ctl, opens: bool): (o: Outcome<()>)
    ensures o.result.Err? ==> !o.ctl.connected && o.ctl.line == c.line
    ensures o.result.Ok? ==> Ready(o.ctl)
  {
    var s := ConnectStep(c.line, opens);
    Outcome(Ctl(s.result.Ok?, s.line), s.result)
  }

  /** disconnect: the client disconnects and the flag is cleared. */
  function DisconnectOp(c: Ctl): (c': Ctl)
    ensures !c'.connected && !Ready(c')
  {
    Ctl(false, DisconnectStep(c.line))
  }

  function GetRelayStateOp(c: Ctl, cfg: Config, relayId: int): Outcome<RelayState> {
    if !Ready(c) then Outcome(c, Err(DeviceNotConnected))
    else
      var address := RelayAddress(cfg, relayId);
      var s := ReadBits(c.line, cfg.slaveId, ReadCoilsCode, address, 1);
      Outcome(Ctl(c.connected, s.line),
        if s.result.Err? then Err(s.result.error) else Ok(RelayState(relayId, s.result.value[0], address)))
  }

  function GetRelayStatesOp(c: Ctl, cfg: Config, startRelay: int, count: int): Outcome<seq<RelayState>> {
    if !Ready(c) then Outcome(c, Err(DeviceNotConnected))
    else
      var address := RelayAddress(cfg, startRelay);
      var s := ReadBits(c.line, cfg.slaveId, ReadCoilsCode, address, count);
      Outcome(Ctl(c.connected, s.line),
        if s.result.Err? then Err(s.result.error) else Ok(RelayList(startRelay, address, s.result.value)))
  }

  function SetRelayStateOp(c: Ctl, cfg: Config, relayId: int, state: bool): Outcome<bool> {
    if !Ready(c) then Outcome(c, Err(DeviceNotConnected))
    else
      var address := RelayAddress(cfg, relayId);
      var s := Write(c.line, cfg.slaveId, WriteSingleCoilCode, SingleCoilRequest(address, state), address, CoilValue(state));
      Outcome(Ctl(c.connected, s.line), s.result)
  }

  function SetRelayStatesOp(c: Ctl, cfg: Config, startRelay: int, states: seq<bool>): Outcome<bool> {
    if !Ready(c) then Outcome(c, Err(DeviceNotConnected))
    else
      var address := RelayAddress(cfg, startRelay);
      var s := Write(c.line, cfg.slaveId, WriteMultipleCoilsCode, MultipleCoilsRequest(address, states), address, |states|);
      Outcome(Ctl(c.connected, s.line), s.result)
  }

  /** toggle_relay: read the relay, then write the negation of what was read. */
  function ToggleRelayOp(c: Ctl, cfg: Config, relayId: int): Outcome<bool> {
    var current := GetRelayStateOp(c, cfg, relayId);
    if current.result.Err? then Outcome(current.ctl, Err(current.result.error))
    else SetRelayStateOp(current.ctl, cfg, relayId, !current.result.value.state)
  }

  /** RelaySequence.pulse_relay (the wait between the two writes aside):
      switch the relay on; only if that write was acknowledged, switch it
      off again and return what that write returned. */
  function PulseSequenceOp(c: Ctl, cfg: Config, relayId: int): (o: Outcome<bool>)
    ensures o.result == Ok(true) ==> SetRelayStateOp(c, cfg, relayId, true).result == Ok(true)
  {
    var on := SetRelayStateOp(c, cfg, relayId, true);
    if on.result != Ok(true) then on
    else SetRelayStateOp(on.ctl, cfg, relayId, false)
  }

  function GetInputStateOp(c: Ctl, cfg: Config, inputId: int): Outcome<InputState> {
    if !Ready(c) then Outcome(c, Err(DeviceNotConnected))
    else
      var address := InputAddress(cfg, inputId);
      var s := ReadBits(c.line, cfg.slaveId, ReadDiscreteInputsCode, address, 1);
      Outcome(Ctl(c.connected, s.line),
        if s.result.Err? then Err(s.result.error) else Ok(InputState(inputId, s.result.value[0], address)))
  }

  function GetInputStatesOp(c: Ctl, cfg: Config, startInput: int, count: int): Outcome<seq<InputState>> {
    if !Ready(c) then Outcome(c, Err(DeviceNotConnected))
    else
      var address := InputAddress(cfg, startInput);
      var s := ReadBits(c.line, cfg.slaveId, ReadDiscreteInputsCode, address, count);
      Outcome(Ctl(c.connected, s.line),
        if s.result.Err? then Err(s.result.error) else Ok(InputList(startInput, address, s.result.value)))
  }

  /** test_connection: reading relay 1 either works (True), raises a
      ModbusRTUException (False), or raises something else, which
      propagates. */
  function TestConnectionOp(c: Ctl, cfg: Config): (o: Outcome<bool>)
    ensures o.result == Ok(true) <==> GetRelayStateOp(c, cfg, 1).result.Ok?
    ensures o.result == Ok(false) <==> GetRelayStateOp(c, cfg, 1).result.Err? && GetRelayStateOp(c, cfg, 1).result.error.IsModbusException()
  {
    var probe := GetRelayStateOp(c, cfg, 1);
    Outcome(probe.ctl,
      if probe.result.Ok? then Ok(true)
      else if probe.result.error.IsModbusException() then Ok(false)
      else Err(probe.result.error))
  }

  // ---------------------------------------------------------------------
  // Properties

  /** Without a connection every operation raises "not connected" and
      leaves the controller and its client as they were. */
  lemma GuardLeavesClientAlone(c: Ctl, cfg: Config, relayId: int, count: int, states: seq<bool>, state: bool)
    requires !Ready(c)
    ensures GetRelayStateOp(c, cfg, relayId) == Outcome(c, Err(DeviceNotConnected))
    ensures GetRelayStatesOp(c, cfg, relayId, count) == Outcome(c, Err(DeviceNotConnected))
    ensures SetRelayStateOp(c, cfg, relayId, state) == Outcome(c, Err(DeviceNotConnected))
    ensures SetRelayStatesOp(c, cfg, relayId, states) == Outcome(c, Err(DeviceNotConnected))
    ensures ToggleRelayOp(c, cfg, relayId) == Outcome(c, Err(DeviceNotConnected))
    ensures GetInputStateOp(c, cfg, relayId) == Outcome(c, Err(DeviceNotConnected))
    ensures GetInputStatesOp(c, cfg, relayId, count) == Outcome(c, Err(DeviceNotConnected))
    ensures TestConnectionOp(c, cfg) == Outcome(c, Ok(false))
  {
  }

  /** get_relay_states returns `count` entries; entry i is relay
      start + i at coil address base + i. */
  lemma RelayStatesIndexed(c: Ctl, cfg: Config, startRelay: int, count: int)
    requires GetRelayStatesOp(c, cfg, startRelay, count).result.Ok?
    ensures var list := GetRelayStatesOp(c, cfg, startRelay, count).result.value;
      |list| == count
      && forall i :: 0 <= i < count ==>
           list[i].relayId == startRelay + i && list[i].address == RelayAddress(cfg, startRelay) + i
  {
  }

  lemma InputStatesIndexed(c: Ctl, cfg: Config, startInput: int, count: int)
    requires GetInputStatesOp(c, cfg, startInput, count).result.Ok?
    ensures var list := GetInputStatesOp(c, cfg, startInput, count).result.value;
      |list| == count
      && forall i :: 0 <= i < count ==>
           list[i].inputId == startInput + i && list[i].address == InputAddress(cfg, startInput) + i
  {
  }

  /** End to end: when the slave reports coil states `states` from the
      first relay's coil on, get_relay_states returns them, entry by entry. */
  lemma RelayStatesFromDevice(c: Ctl, cfg: Config, startRelay: int, states: seq<bool>)
    requires Ready(c) && IsU8(cfg.slaveId) && IsU16(RelayAddress(cfg, startRelay))
    requires |states| <= 2040
    requires NextReply(c.line.incoming)
      == Frame.BuildFrame(cfg.slaveId, ReadCoilsCode, [((|states| + 7) / 8) as byte] + PackBits(states)).value
    ensures GetRelayStatesOp(c, cfg, startRelay, |states|).result
      == Ok(RelayList(startRelay, RelayAddress(cfg, startRelay), states))
  {
    ReadBitsFromDevice(c.line, cfg.slaveId, ReadCoilsCode, RelayAddress(cfg, startRelay), states);
  }

  /** toggle_relay writes to the relay's own coil the negation of the
      state it has just read, and nothing else: exactly two frames go out,
      the one-coil read and the single-coil write of !state. */
  lemma ToggleWritesNegation(c: Ctl, cfg: Config, relayId: int)
    requires ToggleRelayOp(c, cfg, relayId).result.Ok?
    ensures var read := GetRelayStateOp(c, cfg, relayId);
      var address := RelayAddress(cfg, relayId);
      && read.result.Ok?
      && read.result.value.address == address
      && c.line.sent + [Frame.BuildFrame(cfg.slaveId, ReadCoilsCode, ReadRequest(address, 1).value).value]
         == read.ctl.line.sent
      && ToggleRelayOp(c, cfg, relayId).ctl.line.sent
         == read.ctl.line.sent
            + [Frame.BuildFrame(cfg.slaveId, WriteSingleCoilCode, SingleCoilRequest(address, !read.result.value.state).value).value]
  {
  }

  /** pulse_relay once the switch-on is acknowledged: the single-coil
      write of ON and then that of OFF go to the relay's coil, nothing
      else, and the pulse returns what the switch-off returned. */
  lemma PulseWritesOnThenOff(c: Ctl, cfg: Config, relayId: int)
    requires SetRelayStateOp(c, cfg, relayId, true).result == Ok(true)
    ensures var on := SetRelayStateOp(c, cfg, relayId, true);
      var address := RelayAddress(cfg, relayId);
      var pulse := PulseSequenceOp(c, cfg, relayId);
      && on.ctl.line.sent
         == c.line.sent + [Frame.BuildFrame(cfg.slaveId, WriteSingleCoilCode, SingleCoilRequest(address, true).value).value]
      && pulse.ctl.line.sent
         == on.ctl.line.sent + [Frame.BuildFrame(cfg.slaveId, WriteSingleCoilCode, SingleCoilRequest(address, false).value).value]
      && pulse.result == SetRelayStateOp(on.ctl, cfg, relayId, false).result
  {
  }

  /** turn_on_all_relays / turn_off_all_relays: one multiple-coil write
      of n identical values starting at relay 1's coil. */
  lemma AllRelaysOneWrite(c: Ctl, cfg: Config, n: int, state: bool)
    requires Ready(c) && IsU8(cfg.slaveId) && IsU16(RelayAddress(cfg, 1)) && n <= 2040
    ensures var after := SetRelayStatesOp(c, cfg, 1, AllOf(n, state)).ctl;
      after.line.sent
        == c.line.sent
           + [Frame.BuildFrame(cfg.slaveId, WriteMultipleCoilsCode, MultipleCoilsRequest(RelayAddress(cfg, 1), AllOf(n, state)).value).value]
  {
  }

  /** A failed connect leaves the flag down; disconnect always clears it. */
  lemma ConnectFlag(c: Ctl, opens: bool)
    ensures ConnectOp(c, opens).ctl.connected <==> opens
    ensures !ConnectOp(c, false).ctl.connected && ConnectOp(c, false).result == Err(PortOpenFailed)
    ensures !DisconnectOp(c).connected
  {
  }

  // ---------------------------------------------------------------------
  // The class

  class USBRelayController {
    const port: string
    const slaveId: int
    const baudrate: int
    const client: ModbusRTUClient
    var connected: bool
    const relayStartAddress: int
    const inputStartAddress: int

    function Cfg(): Config {
      Config(slaveId, relayStartAddress, inputStartAddress)
    }

    function State(): Ctl
      reads this, client
    {
      Ctl(connected, client.State())
    }

    /** A controller with its own, unconnected client; `replies` is what
        the slave will answer on the line. */
    constructor(port: string, slaveId: int, replies: seq<seq<byte>>)
      ensures Cfg() == Config(slaveId, 0x0000, 0x0000)
      ensures State() == Ctl(false, Line(None, [], replies))
      ensures fresh(client)
    {
      this.port := port;
      this.slaveId := slaveId;
      baudrate := 9600;
      client := new ModbusRTUClient(port, 9600, replies);
      connected := false;
      relayStartAddress := 0x0000;
      inputStartAddress := 0x0000;
    }

    method Connect(opens: bool) returns (r: Result<()>)
      modifies this, client
      ensures Outcome(State(), r) == ConnectOp(old(State()), opens)
    {
      r := client.Connect(opens);
      connected := r.Ok?;
    }

    method Disconnect()
      modifies this, client
      ensures State() == DisconnectOp(old(State()))
    {
      client.Disconnect();
      connected := false;
    }

    predicate IsConnected()
      reads this, client
      ensures IsConnected() <==> Ready(State())
    {
      connected && client.IsConnected()
    }

    method TestConnection() returns (r: Result<bool>)
      modifies client
      ensures Outcome(State(), r) == TestConnectionOp(old(State()), Cfg())
    {
      var probe := GetRelayState(1);
      if probe.Ok? {
        return Ok(true);
      }
      if probe.error.IsModbusException() {
        return Ok(false);
      }
      r := Err(probe.error);
    }

    method GetRelayState(relayId: int) returns (r: Result<RelayState>)
      modifies client
      ensures Outcome(State(), r) == GetRelayStateOp(old(State()), Cfg(), relayId)
    {
      if !IsConnected() {
        return Err(DeviceNotConnected);
      }
      var address := relayStartAddress + relayId - 1;
      assert address == RelayAddress(Cfg(), relayId);
      ghost var before := State();
      var states := client.ReadCoils(slaveId, address, 1);
      ghost var step := ReadBits(before.line, slaveId, ReadCoilsCode, address, 1);
      assert client.State() == step.line && states == step.result;
      if states.Err? {
        return Err(states.error);
      }
      r := Ok(RelayState(relayId, states.value[0], address));
    }

    method GetRelayStates(startRelay: int, count: int) returns (r: Result<seq<RelayState>>)
      modifies client
      ensures Outcome(State(), r) == GetRelayStatesOp(old(State()), Cfg(), startRelay, count)
    {
      if !IsConnected() {
        return Err(DeviceNotConnected);
      }
      var address := relayStartAddress + startRelay - 1;
      assert address == RelayAddress(Cfg(), startRelay);
      ghost var before := State();
      var states := client.ReadCoils(slaveId, address, count);
      ghost var step := ReadBits(before.line, slaveId, ReadCoilsCode, address, count);
      assert client.State() == step.line && states == step.result;
      if states.Err? {
        return Err(states.error);
      }
      r := Ok(RelayList(startRelay, address, states.value));
    }

    method GetAllRelayStates(maxRelays: int) returns (r: Result<seq<RelayState>>)
      modifies client
      ensures Outcome(State(), r) == GetRelayStatesOp(old(State()), Cfg(), 1, maxRelays)
    {
      r := GetRelayStates(1, maxRelays);
    }

    method SetRelayState(relayId: int, state: bool) returns (r: Result<bool>)
      modifies client
      ensures Outcome(State(), r) == SetRelayStateOp(old(State()), Cfg(), relayId, state)
    {
      if !IsConnected() {
        return Err(DeviceNotConnected);
      }
      var address := relayStartAddress + relayId - 1;
      assert address == RelayAddress(Cfg(), relayId);
      r := client.WriteSingleCoil(slaveId, address, state);
    }

    method SetRelayStates(startRelay: int, states: seq<bool>) returns (r: Result<bool>)
      modifies client
      ensures Outcome(State(), r) == SetRelayStatesOp(old(State()), Cfg(), startRelay, states)
    {
      if !IsConnected() {
        return Err(DeviceNotConnected);
      }
      var address := relayStartAddress + startRelay - 1;
      assert address == RelayAddress(Cfg(), startRelay);
      ghost var before := State();
      r := client.WriteMultipleCoils(slaveId, address, states);
      ghost var step := Write(before.line, slaveId, WriteMultipleCoilsCode, MultipleCoilsRequest(address, states), address, |states|);
      assert client.State() == step.line && r == step.result;
    }

    method TurnOnRelay(relayId: int) returns (r: Result<bool>)
      modifies client
      ensures Outcome(State(), r) == SetRelayStateOp(old(State()), Cfg(), relayId, true)
    {
      r := SetRelayState(relayId, true);
    }

    method TurnOffRelay(relayId: int) returns (r: Result<bool>)
      modifies client
      ensures Outcome(State(), r) == SetRelayStateOp(old(State()), Cfg(), relayId, false)
    {
      r := SetRelayState(relayId, false);
    }

    method ToggleRelay(relayId: int) returns (r: Result<bool>)
      modifies client
      ensures Outcome(State(), r) == ToggleRelayOp(old(State()), Cfg(), relayId)
    {
      var current := GetRelayState(relayId);
      if current.Err? {
        return Err(current.error);
      }
      r := SetRelayState(relayId, !current.value.state);
    }

    method TurnOnAllRelays(maxRelays: int) returns (r: Result<bool>)
      modifies client
      ensures Outcome(State(), r) == SetRelayStatesOp(old(State()), Cfg(), 1, AllOf(maxRelays, true))
    {
      r := SetRelayStates(1, AllOf(maxRelays, true));
    }

    method TurnOffAllRelays(maxRelays: int) returns (r: Result<bool>)
      modifies client
      ensures Outcome(State(), r) == SetRelayStatesOp(old(State()), Cfg(), 1, AllOf(maxRelays, false))
    {
      r := SetRelayStates(1, AllOf(maxRelays, false));
    }

    method GetInputState(inputId: int) returns (r: Result<InputState>)
      modifies client
      ensures Outcome(State(), r) == GetInputStateOp(old(State()), Cfg(), inputId)
    {
      if !IsConnected() {
        return Err(DeviceNotConnected);
      }
      var address := inputStartAddress + inputId - 1;
      assert address == InputAddress(Cfg(), inputId);
      ghost var before := State();
      var states := client.ReadDiscreteInputs(slaveId, address, 1);
      ghost var step := ReadBits(before.line, slaveId, ReadDiscreteInputsCode, address, 1);
      assert client.State() == step.line && states == step.result;
      if states.Err? {
        return Err(states.error);
      }
      r := Ok(InputState(inputId, states.value[0], address));
    }

    method GetInputStates(startInput: int, count: int) returns (r: Result<seq<InputState>>)
      modifies client
      ensures Outcome(State(), r) == GetInputStatesOp(old(State()), Cfg(), startInput, count)
    {
      if !IsConnected() {
        return Err(DeviceNotConnected);
      }
      var address := inputStartAddress + startInput - 1;
      assert address == InputAddress(Cfg(), startInput);
      ghost var before := State();
      var states := client.ReadDiscreteInputs(slaveId, address, count);
      ghost var step := ReadBits(before.line, slaveId, ReadDiscreteInputsCode, address, count);
      assert client.State() == step.line && states == step.result;
      if states.Err? {
        return Err(states.error);
      }
      r := Ok(InputList(startInput, address, states.value));
    }

    method GetAllInputStates(maxInputs: int) returns (r: Result<seq<InputState>>)
      modifies client
      ensures Outcome(State(), r) == GetInputStatesOp(old(State()), Cfg(), 1, maxInputs)
    {
      r := GetInputStates(1, maxInputs);
    }
  }

  /** RelaySequence, for the pulse it drives through a controller. */
  class RelaySequence {
    const controller: USBRelayController

    constructor(controller: USBRelayController)
      ensures this.controller == controller
    {
      this.controller := controller;
    }

    method PulseRelay(relayId: int) returns (r: Result<bool>)
      modifies controller.client
      ensures Outcome(controller.State(), r) == PulseSequenceOp(old(controller.State()), controller.Cfg(), relayId)
    {
      var on := controller.TurnOnRelay(relayId);
      if on != Ok(true) {
        return on;
      }
      r := controller.TurnOffRelay(relayId);
    }
  }
}
