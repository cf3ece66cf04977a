/** ModbusRTUClient: the serial-port state that connect/disconnect
    update, and the request/response cycle of execute_request and the
    eight read/write operations over it.

    The serial line is abstract: the frames the client writes are
    logged in `sent`, and `incoming` lists, request by request, the bytes
    that arrive before the timeout (an empty entry, or no entry left,
    means nothing arrived). */
module Client {
  import opened Base
  import opened Frame
  import opened Codec

  /** The pyserial port object; only whether it is open matters here. */
  datatype Port = Port(isOpen: bool)

  /** The client's state: the port object (None before connect and after
      disconnect), the frames written, the replies still to come. */
  datatype Line = Line(port: Option<Port>, sent: seq<seq<byte>>, incoming: seq<seq<byte>>)

  /** A call's effect on the state together with what it returns. */
  datatype Step<+T> = Step(line: Line, result: Result<T>)

  /** is_connected. */
  predicate Connected(l: Line)
    ensures Connected(l) ==> l.port.Some?
  {
    l.port.Some? && l.port.value.isOpen
  }

  /** What _receive_frame hands back for the next request. */
  function NextReply(incoming: seq<seq<byte>>): seq<byte> {
    if |incoming| > 0 then incoming[0] else []
  }

  function Rest(incoming: seq<seq<byte>>): seq<seq<byte>> {
    if |incoming| > 0 then incoming[1..] else []
  }

  /** connect: pyserial either opens the port (a new port object replaces
      any previous one) or raises, and then nothing changes. */
  function ConnectStep(l: Line, opens: bool): (s: Step<()>)
    ensures s.result.Ok? <==> opens
    ensures s.result.Ok? ==> Connected(s.line)
    ensures s.line.sent == l.sent && s.line.incoming == l.incoming
  {
    if opens then Step(Line(Some(Port(true)), l.sent, l.incoming), Ok(()))
    else Step(l, Err(PortOpenFailed))
  }

  /** disconnect: only a port that exists and is open is closed and
      dropped. */
  function DisconnectStep(l: Line): (l': Line)
    ensures !Connected(l')
    ensures l'.sent == l.sent && l'.incoming == l.incoming
    ensures !Connected(l) ==> l' == l
  {
    if l.port.Some? && l.port.value.isOpen then Line(None, l.sent, l.incoming) else l
  }

  /** execute_request with its effect on the line: the frame is written
      only when it could be built and the port is open, and only then is
      a reply consumed. */
  function Exchange(l: Line, slaveId: int, functionCode: int, data: seq<byte>): (s: Step<Response>)
    ensures s.line.port == l.port
    ensures s.result == Transact(Connected(l), slaveId, functionCode, data, NextReply(l.incoming))
    ensures BuildFrame(slaveId, functionCode, data).Ok? && Connected(l) ==>
      s.line.sent == l.sent + [BuildFrame(slaveId, functionCode, data).value] && s.line.incoming == Rest(l.incoming)
    ensures !(BuildFrame(slaveId, functionCode, data).Ok? && Connected(l)) ==> s.line == l
  {
    var frame := BuildFrame(slaveId, functionCode, data);
    var result := Transact(Connected(l), slaveId, functionCode, data, NextReply(l.incoming));
    if frame.Ok? && Connected(l) then Step(Line(l.port, l.sent + [frame.value], Rest(l.incoming)), result)
    else Step(l, result)
  }

  /** read_coils (0x01) and read_discrete_inputs (0x02). */
  function ReadBits(l: Line, slaveId: int, functionCode: int, start: int, count: int): (s: Step<seq<bool>>)
    ensures s.result.Ok? ==> |s.result.value| == count
  {
    match ReadRequest(start, count)
    case Err(e) => Step(l, Err(e))
    case Ok(request) =>
      var x := Exchange(l, slaveId, functionCode, request);
      Step(x.line, if x.result.Err? then Err(x.result.error) else ReadBitsPayload(x.result.value.data, count))
  }

  /** read_holding_registers (0x03) and read_input_registers (0x04). */
  function ReadRegisters(l: Line, slaveId: int, functionCode: int, start: int, count: int): (s: Step<seq<int>>)
    ensures s.result.Ok? ==> forall k :: 0 <= k < |s.result.value| ==> IsU16(s.result.value[k])
  {
    match ReadRequest(start, count)
    case Err(e) => Step(l, Err(e))
    case Ok(request) =>
      var x := Exchange(l, slaveId, functionCode, request);
      Step(x.line, if x.result.Err? then Err(x.result.error) else ReadRegistersPayload(x.result.value.data))
  }

  /** The four writes: send the encoded request, then check the echo of
      (address, value) — or (start, count) for the multiple writes. */
  function Write(l: Line, slaveId: int, functionCode: int, request: Result<seq<byte>>, address: int, value: int): (s: Step<bool>)
    ensures request.Err? ==> s == Step(l, Err(request.error))
  {
    match request
    case Err(e) => Step(l, Err(e))
    case Ok(data) =>
      var x := Exchange(l, slaveId, functionCode, data);
      Step(x.line, if x.result.Err? then Err(x.result.error) else EchoMatches(x.result.value.data, address, value))
  }

  /** A frame goes out only through an open port. */
  lemma ClosedSendsNothing(l: Line, slaveId: int, functionCode: int, data: seq<byte>)
    requires !Connected(l)
    ensures Exchange(l, slaveId, functionCode, data).line == l
    ensures Exchange(l, slaveId, functionCode, data).result.Err?
  {
  }

  /** Every exchange writes at most one frame. */
  lemma ExchangeSendsAtMostOne(l: Line, slaveId: int, functionCode: int, data: seq<byte>)
    ensures var l' := Exchange(l, slaveId, functionCode, data).line;
      l'.sent == l.sent || l'.sent == l.sent + [BuildFrame(slaveId, functionCode, data).value]
  {
  }

  /** End to end: a slave answering a coil/input read with the states it
      holds makes the read return exactly those states, and the request
      frame on the line is the one built from (start, count). */
  lemma ReadBitsFromDevice(l: Line, slaveId: int, functionCode: int, start: int, states: seq<bool>)
    requires Connected(l) && IsU8(slaveId) && IsU16(start)
    requires functionCode == ReadCoilsCode || functionCode == ReadDiscreteInputsCode
    requires |states| <= 2040
    requires NextReply(l.incoming)
      == BuildFrame(slaveId, functionCode, [((|states| + 7) / 8) as byte] + PackBits(states)).value
    ensures var s := ReadBits(l, slaveId, functionCode, start, |states|);
      s.result == Ok(states)
      && s.line.sent == l.sent + [BuildFrame(slaveId, functionCode, U16Bytes(start) + U16Bytes(|states|)).value]
  {
    var payload := [((|states| + 7) / 8) as byte] + PackBits(states);
    TransactNormalReply(slaveId, functionCode, U16Bytes(start) + U16Bytes(|states|), functionCode as byte, payload);
    ReadBitsOfPacked(states);
  }

  /** End to end for the register reads. */
  lemma ReadRegistersFromDevice(l: Line, slaveId: int, functionCode: int, start: int, values: seq<int>)
    requires Connected(l) && IsU8(slaveId) && IsU16(start)
    requires functionCode == ReadHoldingRegistersCode || functionCode == ReadInputRegistersCode
    requires AllU16(values) && |values| <= 127
    requires NextReply(l.incoming)
      == BuildFrame(slaveId, functionCode, [(2 * |values|) as byte] + RegisterBytes(values)).value
    ensures var s := ReadRegisters(l, slaveId, functionCode, start, |values|);
      s.result == Ok(values)
      && s.line.sent == l.sent + [BuildFrame(slaveId, functionCode, U16Bytes(start) + U16Bytes(|values|)).value]
  {
    var payload := [(2 * |values|) as byte] + RegisterBytes(values);
    TransactNormalReply(slaveId, functionCode, U16Bytes(start) + U16Bytes(|values|), functionCode as byte, payload);
    ReadRegistersOfPacked(values);
  }

  /** A well-formed normal reply of the addressed slave is what the
      exchange returns. */
  lemma ExchangeNormalReply(l: Line, slaveId: int, functionCode: int, data: seq<byte>, replyCode: byte, payload: seq<byte>)
    requires Connected(l) && IsU8(slaveId) && IsU8(functionCode)
    requires replyCode & 0x80 == 0
    requires NextReply(l.incoming) == BuildFrame(slaveId, replyCode as int, payload).value
    ensures Exchange(l, slaveId, functionCode, data).result
      == Ok(Response(slaveId as byte, replyCode, payload, NextReply(l.incoming)))
  {
    TransactNormalReply(slaveId, functionCode, data, replyCode, payload);
  }

  /** A write whose reply echoes the request's first two words reports
      success; any other four-byte payload reports failure. */
  lemma WriteAcknowledged(l: Line, slaveId: int, functionCode: int, address: int, value: int, echo: seq<byte>)
    requires Connected(l) && IsU8(slaveId)
    requires functionCode in {WriteSingleCoilCode, WriteSingleRegisterCode, WriteMultipleCoilsCode, WriteMultipleRegistersCode}
    requires IsU16(address) && IsU16(value) && |echo| == 4
    requires NextReply(l.incoming) == BuildFrame(slaveId, functionCode, echo).value
    ensures var request := PackU16Pair(address, value);
      Write(l, slaveId, functionCode, request, address, value).result
        == Ok(echo == request.value)
  {
    var request := PackU16Pair(address, value);
    ByteOfInt(functionCode);
    ExchangeNormalReply(l, slaveId, functionCode, request.value, functionCode as byte, echo);
    var x := Exchange(l, slaveId, functionCode, request.value);
    assert x.result.Ok? && x.result.value.data == echo;
    EchoExactly(echo, address, value);
    assert EchoMatches(echo, address, value).Ok?;
  }

  class ModbusRTUClient {
    const port: string
    const baudrate: int
    var serialPort: Option<Port>
    var sent: seq<seq<byte>>
    var incoming: seq<seq<byte>>

    function State(): Line
      reads this
    {
      Line(serialPort, sent, incoming)
    }

    /** A client for `port`, not yet connected; `replies` is what the
        slave side of the line will send. */
    constructor(port: string, baudrate: int, replies: seq<seq<byte>>)
      ensures this.port == port && this.baudrate == baudrate
      ensures State() == Line(None, [], replies)
    {
      this.port := port;
      this.baudrate := baudrate;
      serialPort := None;
      sent := [];
      incoming := replies;
    }

    /** connect; `opens` says whether pyserial manages to open the port. */
    method Connect(opens: bool) returns (r: Result<()>)
      modifies this
      ensures Step(State(), r) == ConnectStep(old(State()), opens)
    {
      if !opens {
        return Err(PortOpenFailed);
      }
      serialPort := Some(Port(true));
      r := Ok(());
    }

    method Disconnect()
      modifies this
      ensures State() == DisconnectStep(old(State()))
    {
      if serialPort.Some? && serialPort.value.isOpen {
        serialPort := None;
      }
    }

    predicate IsConnected()
      reads this
      ensures IsConnected() <==> Connected(State())
    {
      serialPort.Some? && serialPort.value.isOpen
    }

    /** _send_frame then _receive_frame. */
    method SendReceive(frame: seq<byte>) returns (r: Result<seq<byte>>)
      modifies this
      ensures !old(IsConnected()) ==> r == Err(PortNotOpen) && State() == old(State())
      ensures old(IsConnected()) ==>
        && r == (if |NextReply(old(incoming))| == 0 then Err(Timeout) else Ok(NextReply(old(incoming))))
        && State() == Line(old(serialPort), old(sent) + [frame], Rest(old(incoming)))
    {
      if !IsConnected() {
        return Err(PortNotOpen);
      }
      sent := sent + [frame];
      var reply := NextReply(incoming);
      incoming := Rest(incoming);
      if |reply| == 0 {
        return Err(Timeout);
      }
      r := Ok(reply);
    }

    method ExecuteRequest(slaveId: int, functionCode: int, data: seq<byte>) returns (r: Result<Response>)
      modifies this
      ensures Step(State(), r) == Exchange(old(State()), slaveId, functionCode, data)
    {
      var frame := BuildFrame(slaveId, functionCode, data);
      if frame.Err? {
        return Err(frame.error);
      }
      var received := SendReceive(frame.value);
      if received.Err? {
        return Err(received.error);
      }
      var parsed := ParseResponse(received.value);
      if parsed.Err? {
        return Err(parsed.error);
      }
      var response := parsed.value;
      if response.slaveId as int != slaveId {
        return Err(SlaveMismatch(slaveId, response.slaveId as int));
      }
      if response.IsError() {
        var code := if |response.data| > 0 then response.data[0] as int else 0;
        return Err(DeviceException(functionCode, code));
      }
      r := Ok(response);
    }

    method ReadBitTable(slaveId: int, functionCode: int, start: int, count: int) returns (r: Result<seq<bool>>)
      modifies this
      ensures Step(State(), r) == ReadBits(old(State()), slaveId, functionCode, start, count)
    {
      var request := ReadRequest(start, count);
      if request.Err? {
        return Err(request.error);
      }
      var response := ExecuteRequest(slaveId, functionCode, request.value);
      if response.Err? {
        return Err(response.error);
      }
      var data := response.value.data;
      if |data| == 0 {
        return Err(IndexError);
      }
      var coils := DecodeBits(CountedData(data), count);
      r := Ok(coils);
    }

    method ReadCoils(slaveId: int, start: int, count: int) returns (r: Result<seq<bool>>)
      modifies this
      ensures Step(State(), r) == ReadBits(old(State()), slaveId, ReadCoilsCode, start, count)
    {
      r := ReadBitTable(slaveId, ReadCoilsCode, start, count);
    }

    method ReadDiscreteInputs(slaveId: int, start: int, count: int) returns (r: Result<seq<bool>>)
      modifies this
      ensures Step(State(), r) == ReadBits(old(State()), slaveId, ReadDiscreteInputsCode, start, count)
    {
      r := ReadBitTable(slaveId, ReadDiscreteInputsCode, start, count);
    }

    method ReadRegisterBlock(slaveId: int, functionCode: int, start: int, count: int) returns (r: Result<seq<int>>)
      modifies this
      ensures Step(State(), r) == ReadRegisters(old(State()), slaveId, functionCode, start, count)
    {
      var request := ReadRequest(start, count);
      if request.Err? {
        return Err(request.error);
      }
      var response := ExecuteRequest(slaveId, functionCode, request.value);
      if response.Err? {
        return Err(response.error);
      }
      var data := response.value.data;
      if |data| == 0 {
        return Err(IndexError);
      }
      var registers := DecodeRegisters(CountedData(data));
      r := Ok(registers);
    }

    method ReadHoldingRegisters(slaveId: int, start: int, count: int) returns (r: Result<seq<int>>)
      modifies this
      ensures Step(State(), r) == ReadRegisters(old(State()), slaveId, ReadHoldingRegistersCode, start, count)
    {
      r := ReadRegisterBlock(slaveId, ReadHoldingRegistersCode, start, count);
    }

    method ReadInputRegisters(slaveId: int, start: int, count: int) returns (r: Result<seq<int>>)
      modifies this
      ensures Step(State(), r) == ReadRegisters(old(State()), slaveId, ReadInputRegistersCode, start, count)
    {
      r := ReadRegisterBlock(slaveId, ReadInputRegistersCode, start, count);
    }

    /** Sends an encoded write and checks the echoed (address, value). */
    method WriteChecked(slaveId: int, functionCode: int, request: Result<seq<byte>>, address: int, value: int) returns (r: Result<bool>)
      modifies this
      ensures Step(State(), r) == Write(old(State()), slaveId, functionCode, request, address, value)
    {
      if request.Err? {
        return Err(request.error);
      }
      var response := ExecuteRequest(slaveId, functionCode, request.value);
      if response.Err? {
        return Err(response.error);
      }
      r := EchoMatches(response.value.data, address, value);
    }

    method WriteSingleCoil(slaveId: int, address: int, value: bool) returns (r: Result<bool>)
      modifies this
      ensures Step(State(), r)
        == Write(old(State()), slaveId, WriteSingleCoilCode, SingleCoilRequest(address, value), address, CoilValue(value))
    {
      var coilValue := CoilValue(value);
      r := WriteChecked(slaveId, WriteSingleCoilCode, PackU16Pair(address, coilValue), address, coilValue);
    }

    method WriteSingleRegister(slaveId: int, address: int, value: int) returns (r: Result<bool>)
      modifies this
      ensures Step(State(), r)
        == Write(old(State()), slaveId, WriteSingleRegisterCode, SingleRegisterRequest(address, value), address, value)
    {
      r := WriteChecked(slaveId, WriteSingleRegisterCode, PackU16Pair(address, value), address, value);
    }

    method WriteMultipleCoils(slaveId: int, start: int, values: seq<bool>) returns (r: Result<bool>)
      modifies this
      ensures Step(State(), r)
        == Write(old(State()), slaveId, WriteMultipleCoilsCode, MultipleCoilsRequest(start, values), start, |values|)
    {
      var count := |values|;
      var byteCount := (count + 7) / 8;
      var coilBytes := PackCoils(values);
      var request: Result<seq<byte>>;
      if IsU16(start) && IsU16(count) && IsU8(byteCount) {
        request := Ok(U16Bytes(start) + U16Bytes(count) + [byteCount as byte] + coilBytes);
      } else {
        request := Err(PackError);
      }
      assert request == MultipleCoilsRequest(start, values);
      r := WriteChecked(slaveId, WriteMultipleCoilsCode, request, start, count);
    }

    method WriteMultipleRegisters(slaveId: int, start: int, values: seq<int>) returns (r: Result<bool>)
      modifies this
      ensures Step(State(), r)
        == Write(old(State()), slaveId, WriteMultipleRegistersCode, MultipleRegistersRequest(start, values), start, |values|)
    {
      var count := |values|;
      var byteCount := count * 2;
      var registerData := EncodeRegisters(values);
      var request: Result<seq<byte>>;
      if registerData.Err? {
        request := Err(registerData.error);
      } else if IsU16(start) && IsU16(count) && IsU8(byteCount) {
        request := Ok(U16Bytes(start) + U16Bytes(count) + [byteCount as byte] + registerData.value);
      } else {
        request := Err(PackError);
      }
      r := WriteChecked(slaveId, WriteMultipleRegistersCode, request, start, count);
    }
  }
}
