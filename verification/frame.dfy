/** RTU framing: a frame is the slave address, the function code, the
    PDU data and the two CRC bytes (ModbusRTUClient._build_frame and
    _parse_response), and the checks execute_request applies to a
    parsed response (wrong slave, exception response). */
module Frame {
  import opened Base
  import opened Crc

  /** ModbusRTUResponse. `raw` is the whole frame as received. */
  datatype Response = Response(slaveId: byte, functionCode: byte, data: seq<byte>, raw: seq<byte>)
  {
    /** An exception response has bit 0x80 of the function code set. */
    predicate IsError() {
      functionCode & 0x80 != 0
    }
  }

  /** The bytes the CRC covers: address, function code, data. */
  function Body(slaveId: byte, functionCode: byte, data: seq<byte>): seq<byte> {
    [slaveId, functionCode] + data
  }

  /** _build_frame: struct.pack('BB', ...) raises unless both fields fit a
      byte; the CRC pair follows in the order `calculate` returns it. */
  function BuildFrame(slaveId: int, functionCode: int, data: seq<byte>): (r: Result<seq<byte>>)
    ensures r.Ok? <==> IsU8(slaveId) && IsU8(functionCode)
    ensures r.Err? ==> r.error == PackError
    ensures r.Ok? ==> |r.value| == |data| + 4 && Verify(r.value)
  {
    if IsU8(slaveId) && IsU8(functionCode) then
      var body := Body(slaveId as byte, functionCode as byte, data);
      VerifyAppended(body);
      Ok(body + CrcBytes(body))
    else
      Err(PackError)
  }

  /** _parse_response: the length check comes before the CRC check. */
  function ParseResponse(raw: seq<byte>): (r: Result<Response>)
    ensures |raw| < 4 ==> r == Err(FrameTooShort)
    ensures |raw| >= 4 ==> (r.Ok? <==> Verify(raw))
    ensures |raw| >= 4 && !Verify(raw) ==> r == Err(CrcMismatch)
    ensures r.Ok? ==> r.value.raw == raw && |r.value.data| == |raw| - 4
  {
    if |raw| < 4 then Err(FrameTooShort)
    else if !Verify(raw) then Err(CrcMismatch)
    else Ok(Response(raw[0], raw[1], raw[2..|raw| - 2], raw))
  }

  /** Parsing a built frame gives back its fields. */
  lemma ParseBuilt(slaveId: int, functionCode: int, data: seq<byte>)
    requires BuildFrame(slaveId, functionCode, data).Ok?
    ensures var frame := BuildFrame(slaveId, functionCode, data).value;
      ParseResponse(frame) == Ok(Response(slaveId as byte, functionCode as byte, data, frame))
  {
    var frame := BuildFrame(slaveId, functionCode, data).value;
    var body := Body(slaveId as byte, functionCode as byte, data);
    assert frame == body + CrcBytes(body);
    assert frame[2..|frame| - 2] == data;
  }

  /** Every frame the parser accepts is the frame built from its fields:
      nothing else passes the CRC check. */
  lemma AcceptedIsBuilt(raw: seq<byte>)
    requires ParseResponse(raw).Ok?
    ensures var resp := ParseResponse(raw).value;
      BuildFrame(resp.slaveId as int, resp.functionCode as int, resp.data) == Ok(raw)
  {
    var resp := ParseResponse(raw).value;
    VerifyExactly(raw);
    var body := Body(resp.slaveId, resp.functionCode, resp.data);
    assert raw[..|raw| - 2] == body;
    ByteOfInt(resp.slaveId as int);
    ByteOfInt(resp.functionCode as int);
  }

  /** The request of the serial-line test suite: read 37 coils from 0x13
      on slave 1. */
  lemma BuildFixture()
    ensures BuildFrame(1, 1, [0x00, 0x13, 0x00, 0x25])
         == Ok([0x01, 0x01, 0x00, 0x13, 0x00, 0x25, 0x0C, 0x14])
  {
    CrcFixture();
    var body := Body(1, 1, [0x00, 0x13, 0x00, 0x25]);
    assert body == [0x01, 0x01, 0x00, 0x13, 0x00, 0x25];
    assert body + CrcBytes(body) == [0x01, 0x01, 0x00, 0x13, 0x00, 0x25, 0x0C, 0x14];
  }

  /** The checks execute_request makes after parsing: the slave must be
      the one addressed, and an exception response raises with the first
      data byte (0 when there is none) as its code. */
  function CheckResponse(slaveId: int, functionCode: int, response: Response): (r: Result<Response>)
    ensures r.Ok? <==> response.slaveId as int == slaveId && !response.IsError()
    ensures r.Ok? ==> r.value == response
    ensures r.Err? ==> r.error.IsModbusException()
  {
    if response.slaveId as int != slaveId then
      Err(SlaveMismatch(slaveId, response.slaveId as int))
    else if response.IsError() then
      Err(DeviceException(functionCode, if |response.data| > 0 then response.data[0] as int else 0))
    else
      Ok(response)
  }

  /** execute_request given whether the port is open and what arrives on
      the line before the timeout (nothing at all reads as a timeout).
      The frame is built before the port is checked, so a field that does
      not fit a byte raises first. */
  function Transact(connected: bool, slaveId: int, functionCode: int, data: seq<byte>, reply: seq<byte>): (r: Result<Response>)
    ensures r.Ok? ==> r.value.slaveId as int == slaveId && !r.value.IsError()
  {
    if BuildFrame(slaveId, functionCode, data).Err? then Err(PackError)
    else if !connected then Err(PortNotOpen)
    else if |reply| == 0 then Err(Timeout)
    else
      match ParseResponse(reply)
      case Err(e) => Err(e)
      case Ok(response) => CheckResponse(slaveId, functionCode, response)
  }

  /** A well-formed normal reply from the addressed slave comes back
      unchanged, whatever function code it carries. */
  lemma TransactNormalReply(slaveId: int, functionCode: int, data: seq<byte>, replyCode: byte, payload: seq<byte>)
    requires IsU8(slaveId) && IsU8(functionCode)
    requires replyCode & 0x80 == 0
    ensures var reply := BuildFrame(slaveId, replyCode as int, payload).value;
      Transact(true, slaveId, functionCode, data, reply)
        == Ok(Response(slaveId as byte, replyCode, payload, reply))
  {
    ParseBuilt(slaveId, replyCode as int, payload);
    ByteOfInt(slaveId);
  }

  /** An exception reply (bit 0x80 set) raises with the REQUESTED function
      code and the first byte the slave sent as exception code, or 0 when
      the reply carries no data. */
  lemma TransactExceptionReply(slaveId: int, functionCode: int, data: seq<byte>, replyCode: byte, payload: seq<byte>)
    requires IsU8(slaveId) && IsU8(functionCode)
    requires replyCode & 0x80 != 0
    ensures var reply := BuildFrame(slaveId, replyCode as int, payload).value;
      Transact(true, slaveId, functionCode, data, reply)
        == Err(DeviceException(functionCode, if |payload| > 0 then payload[0] as int else 0))
  {
    ParseBuilt(slaveId, replyCode as int, payload);
    ByteOfInt(slaveId);
  }

  /** A reply from another slave raises, naming both addresses. */
  lemma TransactWrongSlave(slaveId: int, functionCode: int, data: seq<byte>, other: byte, replyCode: byte, payload: seq<byte>)
    requires IsU8(slaveId) && IsU8(functionCode)
    requires other as int != slaveId
    ensures var reply := BuildFrame(other as int, replyCode as int, payload).value;
      Transact(true, slaveId, functionCode, data, reply) == Err(SlaveMismatch(slaveId, other as int))
  {
    ParseBuilt(other as int, replyCode as int, payload);
    ByteOfInt(other as int);
  }
}
