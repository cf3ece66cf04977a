/** The PDU payloads of the eight function codes ModbusRTUClient speaks
    (read coils / discrete inputs / holding registers / input registers,
    write single coil / single register, write multiple coils / multiple
    registers): request encoding, response decoding and the echo checks
    on writes, as in sections 6.1-6.6, 6.11 and 6.12 of the Modbus
    Application Protocol Specification V1.1b3. */
module Codec {
  import opened Base

  const ReadCoilsCode := 0x01
  const ReadDiscreteInputsCode := 0x02
  const ReadHoldingRegistersCode := 0x03
  const ReadInputRegistersCode := 0x04
  const WriteSingleCoilCode := 0x05
  const WriteSingleRegisterCode := 0x06
  const WriteMultipleCoilsCode := 0x0F
  const WriteMultipleRegistersCode := 0x10

  function Min(a: int, b: int): int {
    if a < b then a else b
  }

  // ---------------------------------------------------------------------
  // Bits of a byte

  /** Bit j of b, bit 0 being the least significant. */
  function Bit(b: byte, j: nat): bool
    requires j < 8
  {
    (b >> j) & 1 == 1
  }

  /** The value `1 << j` that write_multiple_coils ORs in. */
  function Mask(j: nat): byte
    requires j < 8
  {
    1 << j
  }

  lemma ZeroHasNoBits(j: nat)
    requires j < 8
    ensures !Bit(0, j)
  {
  }

  /** ORing in a mask sets that bit and leaves the others alone. */
  lemma SetBit(x: byte, k: nat, j: nat)
    requires k < 8 && j < 8
    ensures Bit(x | Mask(k), j) == (j == k || Bit(x, j))
  {
  }

  /** A byte is determined by its eight bits. */
  lemma BitsDetermineByte(x: byte, y: byte)
    requires forall j :: 0 <= j < 8 ==> Bit(x, j) == Bit(y, j)
    ensures x == y
  {
    assert Bit(x, 0) == Bit(y, 0);
    assert Bit(x, 1) == Bit(y, 1);
    assert Bit(x, 2) == Bit(y, 2);
    assert Bit(x, 3) == Bit(y, 3);
    assert Bit(x, 4) == Bit(y, 4);
    assert Bit(x, 5) == Bit(y, 5);
    assert Bit(x, 6) == Bit(y, 6);
    assert Bit(x, 7) == Bit(y, 7);
  }

  /** Position i of a bit list sits at bit i % 8 of byte i / 8. */
  lemma Position(i: nat, k: nat, j: nat)
    requires j < 8
    ensures 8 * k + j == i <==> k == i / 8 && j == i % 8
  {
  }

  // ---------------------------------------------------------------------
  // Coil and discrete-input tables: LSB first, byte by byte

  /** Coil i of a received table, False beyond the bytes received. */
  function BitAt(coilData: seq<byte>, i: nat): bool {
    if i / 8 < |coilData| then Bit(coilData[i / 8], i % 8) else false
  }

  /** The `count` booleans read_coils and read_discrete_inputs return. */
  function UnpackBits(coilData: seq<byte>, count: nat): (bits: seq<bool>)
    ensures |bits| == count
  {
    seq(count, i requires 0 <= i < count => BitAt(coilData, i))
  }

  /** The loop of read_coils / read_discrete_inputs. */
  method DecodeBits(coilData: seq<byte>, count: nat) returns (coils: seq<bool>)
    ensures coils == UnpackBits(coilData, count)
  {
    coils := [];
    for i := 0 to count
      invariant |coils| == i
      invariant forall k :: 0 <= k < i ==> coils[k] == BitAt(coilData, k)
    {
      var byteIndex := i / 8;
      var bitIndex := i % 8;
      if byteIndex < |coilData| {
        coils := coils + [(coilData[byteIndex] >> bitIndex) & 1 == 1];
      } else {
        coils := coils + [false];
      }
    }
  }

  /** Whether position i of the list is present and True. */
  function Has(values: seq<bool>, i: nat): bool {
    i < |values| && values[i]
  }

  /** Byte k of the coil table write_multiple_coils sends. */
  function PackByte(values: seq<bool>, k: nat): byte {
    var i := 8 * k;
    (if Has(values, i) then 0x01 else 0) | (if Has(values, i + 1) then 0x02 else 0)
    | (if Has(values, i + 2) then 0x04 else 0) | (if Has(values, i + 3) then 0x08 else 0)
    | (if Has(values, i + 4) then 0x10 else 0) | (if Has(values, i + 5) then 0x20 else 0)
    | (if Has(values, i + 6) then 0x40 else 0) | (if Has(values, i + 7) then 0x80 else 0)
  }

  /** The coil table write_multiple_coils sends for `values`. */
  function PackBits(values: seq<bool>): (coilBytes: seq<byte>)
    ensures |coilBytes| == (|values| + 7) / 8
  {
    seq((|values| + 7) / 8, k requires 0 <= k < (|values| + 7) / 8 => PackByte(values, k))
  }

  lemma PackByteBit(values: seq<bool>, k: nat, j: nat)
    requires j < 8
    ensures Bit(PackByte(values, k), j) == Has(values, 8 * k + j)
  {
    var i := 8 * k;
    if j == 0 {
    } else if j == 1 {
    } else if j == 2 {
    } else if j == 3 {
    } else if j == 4 {
    } else if j == 5 {
    } else if j == 6 {
    } else {
    }
  }

  /** Packing then unpacking the same number of coils gives the list back:
      the two bit layouts agree. */
  lemma UnpackPacked(values: seq<bool>)
    ensures UnpackBits(PackBits(values), |values|) == values
  {
    var packed := PackBits(values);
    forall i | 0 <= i < |values|
      ensures UnpackBits(packed, |values|)[i] == values[i]
    {
      PackByteBit(values, i / 8, i % 8);
    }
  }

  /** Coils past the packed list read back as False. */
  lemma UnpackPackedBeyond(values: seq<bool>, count: nat)
    requires count >= |values|
    ensures UnpackBits(PackBits(values), count)[..|values|] == values
    ensures forall i :: |values| <= i < count ==> !UnpackBits(PackBits(values), count)[i]
  {
    var packed := PackBits(values);
    forall i | 0 <= i < count
      ensures UnpackBits(packed, count)[i] == Has(values, i)
    {
      if i / 8 < |packed| {
        PackByteBit(values, i / 8, i % 8);
      }
    }
  }

  /** The loop of write_multiple_coils: a zeroed buffer of (n + 7) / 8
      bytes into which bit i % 8 of byte i / 8 is ORed for every True. */
  method PackCoils(values: seq<bool>) returns (coilBytes: seq<byte>)
    ensures coilBytes == PackBits(values)
  {
    var byteCount := (|values| + 7) / 8;
    var buffer := new byte[byteCount](_ => 0);
    forall k, j | 0 <= k < byteCount && 0 <= j < 8
      ensures !Bit(buffer[k], j)
    {
      ZeroHasNoBits(j);
    }
    for i := 0 to |values|
      invariant forall k, j :: 0 <= k < byteCount && 0 <= j < 8 ==>
        Bit(buffer[k], j) == (8 * k + j < i && values[8 * k + j])
    {
      if values[i] {
        var byteIndex := i / 8;
        var bitIndex := i % 8;
        ghost var before := buffer[byteIndex];
        buffer[byteIndex] := buffer[byteIndex] | Mask(bitIndex);
        forall k, j | 0 <= k < byteCount && 0 <= j < 8
          ensures Bit(buffer[k], j) == (8 * k + j < i + 1 && values[8 * k + j])
        {
          Position(i, k, j);
          if k == byteIndex {
            SetBit(before, bitIndex, j);
          }
        }
      } else {
        forall k, j | 0 <= k < byteCount && 0 <= j < 8
          ensures Bit(buffer[k], j) == (8 * k + j < i + 1 && values[8 * k + j])
        {
          Position(i, k, j);
        }
      }
    }
    coilBytes := buffer[..];
    forall k | 0 <= k < byteCount
      ensures coilBytes[k] == PackByte(values, k)
    {
      forall j | 0 <= j < 8
        ensures Bit(coilBytes[k], j) == Bit(PackByte(values, k), j)
      {
        PackByteBit(values, k, j);
      }
      BitsDetermineByte(coilBytes[k], PackByte(values, k));
    }
  }

  // ---------------------------------------------------------------------
  // Registers: big-endian 16-bit words

  /** The words read_holding_registers and read_input_registers return:
      one per whole byte pair, an odd trailing byte dropped. */
  function UnpackRegisters(registerData: seq<byte>): (values: seq<int>)
    ensures |values| == |registerData| / 2
    ensures forall k :: 0 <= k < |values| ==> IsU16(values[k])
  {
    seq(|registerData| / 2, k requires 0 <= k < |registerData| / 2 =>
      U16Value(registerData[2 * k], registerData[2 * k + 1]))
  }

  /** The loop of the register reads: `for i in range(0, len, 2)`, taking
      a word only when its second byte is there. */
  method DecodeRegisters(registerData: seq<byte>) returns (registers: seq<int>)
    ensures registers == UnpackRegisters(registerData)
  {
    registers := [];
    var i := 0;
    while i < |registerData|
      invariant 0 <= i <= |registerData| + 1 && i % 2 == 0
      invariant |registers| == Min(i, |registerData|) / 2
      invariant forall k :: 0 <= k < |registers| ==>
        registers[k] == U16Value(registerData[2 * k], registerData[2 * k + 1])
    {
      if i + 1 < |registerData| {
        registers := registers + [U16Value(registerData[i], registerData[i + 1])];
      }
      i := i + 2;
    }
  }

  predicate AllU16(values: seq<int>) {
    forall k :: 0 <= k < |values| ==> IsU16(values[k])
  }

  /** The register block write_multiple_registers sends, word after word. */
  function RegisterBytes(values: seq<int>): (bytes: seq<byte>)
    requires AllU16(values)
    ensures |bytes| == 2 * |values|
    decreases |values|
  {
    if |values| == 0 then []
    else RegisterBytes(values[..|values| - 1]) + U16Bytes(values[|values| - 1])
  }

  lemma {:induction false} RegisterBytesAt(values: seq<int>, k: nat)
    requires AllU16(values) && k < |values|
    ensures RegisterBytes(values)[2 * k] == U16Bytes(values[k])[0]
    ensures RegisterBytes(values)[2 * k + 1] == U16Bytes(values[k])[1]
    decreases |values|
  {
    var init := values[..|values| - 1];
    if k < |values| - 1 {
      RegisterBytesAt(init, k);
    }
  }

  /** Reading back a written register block gives the words back. */
  lemma UnpackRegisterBytes(values: seq<int>)
    requires AllU16(values)
    ensures UnpackRegisters(RegisterBytes(values)) == values
  {
    var bytes := RegisterBytes(values);
    forall k | 0 <= k < |values|
      ensures UnpackRegisters(bytes)[k] == values[k]
    {
      RegisterBytesAt(values, k);
      U16RoundTrip(values[k]);
    }
  }

  /** The loop of write_multiple_registers: struct.pack('>H', v) for each
      value in turn, raising at the first one out of range. */
  method EncodeRegisters(values: seq<int>) returns (r: Result<seq<byte>>)
    ensures r.Ok? <==> AllU16(values)
    ensures r.Err? ==> r.error == PackError
    ensures r.Ok? ==> r.value == RegisterBytes(values)
  {
    var registerData: seq<byte> := [];
    for i := 0 to |values|
      invariant AllU16(values[..i])
      invariant registerData == RegisterBytes(values[..i])
    {
      if !IsU16(values[i]) {
        return Err(PackError);
      }
      assert values[..i + 1][..i] == values[..i];
      registerData := registerData + U16Bytes(values[i]);
    }
    assert values[..|values|] == values;
    return Ok(registerData);
  }

  // ---------------------------------------------------------------------
  // Requests

  /** The request of the four reads: struct.pack('>HH', start, count). */
  function ReadRequest(start: int, count: int): (r: Result<seq<byte>>)
    ensures r.Ok? <==> IsU16(start) && IsU16(count)
    ensures r.Ok? ==> |r.value| == 4
  {
    PackU16Pair(start, count)
  }

  /** The value write_single_coil sends for ON and OFF. */
  function CoilValue(on: bool): (v: int)
    ensures IsU16(v)
    ensures U16Bytes(v) == if on then [0xFF, 0x00] else [0x00, 0x00]
  {
    if on then 0xFF00 else 0x0000
  }

  function SingleCoilRequest(address: int, on: bool): (r: Result<seq<byte>>)
    ensures r.Ok? <==> IsU16(address)
    ensures r.Ok? ==> |r.value| == 4 && r.value[2..] == if on then [0xFF, 0x00] else [0x00, 0x00]
  {
    PackU16Pair(address, CoilValue(on))
  }

  function SingleRegisterRequest(address: int, value: int): (r: Result<seq<byte>>)
    ensures r.Ok? <==> IsU16(address) && IsU16(value)
  {
    PackU16Pair(address, value)
  }

  /** write_multiple_coils: struct.pack('>HHB', start, count, byte_count)
      followed by the packed table. */
  function MultipleCoilsRequest(start: int, values: seq<bool>): (r: Result<seq<byte>>)
    ensures r.Ok? <==> IsU16(start) && |values| <= 2040
    ensures r.Err? ==> r.error == PackError
    ensures r.Ok? ==> |r.value| == 5 + (|values| + 7) / 8
  {
    var count := |values|;
    var byteCount := (count + 7) / 8;
    if IsU16(start) && IsU16(count) && IsU8(byteCount) then
      Ok(U16Bytes(start) + U16Bytes(count) + [byteCount as byte] + PackBits(values))
    else
      Err(PackError)
  }

  /** write_multiple_registers: every value packed first, then
      struct.pack('>HHB', start, count, 2 * count) and the words. */
  function MultipleRegistersRequest(start: int, values: seq<int>): (r: Result<seq<byte>>)
    ensures r.Ok? <==> IsU16(start) && AllU16(values) && |values| <= 127
    ensures r.Err? ==> r.error == PackError
    ensures r.Ok? ==> |r.value| == 5 + 2 * |values|
  {
    var count := |values|;
    var byteCount := count * 2;
    if !AllU16(values) then Err(PackError)
    else if IsU16(start) && IsU16(count) && IsU8(byteCount) then
      Ok(U16Bytes(start) + U16Bytes(count) + [byteCount as byte] + RegisterBytes(values))
    else
      Err(PackError)
  }

  // ---------------------------------------------------------------------
  // Responses

  /** response.data[1:1+byte_count], clamped to the data as Python slices are. */
  function CountedData(data: seq<byte>): (counted: seq<byte>)
    requires |data| > 0
    ensures |counted| == Min(data[0] as int, |data| - 1)
  {
    data[1..Min(1 + data[0] as int, |data|)]
  }

  /** What read_coils / read_discrete_inputs make of the response data;
      `response.data[0]` raises IndexError on an empty payload. */
  function ReadBitsPayload(data: seq<byte>, count: nat): (r: Result<seq<bool>>)
    ensures r.Ok? <==> |data| > 0
    ensures r.Err? ==> r.error == IndexError
    ensures r.Ok? ==> |r.value| == count
  {
    if |data| == 0 then Err(IndexError) else Ok(UnpackBits(CountedData(data), count))
  }

  /** What the register reads make of the response data. */
  function ReadRegistersPayload(data: seq<byte>): (r: Result<seq<int>>)
    ensures r.Ok? <==> |data| > 0
    ensures r.Err? ==> r.error == IndexError
    ensures r.Ok? ==> |r.value| == Min(data[0] as int, |data| - 1) / 2
  {
    if |data| == 0 then Err(IndexError) else Ok(UnpackRegisters(CountedData(data)))
  }

  /** The echo check of the writes: struct.unpack('>HH', data) raises
      unless there are exactly four bytes; then both words must match. */
  function EchoMatches(data: seq<byte>, address: int, value: int): (r: Result<bool>)
    ensures r.Ok? <==> |data| == 4
    ensures r.Err? ==> r.error == PackError
  {
    if |data| != 4 then Err(PackError)
    else Ok(U16Value(data[0], data[1]) == address && U16Value(data[2], data[3]) == value)
  }

  /** The echo check passes exactly on the two words the request packed. */
  lemma EchoExactly(data: seq<byte>, address: int, value: int)
    requires IsU16(address) && IsU16(value)
    ensures EchoMatches(data, address, value) == Ok(true) <==> data == PackU16Pair(address, value).value
  {
    U16RoundTrip(address);
    U16RoundTrip(value);
    if EchoMatches(data, address, value) == Ok(true) {
      U16Injective(data[0], data[1]);
      U16Injective(data[2], data[3]);
      assert data == [data[0], data[1]] + [data[2], data[3]];
    }
  }

  /** A device echoing the first four request bytes (address and count,
      the normal response of functions 0x0F and 0x10) passes the check. */
  lemma MultipleCoilsEcho(start: int, values: seq<bool>)
    requires MultipleCoilsRequest(start, values).Ok?
    ensures EchoMatches(MultipleCoilsRequest(start, values).value[..4], start, |values|) == Ok(true)
  {
    var request := MultipleCoilsRequest(start, values).value;
    assert request[..4] == U16Bytes(start) + U16Bytes(|values|);
    EchoExactly(request[..4], start, |values|);
  }

  lemma MultipleRegistersEcho(start: int, values: seq<int>)
    requires MultipleRegistersRequest(start, values).Ok?
    ensures EchoMatches(MultipleRegistersRequest(start, values).value[..4], start, |values|) == Ok(true)
  {
    var request := MultipleRegistersRequest(start, values).value;
    assert request[..4] == U16Bytes(start) + U16Bytes(|values|);
    EchoExactly(request[..4], start, |values|);
  }

  /** A device's read response [byte count] + table decodes to the states
      it packed. */
  lemma ReadBitsOfPacked(states: seq<bool>)
    requires |states| <= 2040
    ensures ReadBitsPayload([((|states| + 7) / 8) as byte] + PackBits(states), |states|) == Ok(states)
  {
    var table := PackBits(states);
    var data := [((|states| + 7) / 8) as byte] + table;
    ByteOfInt((|states| + 7) / 8);
    assert CountedData(data) == table;
    UnpackPacked(states);
  }

  lemma ReadRegistersOfPacked(values: seq<int>)
    requires AllU16(values) && |values| <= 127
    ensures ReadRegistersPayload([(2 * |values|) as byte] + RegisterBytes(values)) == Ok(values)
  {
    var block := RegisterBytes(values);
    var data := [(2 * |values|) as byte] + block;
    ByteOfInt(2 * |values|);
    assert CountedData(data) == block;
    UnpackRegisterBytes(values);
  }
}
