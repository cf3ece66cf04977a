/** Types shared by every layer of the relay stack: bytes, 16-bit fields,
    the error taxonomy of the Python exceptions the core raises, and
    result wrappers for operations that raise. */
module Base {

  /** One octet on the wire. */
  type byte = bv8

  datatype Option<+T> = None | Some(value: T)

  /** A call that either returns `value` or raises `error`. */
  datatype Result<+T> = Ok(value: T) | Err(error: Error)

  /** What the core raises. All but the last four are ModbusRTUException
      (or one of its subclasses); the last four are Python's own errors
      escaping from `struct`, list indexing, `int()` and attribute lookup. */
  datatype Error =
    | PortOpenFailed                             // connect: serial.SerialException re-raised
    | PortNotOpen                                // _send_frame/_receive_frame on a closed port
    | Timeout                                    // ModbusRTUTimeoutException
    | FrameTooShort                              // response shorter than 4 bytes
    | CrcMismatch                                // ModbusRTUCRCException
    | SlaveMismatch(expected: int, received: int)
    | DeviceException(functionCode: int, code: int) // exception response (bit 0x80 set)
    | DeviceNotConnected                         // controller guard "not connected"
    | PackError                                  // struct.error: a field does not fit its format
    | IndexError                                 // an empty response payload indexed at 0
    | ValueError                                 // int() of a malformed relay number
    | AttributeError                             // a method called on a controller that is None
  {
    /** Whether a Python `except ModbusRTUException` clause catches it. */
    predicate IsModbusException() {
      !(PackError? || IndexError? || ValueError? || AttributeError?)
    }
  }

  /** Whether v fits struct format 'H' (unsigned 16-bit). */
  predicate IsU16(v: int) {
    0 <= v < 0x1_0000
  }

  /** Whether v fits struct format 'B' (unsigned 8-bit). */
  predicate IsU8(v: int) {
    0 <= v < 0x100
  }

  /** struct.pack('>H', v): big-endian, high byte first. */
  function U16Bytes(v: int): (bs: seq<byte>)
    requires IsU16(v)
    ensures |bs| == 2
  {
    [(v / 0x100) as byte, (v % 0x100) as byte]
  }

  /** struct.unpack('>H', [hi, lo]). */
  function U16Value(hi: byte, lo: byte): (v: int)
    ensures IsU16(v)
  {
    hi as int * 0x100 + lo as int
  }

  /** An integer in 0..255 survives the trip through a byte. */
  lemma ByteOfInt(x: int)
    requires IsU8(x)
    ensures (x as byte) as int == x
  {
    // the conversion keeps x modulo 2^8
    assert x % 0x100 == x;
  }

  lemma U16RoundTrip(v: int)
    requires IsU16(v)
    ensures U16Value(U16Bytes(v)[0], U16Bytes(v)[1]) == v
  {
    ByteOfInt(v / 0x100);
    ByteOfInt(v % 0x100);
  }

  lemma U16Injective(hi: byte, lo: byte)
    ensures U16Bytes(U16Value(hi, lo)) == [hi, lo]
  {
    var v := U16Value(hi, lo);
    assert v / 0x100 == hi as int && v % 0x100 == lo as int;
  }

  /** struct.pack('>HH', a, b), or the struct.error it raises. */
  function PackU16Pair(a: int, b: int): (r: Result<seq<byte>>)
    ensures r.Ok? <==> IsU16(a) && IsU16(b)
    ensures r.Ok? ==> |r.value| == 4
  {
    if IsU16(a) && IsU16(b) then Ok(U16Bytes(a) + U16Bytes(b)) else Err(PackError)
  }
}
