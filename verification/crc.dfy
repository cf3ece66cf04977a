/** The Modbus CRC-16 (ModbusCRC16 in src/modbus_rtu.py): the table-driven
    checksum over a frame, and the frame check that recomputes it.  The
    algorithm is the one of Appendix B of the Modbus over Serial Line
    Specification and Implementation Guide V1.02. */
module Crc {
  import opened Base

  // ---------------------------------------------------------------------
  // The lookup tables.  Entry i of either table is a byte of the result of
  // dividing i, placed in the low byte of a 16-bit register, eight times by
  // the reflected polynomial 0xA001.  The model computes the entries that
  // way and proves that the literal tables of the source are exactly the
  // generated ones.
  // ---------------------------------------------------------------------

  /** A 16-bit CRC shift register, as its high and low bytes. */
  datatype Register = Register(high: byte, low: byte)

  /** One bit step of the reflected CRC-16 division: shift the register
      right by one, and XOR in the polynomial 0xA001 when the bit shifted
      out was set. */
  function ShiftOnce(r: Register): Register
  {
    var mask := 0 - (r.low & 1);
    Register((r.high >> 1) ^ (mask & 0xA0), ((r.low >> 1) | (r.high << 7)) ^ (mask & 0x01))
  }

  /** The table entry for an index byte: the register holding the index in
      its low byte, shifted eight times. */
  function TableEntry(index: byte): Register
  {
    var r := Register(0, index);
    ShiftOnce(ShiftOnce(ShiftOnce(ShiftOnce(ShiftOnce(ShiftOnce(ShiftOnce(ShiftOnce(r))))))))
  }

  /** CRC_HI_TABLE[index]: the low byte of the entry. */
  function HiEntry(index: byte): byte
  {
    TableEntry(index).low
  }

  /** CRC_LO_TABLE[index]: the high byte of the entry. */
  function LoEntry(index: byte): byte
  {
    TableEntry(index).high
  }

  /** The register as a 16-bit number. */
  function Value(r: Register): bv16
  {
    (r.high as bv16 << 8) | r.low as bv16
  }

  /** ShiftOnce is the textbook step of the reflected CRC-16 on the 16-bit
      register value. */
  lemma ShiftOnceValue(r: Register)
    ensures Value(r) & 1 == 1 ==> Value(ShiftOnce(r)) == (Value(r) >> 1) ^ 0xA001
    ensures Value(r) & 1 == 0 ==> Value(ShiftOnce(r)) == Value(r) >> 1
  {
  }

  // The literal tables of the source, sixteen entries to a row: row HiRowN
  // holds entries 16*N .. 16*N + 15 of CRC_HI_TABLE.
  const HiRow0: seq<byte> := [0x00, 0xC1, 0x81, 0x40, 0x01, 0xC0, 0x80, 0x41, 0x01, 0xC0, 0x80, 0x41, 0x00, 0xC1, 0x81, 0x40]
  const HiRow1: seq<byte> := [0x01, 0xC0, 0x80, 0x41, 0x00, 0xC1, 0x81, 0x40, 0x00, 0xC1, 0x81, 0x40, 0x01, 0xC0, 0x80, 0x41]
  const HiRow2: seq<byte> := [0x01, 0xC0, 0x80, 0x41, 0x00, 0xC1, 0x81, 0x40, 0x00, 0xC1, 0x81, 0x40, 0x01, 0xC0, 0x80, 0x41]
  const HiRow3: seq<byte> := [0x00, 0xC1, 0x81, 0x40, 0x01, 0xC0, 0x80, 0x41, 0x01, 0xC0, 0x80, 0x41, 0x00, 0xC1, 0x81, 0x40]
  const HiRow4: seq<byte> := [0x01, 0xC0, 0x80, 0x41, 0x00, 0xC1, 0x81, 0x40, 0x00, 0xC1, 0x81, 0x40, 0x01, 0xC0, 0x80, 0x41]
  const HiRow5: seq<byte> := [0x00, 0xC1, 0x81, 0x40, 0x01, 0xC0, 0x80, 0x41, 0x01, 0xC0, 0x80, 0x41, 0x00, 0xC1, 0x81, 0x40]
  const HiRow6: seq<byte> := [0x00, 0xC1, 0x81, 0x40, 0x01, 0xC0, 0x80, 0x41, 0x01, 0xC0, 0x80, 0x41, 0x00, 0xC1, 0x81, 0x40]
  const HiRow7: seq<byte> := [0x01, 0xC0, 0x80, 0x41, 0x00, 0xC1, 0x81, 0x40, 0x00, 0xC1, 0x81, 0x40, 0x01, 0xC0, 0x80, 0x41]
  const HiRow8: seq<byte> := [0x01, 0xC0, 0x80, 0x41, 0x00, 0xC1, 0x81, 0x40, 0x00, 0xC1, 0x81, 0x40, 0x01, 0xC0, 0x80, 0x41]
  const HiRow9: seq<byte> := [0x00, 0xC1, 0x81, 0x40, 0x01, 0xC0, 0x80, 0x41, 0x01, 0xC0, 0x80, 0x41, 0x00, 0xC1, 0x81, 0x40]
  const HiRowA: seq<byte> := [0x00, 0xC1, 0x81, 0x40, 0x01, 0xC0, 0x80, 0x41, 0x01, 0xC0, 0x80, 0x41, 0x00, 0xC1, 0x81, 0x40]
  const HiRowB: seq<byte> := [0x01, 0xC0, 0x80, 0x41, 0x00, 0xC1, 0x81, 0x40, 0x00, 0xC1, 0x81, 0x40, 0x01, 0xC0, 0x80, 0x41]
  const HiRowC: seq<byte> := [0x00, 0xC1, 0x81, 0x40, 0x01, 0xC0, 0x80, 0x41, 0x01, 0xC0, 0x80, 0x41, 0x00, 0xC1, 0x81, 0x40]
  const HiRowD: seq<byte> := [0x01, 0xC0, 0x80, 0x41, 0x00, 0xC1, 0x81, 0x40, 0x00, 0xC1, 0x81, 0x40, 0x01, 0xC0, 0x80, 0x41]
  const HiRowE: seq<byte> := [0x01, 0xC0, 0x80, 0x41, 0x00, 0xC1, 0x81, 0x40, 0x00, 0xC1, 0x81, 0x40, 0x01, 0xC0, 0x80, 0x41]
  const HiRowF: seq<byte> := [0x00, 0xC1, 0x81, 0x40, 0x01, 0xC0, 0x80, 0x41, 0x01, 0xC0, 0x80, 0x41, 0x00, 0xC1, 0x81, 0x40]

  const LoRow0: seq<byte> := [0x00, 0xC0, 0xC1, 0x01, 0xC3, 0x03, 0x02, 0xC2, 0xC6, 0x06, 0x07, 0xC7, 0x05, 0xC5, 0xC4, 0x04]
  const LoRow1: seq<byte> := [0xCC, 0x0C, 0x0D, 0xCD, 0x0F, 0xCF, 0xCE, 0x0E, 0x0A, 0xCA, 0xCB, 0x0B, 0xC9, 0x09, 0x08, 0xC8]
  const LoRow2: seq<byte> := [0xD8, 0x18, 0x19, 0xD9, 0x1B, 0xDB, 0xDA, 0x1A, 0x1E, 0xDE, 0xDF, 0x1F, 0xDD, 0x1D, 0x1C, 0xDC]
  const LoRow3: seq<byte> := [0x14, 0xD4, 0xD5, 0x15, 0xD7, 0x17, 0x16, 0xD6, 0xD2, 0x12, 0x13, 0xD3, 0x11, 0xD1, 0xD0, 0x10]
  const LoRow4: seq<byte> := [0xF0, 0x30, 0x31, 0xF1, 0x33, 0xF3, 0xF2, 0x32, 0x36, 0xF6, 0xF7, 0x37, 0xF5, 0x35, 0x34, 0xF4]
  const LoRow5: seq<byte> := [0x3C, 0xFC, 0xFD, 0x3D, 0xFF, 0x3F, 0x3E, 0xFE, 0xFA, 0x3A, 0x3B, 0xFB, 0x39, 0xF9, 0xF8, 0x38]
  const LoRow6: seq<byte> := [0x28, 0xE8, 0xE9, 0x29, 0xEB, 0x2B, 0x2A, 0xEA, 0xEE, 0x2E, 0x2F, 0xEF, 0x2D, 0xED, 0xEC, 0x2C]
  const LoRow7: seq<byte> := [0xE4, 0x24, 0x25, 0xE5, 0x27, 0xE7, 0xE6, 0x26, 0x22, 0xE2, 0xE3, 0x23, 0xE1, 0x21, 0x20, 0xE0]
  const LoRow8: seq<byte> := [0xA0, 0x60, 0x61, 0xA1, 0x63, 0xA3, 0xA2, 0x62, 0x66, 0xA6, 0xA7, 0x67, 0xA5, 0x65, 0x64, 0xA4]
  const LoRow9: seq<byte> := [0x6C, 0xAC, 0xAD, 0x6D, 0xAF, 0x6F, 0x6E, 0xAE, 0xAA, 0x6A, 0x6B, 0xAB, 0x69, 0xA9, 0xA8, 0x68]
  const LoRowA: seq<byte> := [0x78, 0xB8, 0xB9, 0x79, 0xBB, 0x7B, 0x7A, 0xBA, 0xBE, 0x7E, 0x7F, 0xBF, 0x7D, 0xBD, 0xBC, 0x7C]
  const LoRowB: seq<byte> := [0xB4, 0x74, 0x75, 0xB5, 0x77, 0xB7, 0xB6, 0x76, 0x72, 0xB2, 0xB3, 0x73, 0xB1, 0x71, 0x70, 0xB0]
  const LoRowC: seq<byte> := [0x50, 0x90, 0x91, 0x51, 0x93, 0x53, 0x52, 0x92, 0x96, 0x56, 0x57, 0x97, 0x55, 0x95, 0x94, 0x54]
  const LoRowD: seq<byte> := [0x9C, 0x5C, 0x5D, 0x9D, 0x5F, 0x9F, 0x9E, 0x5E, 0x5A, 0x9A, 0x9B, 0x5B, 0x99, 0x59, 0x58, 0x98]
  const LoRowE: seq<byte> := [0x88, 0x48, 0x49, 0x89, 0x4B, 0x8B, 0x8A, 0x4A, 0x4E, 0x8E, 0x8F, 0x4F, 0x8D, 0x4D, 0x4C, 0x8C]
  const LoRowF: seq<byte> := [0x44, 0x84, 0x85, 0x45, 0x87, 0x47, 0x46, 0x86, 0x82, 0x42, 0x43, 0x83, 0x41, 0x81, 0x80, 0x40]

  /** CRC_HI_TABLE as written in the source. */
  const CrcHiTable: seq<byte> :=
    HiRow0 + HiRow1 + HiRow2 + HiRow3 + HiRow4 + HiRow5 + HiRow6 + HiRow7 +
    HiRow8 + HiRow9 + HiRowA + HiRowB + HiRowC + HiRowD + HiRowE + HiRowF

  /** CRC_LO_TABLE as written in the source. */
  const CrcLoTable: seq<byte> :=
    LoRow0 + LoRow1 + LoRow2 + LoRow3 + LoRow4 + LoRow5 + LoRow6 + LoRow7 +
    LoRow8 + LoRow9 + LoRowA + LoRowB + LoRowC + LoRowD + LoRowE + LoRowF

  /** Sixteen consecutive entries of the generated CRC_HI_TABLE. */
  function HiReferenceRow(base: byte): (row: seq<byte>)
    ensures |row| == 16
  {
    [HiEntry(base), HiEntry(base + 1), HiEntry(base + 2), HiEntry(base + 3),
      HiEntry(base + 4), HiEntry(base + 5), HiEntry(base + 6), HiEntry(base + 7),
      HiEntry(base + 8), HiEntry(base + 9), HiEntry(base + 10), HiEntry(base + 11),
      HiEntry(base + 12), HiEntry(base + 13), HiEntry(base + 14), HiEntry(base + 15)]
  }

  /** Sixteen consecutive entries of the generated CRC_LO_TABLE. */
  function LoReferenceRow(base: byte): (row: seq<byte>)
    ensures |row| == 16
  {
    [LoEntry(base), LoEntry(base + 1), LoEntry(base + 2), LoEntry(base + 3),
      LoEntry(base + 4), LoEntry(base + 5), LoEntry(base + 6), LoEntry(base + 7),
      LoEntry(base + 8), LoEntry(base + 9), LoEntry(base + 10), LoEntry(base + 11),
      LoEntry(base + 12), LoEntry(base + 13), LoEntry(base + 14), LoEntry(base + 15)]
  }

  // Row by row, the literal tables agree with the generated entries.

  lemma HiRow0Generated() ensures HiRow0 == HiReferenceRow(0x00) {}
  lemma LoRow0Generated() ensures LoRow0 == LoReferenceRow(0x00) {}
  lemma HiRow1Generated() ensures HiRow1 == HiReferenceRow(0x10) {}
  lemma LoRow1Generated() ensures LoRow1 == LoReferenceRow(0x10) {}
  lemma HiRow2Generated() ensures HiRow2 == HiReferenceRow(0x20) {}
  lemma LoRow2Generated() ensures LoRow2 == LoReferenceRow(0x20) {}
  lemma HiRow3Generated() ensures HiRow3 == HiReferenceRow(0x30) {}
  lemma LoRow3Generated() ensures LoRow3 == LoReferenceRow(0x30) {}
  lemma HiRow4Generated() ensures HiRow4 == HiReferenceRow(0x40) {}
  lemma LoRow4Generated() ensures LoRow4 == LoReferenceRow(0x40) {}
  lemma HiRow5Generated() ensures HiRow5 == HiReferenceRow(0x50) {}
  lemma LoRow5Generated() ensures LoRow5 == LoReferenceRow(0x50) {}
  lemma HiRow6Generated() ensures HiRow6 == HiReferenceRow(0x60) {}
  lemma LoRow6Generated() ensures LoRow6 == LoReferenceRow(0x60) {}
  lemma HiRow7Generated() ensures HiRow7 == HiReferenceRow(0x70) {}
  lemma LoRow7Generated() ensures LoRow7 == LoReferenceRow(0x70) {}
  lemma HiRow8Generated() ensures HiRow8 == HiReferenceRow(0x80) {}
  lemma LoRow8Generated() ensures LoRow8 == LoReferenceRow(0x80) {}
  lemma HiRow9Generated() ensures HiRow9 == HiReferenceRow(0x90) {}
  lemma LoRow9Generated() ensures LoRow9 == LoReferenceRow(0x90) {}
  lemma HiRowAGenerated() ensures HiRowA == HiReferenceRow(0xA0) {}
  lemma LoRowAGenerated() ensures LoRowA == LoReferenceRow(0xA0) {}
  lemma HiRowBGenerated() ensures HiRowB == HiReferenceRow(0xB0) {}
  lemma LoRowBGenerated() ensures LoRowB == LoReferenceRow(0xB0) {}
  lemma HiRowCGenerated() ensures HiRowC == HiReferenceRow(0xC0) {}
  lemma LoRowCGenerated() ensures LoRowC == LoReferenceRow(0xC0) {}
  lemma HiRowDGenerated() ensures HiRowD == HiReferenceRow(0xD0) {}
  lemma LoRowDGenerated() ensures LoRowD == LoReferenceRow(0xD0) {}
  lemma HiRowEGenerated() ensures HiRowE == HiReferenceRow(0xE0) {}
  lemma LoRowEGenerated() ensures LoRowE == LoReferenceRow(0xE0) {}
  lemma HiRowFGenerated() ensures HiRowF == HiReferenceRow(0xF0) {}
  lemma LoRowFGenerated() ensures LoRowF == LoReferenceRow(0xF0) {}

  /** The generated CRC_HI_TABLE. */
  function HiReference(): seq<byte>
  {
    HiReferenceRow(0x00) + HiReferenceRow(0x10) + HiReferenceRow(0x20) + HiReferenceRow(0x30) +
    HiReferenceRow(0x40) + HiReferenceRow(0x50) + HiReferenceRow(0x60) + HiReferenceRow(0x70) +
    HiReferenceRow(0x80) + HiReferenceRow(0x90) + HiReferenceRow(0xA0) + HiReferenceRow(0xB0) +
    HiReferenceRow(0xC0) + HiReferenceRow(0xD0) + HiReferenceRow(0xE0) + HiReferenceRow(0xF0)
  }

  /** The generated CRC_LO_TABLE. */
  function LoReference(): seq<byte>
  {
    LoReferenceRow(0x00) + LoReferenceRow(0x10) + LoReferenceRow(0x20) + LoReferenceRow(0x30) +
    LoReferenceRow(0x40) + LoReferenceRow(0x50) + LoReferenceRow(0x60) + LoReferenceRow(0x70) +
    LoReferenceRow(0x80) + LoReferenceRow(0x90) + LoReferenceRow(0xA0) + LoReferenceRow(0xB0) +
    LoReferenceRow(0xC0) + LoReferenceRow(0xD0) + LoReferenceRow(0xE0) + LoReferenceRow(0xF0)
  }

  /** The literal CRC_HI_TABLE of the source is exactly the generated one. */
  lemma HiTableGenerated()
    ensures CrcHiTable == HiReference()
  {
    HiRow0Generated(); HiRow1Generated(); HiRow2Generated(); HiRow3Generated();
    HiRow4Generated(); HiRow5Generated(); HiRow6Generated(); HiRow7Generated();
    HiRow8Generated(); HiRow9Generated(); HiRowAGenerated(); HiRowBGenerated();
    HiRowCGenerated(); HiRowDGenerated(); HiRowEGenerated(); HiRowFGenerated();
  }

  /** The literal CRC_LO_TABLE of the source is exactly the generated one. */
  lemma LoTableGenerated()
    ensures CrcLoTable == LoReference()
  {
    LoRow0Generated(); LoRow1Generated(); LoRow2Generated(); LoRow3Generated();
    LoRow4Generated(); LoRow5Generated(); LoRow6Generated(); LoRow7Generated();
    LoRow8Generated(); LoRow9Generated(); LoRowAGenerated(); LoRowBGenerated();
    LoRowCGenerated(); LoRowDGenerated(); LoRowEGenerated(); LoRowFGenerated();
  }

  // ---------------------------------------------------------------------
  // The checksum.
  // ---------------------------------------------------------------------

  /** One iteration of the loop in `calculate`: index = crc_hi ^ byte,
      crc_hi = crc_lo ^ CRC_HI_TABLE[index], crc_lo = CRC_LO_TABLE[index]. */
  function Step(c: (byte, byte), b: byte): (byte, byte)
  {
    var index := c.0 ^ b;
    (c.1 ^ HiEntry(index), LoEntry(index))
  }

  /** The pair (crc_hi, crc_lo) reached from c by feeding every byte of
      data, in order, through Step. */
  function CrcFrom(c: (byte, byte), data: seq<byte>): (byte, byte)
    decreases |data|
  {
    if |data| == 0 then c else CrcFrom(Step(c, data[0]), data[1..])
  }

  /** The checksum of data: CrcFrom the seed (0xFF, 0xFF).  Its first
      component is the byte that goes on the wire first. */
  function Crc(data: seq<byte>): (byte, byte)
  {
    CrcFrom((0xFF, 0xFF), data)
  }

  /** The two checksum bytes in wire order. */
  function CrcBytes(data: seq<byte>): (c: seq<byte>)
    ensures |c| == 2
  {
    [Crc(data).0, Crc(data).1]
  }

  /** ModbusCRC16.calculate: the table-driven loop over the input, returning
      (crc_hi, crc_lo). */
  method Calculate(data: seq<byte>) returns (crcHi: byte, crcLo: byte)
    ensures (crcHi, crcLo) == Crc(data)
  {
    crcHi, crcLo := 0xFF, 0xFF;
    for i := 0 to |data|
      invariant CrcFrom((crcHi, crcLo), data[i..]) == Crc(data)
    {
      assert data[i..][1..] == data[i + 1..];
      var index := crcHi ^ data[i];
      crcHi, crcLo := crcLo ^ HiEntry(index), LoEntry(index);
    }
  }

  /** ModbusCRC16.verify: fails on fewer than two bytes; otherwise recomputes
      the checksum of all but the last two bytes and compares it with them,
      first with first and second with second. */
  function Verify(data: seq<byte>): (ok: bool)
    ensures ok ==> |data| >= 2
    ensures |data| >= 2 ==> (ok <==> data[|data| - 2..] == CrcBytes(data[..|data| - 2]))
  {
    if |data| < 2 then false
    else
      var message := data[..|data| - 2];
      data[|data| - 2] == Crc(message).0 && data[|data| - 1] == Crc(message).1
  }

  /** A message followed by its own checksum always passes the check. */
  lemma VerifyAppended(message: seq<byte>)
    ensures Verify(message + CrcBytes(message))
  {
    var frame := message + CrcBytes(message);
    assert frame[..|frame| - 2] == message;
  }

  /** The check accepts exactly the sequences of at least two bytes that end
      in the checksum of the rest. */
  lemma VerifyExactly(data: seq<byte>)
    ensures Verify(data) <==> |data| >= 2 && data == data[..|data| - 2] + CrcBytes(data[..|data| - 2])
  {
    if |data| >= 2 {
      var message := data[..|data| - 2];
      if Verify(data) {
        assert data == message + [data[|data| - 2], data[|data| - 1]];
      }
      if data == message + CrcBytes(message) {
        VerifyAppended(message);
      }
    }
  }

  /** Unit test fixture: the checksum of nothing is the seed. */
  lemma CrcOfEmpty()
    ensures CrcBytes([]) == [0xFF, 0xFF]
  {
  }

  /** Unit test fixture: the checksum of 01 01 00 13 00 25 is 0C 14. */
  lemma CrcFixture()
    ensures CrcBytes([0x01, 0x01, 0x00, 0x13, 0x00, 0x25]) == [0x0C, 0x14]
  {
    assert CrcFrom((0x15, 0x0C), [0x25]) == (0x0C, 0x14);
    assert CrcFrom((0x11, 0xD5), [0x00, 0x25]) == (0x0C, 0x14);
    assert CrcFrom((0x21, 0x90), [0x13, 0x00, 0x25]) == (0x0C, 0x14);
    assert CrcFrom((0xC1, 0xE0), [0x00, 0x13, 0x00, 0x25]) == (0x0C, 0x14);
    assert CrcFrom((0x7E, 0x80), [0x01, 0x00, 0x13, 0x00, 0x25]) == (0x0C, 0x14);
  }

  /** Unit test fixture: the frame 01 01 00 13 00 25 0C 14 passes the check,
      and with 00 00 in place of its checksum it does not. */
  lemma VerifyFixture()
    ensures Verify([0x01, 0x01, 0x00, 0x13, 0x00, 0x25, 0x0C, 0x14])
    ensures !Verify([0x01, 0x01, 0x00, 0x13, 0x00, 0x25, 0x00, 0x00])
  {
    CrcFixture();
    var m: seq<byte> := [0x01, 0x01, 0x00, 0x13, 0x00, 0x25];
    assert [0x01, 0x01, 0x00, 0x13, 0x00, 0x25, 0x0C, 0x14][..6] == m;
    assert [0x01, 0x01, 0x00, 0x13, 0x00, 0x25, 0x00, 0x00][..6] == m;
  }
}
