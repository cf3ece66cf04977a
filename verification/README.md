# USB relay over Modbus RTU: a verified model

This project models the protocol engine and the sequential control logic of
`usb_relay_rtu`, a tool that drives a USB relay board through Modbus RTU.
It covers four parts of the system.

- **CRC and frames** (`src/modbus_rtu.py`): the table-driven CRC-16 of `ModbusCRC16`;
  frame building and parsing; the checks `execute_request` applies to a reply;
  the payload codecs of the eight function codes the client speaks; and the
  open/closed state of the serial port.
  - The serial line is abstract. The frames written are logged, and the bytes
    that arrive for each request are given in advance. An empty arrival is the
    receive timeout.
- **Helpers** (`src/utils.py`): hex rendering and parsing, the relay-list
  syntax (`"1,3-5,7"`), the range validators and the expected reply length
  per function code.
- **Relay controller** (`src/device_controller.py`): `USBRelayController`, with its
  1-based relay and input numbering over coils and discrete inputs, the
  connected-flag guard, toggle, all-on and all-off, and the `RelaySequence`
  pulse.
- **Daemon logic** (`src/daemon.py`): the socket path shared by daemon and client;
  the status cache; the request dispatch with its bounded retry; and the
  "smart" entry points, which use the daemon when it answers and drive the
  device directly otherwise.

Modules, one per file:

- `Base`: bytes, 16-bit packing, the error taxonomy and `Result`.
- `Crc`: the checksum.
- `Frame`: frames and reply checks.
- `Codec`: PDU payloads.
- `Client`: `ModbusRTUClient`.
- `Utils`: the helpers.
- `Controller`: `USBRelayController` and `RelaySequence`.
- `Daemon`: the daemon's sequential logic.

Code that changes state is written as classes whose methods update fields:
`ModbusRTUClient`, `USBRelayController`, `RelaySequence` and `USBRelayDaemon`.
Each such method is proved equal to a pure step function over the old state,
for example `Exchange`, `SetRelayStateOp` or `Retry`. The lemmas state their
properties about those functions. The loops of the source keep their form,
each proved against a specification function:

- the CRC loop;
- the bit and register decoding loops;
- the coil packing loop;
- the register encoding loop;
- the relay-list parser;
- the retry loop.

Exceptions are modelled as `Result` values. Which of them count as a
`ModbusRTUException` is tracked, because `test_connection` and the daemon
catch different things. `struct.error`, `IndexError`, `ValueError` and the
`AttributeError` of a missing controller are kept apart from the Modbus
exceptions.

Where the code and its descriptions differ, the model follows the code:

- `ModbusCRC16.calculate` returns its running `crc_hi` variable first. That is
  the byte the frame carries first, although the callers name it `crc_lo`.
- The reply's function code is never compared with the request's.
- Through the daemon, a pulse reports success even when the slave refuses the
  switch-on (`PulsePathsDisagree`).
- Replacing `/` by `_` makes the ports `/dev/tty_1` and `/dev/tty/1` share one
  socket (`SocketPathCollision`).

## Model

| member | source | states |
|---|---|---|
| Base.U16Bytes | src/modbus_rtu.py:319 | struct.pack('>H') of a 16-bit value is two bytes |
| Base.U16Value | src/modbus_rtu.py:386 | struct.unpack('>H') of two bytes is a 16-bit value |
| Base.U16RoundTrip | src/modbus_rtu.py:386 | unpacking the two packed bytes of a 16-bit value gives the value back |
| Base.U16Injective | src/modbus_rtu.py:386 | packing the value of two bytes gives the same two bytes back |
| Base.PackU16Pair | src/modbus_rtu.py:319 | struct.pack('>HH', a, b) succeeds exactly when both fit 16 bits, giving four bytes |
| Crc.ShiftOnceValue | src/modbus_rtu.py:20-77 | the step that generates the tables is the reflected CRC-16 shift with polynomial 0xA001 |
| Crc.HiTableGenerated | src/modbus_rtu.py:50-77 | the literal CRC_HI_TABLE equals the table generated from the polynomial |
| Crc.LoTableGenerated | src/modbus_rtu.py:20-47 | the literal CRC_LO_TABLE equals the table generated from the polynomial |
| Crc.CrcBytes | src/modbus_rtu.py:80-98 | the checksum is two bytes |
| Crc.Calculate | src/modbus_rtu.py:80-98 | the table loop from seed (0xFF, 0xFF) returns the checksum of the data, in wire order |
| Crc.Verify | src/modbus_rtu.py:101-123 | inputs under two bytes fail; otherwise verify holds exactly when the last two bytes are the checksum of the rest, in wire order |
| Crc.VerifyAppended | src/modbus_rtu.py:101-123 | a message followed by its own checksum passes verify |
| Crc.VerifyExactly | src/modbus_rtu.py:101-123 | verify holds exactly on inputs of at least two bytes whose last two are the checksum of the rest |
| Crc.CrcOfEmpty | tests/test_modbus_rtu.py:36-41 | the checksum of no bytes is the seed FF FF |
| Crc.CrcFixture | tests/test_modbus_rtu.py:12-23 | the checksum of 01 01 00 13 00 25 is 0C 14 |
| Crc.VerifyFixture | tests/test_modbus_rtu.py:25-34 | the frame 01 01 00 13 00 25 0C 14 passes verify, and with 00 00 as checksum it fails |
| Frame.BuildFrame | src/modbus_rtu.py:249-254 | a frame is built exactly when slave and function code fit a byte (else struct.error); it is 4 bytes longer than the data and passes verify |
| Frame.ParseResponse | src/modbus_rtu.py:256-270 | fewer than 4 bytes raise the length error first; otherwise the parse succeeds exactly when verify holds, else the CRC error; data is the frame minus 4 bytes |
| Frame.ParseBuilt | src/modbus_rtu.py:249-270 | parsing a built frame gives back its slave, function code and data |
| Frame.AcceptedIsBuilt | src/modbus_rtu.py:256-270 | every frame the parser accepts is the frame built from its parsed fields |
| Frame.BuildFixture | tests/test_modbus_rtu.py:64-79 | building read-coils 0x13/0x25 for slave 1 gives 01 01 00 13 00 25 0C 14 |
| Frame.CheckResponse | src/modbus_rtu.py:296-305 | a parsed reply is returned unchanged exactly when its slave matches and bit 0x80 is clear; every rejection is a ModbusRTUException |
| Frame.Transact | src/modbus_rtu.py:272-305 | execute_request only returns replies of the addressed slave that are not exception replies |
| Frame.TransactNormalReply | src/modbus_rtu.py:272-305 | a well-formed normal reply of the addressed slave is returned as parsed |
| Frame.TransactExceptionReply | src/modbus_rtu.py:300-303 | any reply with the high bit set raises with the requested function code and the first payload byte as exception code, 0 when the payload is empty |
| Frame.TransactWrongSlave | src/modbus_rtu.py:296-298 | a reply from another slave raises the mismatch error naming both addresses |
| Codec.UnpackBits | src/modbus_rtu.py:325-334 | the bit reads return exactly `count` booleans |
| Codec.DecodeBits | src/modbus_rtu.py:325-334 | the read loop takes bit i % 8 of byte i / 8, False beyond the bytes received |
| Codec.PackBits | src/modbus_rtu.py:468-477 | n coil values pack into (n + 7) / 8 bytes |
| Codec.UnpackPacked | src/modbus_rtu.py:325-334 | unpacking n packed values with count n gives the values back |
| Codec.UnpackPackedBeyond | src/modbus_rtu.py:325-334 | reading more coils than were packed gives the values, then False |
| Codec.PackCoils | src/modbus_rtu.py:468-477 | the OR-in loop over a zeroed buffer produces the packed table |
| Codec.UnpackRegisters | src/modbus_rtu.py:383-389 | the register reads return one 16-bit value per whole byte pair, dropping an odd trailing byte |
| Codec.DecodeRegisters | src/modbus_rtu.py:383-389 | the register loop computes those values |
| Codec.RegisterBytes | src/modbus_rtu.py:502-504 | n register values pack into 2n bytes |
| Codec.UnpackRegisterBytes | src/modbus_rtu.py:383-389 | decoding the bytes of packed registers gives the registers back |
| Codec.EncodeRegisters | src/modbus_rtu.py:502-504 | the packing loop succeeds exactly when every value fits 16 bits, else struct.error |
| Codec.ReadRequest | src/modbus_rtu.py:319 | the read request packs exactly when start and count fit 16 bits |
| Codec.CoilValue | src/modbus_rtu.py:429 | the coil value fits 16 bits and goes on the wire as FF 00 for on and 00 00 for off |
| Codec.SingleCoilRequest | src/modbus_rtu.py:429-430 | write_single_coil sends the address and FF 00 for on, 00 00 for off |
| Codec.SingleRegisterRequest | src/modbus_rtu.py:449 | write_single_register packs exactly when address and value fit 16 bits |
| Codec.MultipleCoilsRequest | src/modbus_rtu.py:468-479 | the request packs exactly when the start fits 16 bits and the byte count fits a byte; it is 5 + (n + 7) / 8 bytes |
| Codec.MultipleRegistersRequest | src/modbus_rtu.py:498-506 | the request packs exactly when the start and every value fit 16 bits and 2n fits a byte; it is 5 + 2n bytes |
| Codec.CountedData | src/modbus_rtu.py:322-323 | the byte-count slice is clamped to the data received |
| Codec.ReadBitsPayload | src/modbus_rtu.py:322-334 | an empty payload raises IndexError; otherwise `count` booleans come back |
| Codec.ReadRegistersPayload | src/modbus_rtu.py:380-389 | an empty payload raises IndexError; otherwise half the counted bytes come back as registers |
| Codec.EchoMatches | src/modbus_rtu.py:434-435 | the echo unpacks only when it is exactly four bytes, else struct.error |
| Codec.EchoExactly | src/modbus_rtu.py:434-435 | the echo check succeeds exactly when the reply equals the packed (address, value) |
| Codec.MultipleCoilsEcho | src/modbus_rtu.py:479-484 | echoing the first four request bytes passes the multiple-coil check |
| Codec.MultipleRegistersEcho | src/modbus_rtu.py:506-511 | echoing the first four request bytes passes the multiple-register check |
| Codec.ReadBitsOfPacked | src/modbus_rtu.py:322-334 | a byte count followed by the packed states decodes to those states |
| Codec.ReadRegistersOfPacked | src/modbus_rtu.py:380-389 | a byte count followed by the packed registers decodes to those registers |
| Client.ConnectStep | src/modbus_rtu.py:182-197 | connect succeeds exactly when the port opens, and then the client is connected; the line log is untouched |
| Client.DisconnectStep | src/modbus_rtu.py:199-203 | after disconnect the client is not connected; a closed client is unchanged |
| Client.Exchange | src/modbus_rtu.py:272-305 | the request cycle keeps the port and returns what execute_request returns for the next arrival; exactly when the frame builds and the port is open, that frame is written and one arrival consumed, and otherwise the line is untouched |
| Client.ReadBits | src/modbus_rtu.py:307-363 | a successful coil or input read has `count` entries |
| Client.ReadRegisters | src/modbus_rtu.py:365-415 | a successful register read holds 16-bit values |
| Client.Write | src/modbus_rtu.py:417-511 | a request that does not pack raises before anything is sent |
| Client.Connected | src/modbus_rtu.py:205-207 | a connected line has a port, and that port is open |
| Client.ModbusRTUClient.IsConnected | src/modbus_rtu.py:205-207 | is_connected holds exactly when the client's line is connected |
| Client.ClosedSendsNothing | src/modbus_rtu.py:209-220 | on a closed port the exchange fails and nothing is written or consumed |
| Client.ExchangeSendsAtMostOne | src/modbus_rtu.py:284-291 | one exchange writes at most one frame |
| Client.ReadBitsFromDevice | src/modbus_rtu.py:307-363 | a slave answering with its states makes the read return exactly those states after writing the built request frame |
| Client.ReadRegistersFromDevice | src/modbus_rtu.py:365-415 | a slave answering with its registers makes the read return exactly those registers, after writing the request frame of start address and count |
| Client.ExchangeNormalReply | src/modbus_rtu.py:272-305 | a normal reply of the addressed slave is what the exchange returns |
| Client.WriteAcknowledged | src/modbus_rtu.py:417-454 | a write reports True exactly when the echo equals the packed (address, value) |
| Client.ModbusRTUClient.constructor | src/modbus_rtu.py:168-180 | a new client has no port and has written nothing |
| Client.ModbusRTUClient.Connect | src/modbus_rtu.py:182-197 | updates the port as ConnectStep says |
| Client.ModbusRTUClient.Disconnect | src/modbus_rtu.py:199-203 | updates the port as DisconnectStep says |
| Client.ModbusRTUClient.SendReceive | src/modbus_rtu.py:209-247 | on a closed port it raises and changes nothing; otherwise it logs the frame and consumes one arrival |
| Client.ModbusRTUClient.ExecuteRequest | src/modbus_rtu.py:272-305 | state and result follow Exchange |
| Client.ModbusRTUClient.ReadBitTable | src/modbus_rtu.py:307-363 | state and result follow ReadBits |
| Client.ModbusRTUClient.ReadCoils | src/modbus_rtu.py:307-334 | ReadBits with function code 0x01 |
| Client.ModbusRTUClient.ReadDiscreteInputs | src/modbus_rtu.py:336-363 | ReadBits with function code 0x02 |
| Client.ModbusRTUClient.ReadRegisterBlock | src/modbus_rtu.py:365-415 | state and result follow ReadRegisters |
| Client.ModbusRTUClient.ReadHoldingRegisters | src/modbus_rtu.py:365-389 | ReadRegisters with function code 0x03 |
| Client.ModbusRTUClient.ReadInputRegisters | src/modbus_rtu.py:391-415 | ReadRegisters with function code 0x04 |
| Client.ModbusRTUClient.WriteChecked | src/modbus_rtu.py:417-511 | state and result follow Write |
| Client.ModbusRTUClient.WriteSingleCoil | src/modbus_rtu.py:417-435 | Write of the single-coil request, echo checked against (address, 0xFF00 or 0) |
| Client.ModbusRTUClient.WriteSingleRegister | src/modbus_rtu.py:437-454 | Write of the single-register request, echo checked against (address, value) |
| Client.ModbusRTUClient.WriteMultipleCoils | src/modbus_rtu.py:456-484 | Write of the packed coils, echo checked against (start, count) |
| Client.ModbusRTUClient.WriteMultipleRegisters | src/modbus_rtu.py:486-511 | Write of the packed registers, echo checked against (start, count) |
| Utils.HexDigit | src/utils.py:78 | a nibble renders as an upper-case hex digit |
| Utils.HexValue | src/utils.py:92-98 | a hex digit of either case has a value below 16 |
| Utils.BytesToHexString | src/utils.py:67-78 | n bytes render as 2n digits plus n - 1 separators; no bytes render as "" |
| Utils.Clean | src/utils.py:92 | cleaning keeps only hex digits and never lengthens |
| Utils.CleanOne | src/utils.py:92 | a single character is kept exactly when it is a hex digit |
| Utils.CleanDigits | src/utils.py:92 | a string of hex digits is left unchanged |
| Utils.DecodePairs | src/utils.py:98 | an even run of hex digits decodes to half as many bytes |
| Utils.HexStringToBytes | src/utils.py:81-98 | any string decodes, to (digits + 1) / 2 bytes, an odd count padded with a leading '0' |
| Utils.ZeroPair | src/utils.py:94-98 | the pair of '0' and a digit is the byte of that digit's value |
| Utils.DecodePadded | src/utils.py:94-98 | a '0' put before a lone digit and an even run decodes to that digit's byte followed by the run's bytes |
| Utils.HexOddPadded | src/utils.py:91-98 | a lone leading digit before the digits of some bytes decodes to the byte of that digit followed by those bytes |
| Utils.CleanRendered | src/utils.py:78-92 | cleaning a rendering with a digit-free separator leaves the digits of every byte |
| Utils.PairDecodes | src/utils.py:78-98 | the two digits of a byte decode to that byte |
| Utils.DecodeAllPairs | src/utils.py:78-98 | the digits of all bytes decode to the bytes |
| Utils.HexRoundTrip | src/utils.py:67-98 | hex_string_to_bytes undoes bytes_to_hex_string for any separator without hex digits |
| Utils.HexFixture | tests/test_core.py:91-94 | 01 02 03 FF renders as "01 02 03 FF" |
| Utils.Strip | src/utils.py:117 | a stripped part neither starts nor ends with whitespace |
| Utils.StripLeftSuffix | src/utils.py:117 | stripping the front leaves a suffix, and only whitespace was removed |
| Utils.StripRightPrefix | src/utils.py:117 | stripping the back leaves a prefix, and only whitespace was removed |
| Utils.StripTrims | src/utils.py:117 | strip returns a slice of its input with only whitespace before and after it |
| Utils.Split | src/utils.py:114 | splitting gives at least one piece, none holding the separator |
| Utils.JoinSplit | src/utils.py:114 | joining the pieces gives the string back |
| Utils.IndexOf | src/utils.py:121 | the range part splits at its first dash |
| Utils.ParseInt | src/utils.py:122-127 | int() succeeds exactly on an optional sign followed by at least one digit, and raises ValueError otherwise |
| Utils.Decimal | src/utils.py:122-127 | the decimal numeral of a number is a non-empty digit string |
| Utils.DecimalValue | src/utils.py:122-127 | the digits of a numeral have the number's value |
| Utils.ParseDecimal | src/utils.py:122-127 | int() reads every numeral back, either sign |
| Utils.Range | src/utils.py:124 | range(a, b + 1) holds exactly the integers from a to b |
| Utils.RangeBounds | src/utils.py:121-123 | reading the two ends of a range fails only with ValueError |
| Utils.RangeSet | src/utils.py:119-124 | a range part fails only with ValueError |
| Utils.PartSet | src/utils.py:117-127 | a part fails only with ValueError |
| Utils.PartsSet | src/utils.py:116-127 | the parts fail only with ValueError |
| Utils.PartsSetErr | src/utils.py:116-127 | a malformed part makes the whole list fail |
| Utils.InsertSorted | src/utils.py:130 | inserting into a strictly increasing list keeps it strictly increasing and adds exactly x |
| Utils.SortedSet | src/utils.py:130 | sorted(list(set(xs))) is strictly increasing with the elements of xs |
| Utils.IncreasingUnique | src/utils.py:130 | a set has exactly one strictly increasing listing |
| Utils.ExtendRange | src/utils.py:124 | extend adds exactly the numbers of the range |
| Utils.ParseRange | src/utils.py:119-124 | the range branch succeeds exactly when the range is well formed, adding its numbers |
| Utils.ParsePart | src/utils.py:117-127 | one part succeeds exactly when it is well formed, adding its numbers |
| Utils.ParseRelayList | src/utils.py:101-130 | the result is strictly increasing and holds exactly the listed numbers; it fails exactly when a part is malformed, with ValueError |
| Utils.ListedDigits | src/utils.py:111-130 | "a,b-c,d" of single digits names a, every number from b to c, and d |
| Utils.ListedFixture | tests/test_core.py:101-102 | "1,3-5,7" names 1, 3, 4, 5 and 7 |
| Utils.RelayListFixture | tests/test_core.py:101-103 | parse_relay_list("1,3-5,7") is [1, 3, 4, 5, 7] |
| Utils.ValidRelayId | src/utils.py:133-144 | a valid relay id n has its offset n - 1 among the max_relays relays |
| Utils.ValidInputId | src/utils.py:147-158 | a valid input id n has its offset n - 1 among the max_inputs inputs |
| Utils.ValidModbusAddress | src/utils.py:424-434 | an address is valid exactly when it fits 16 bits |
| Utils.ValidSlaveId | src/utils.py:437-447 | a valid slave id fits a byte and is not the broadcast address 0 |
| Utils.ValidAddressPacks | src/utils.py:424-434 | a valid Modbus address is exactly one a read request can carry |
| Utils.RelayIdPacks | src/utils.py:133-144 | relay n, at coil n - 1, can be written exactly when n is a valid relay id among 65536 |
| Utils.InputIdPacks | src/utils.py:147-158 | input n, at discrete input n - 1, can be read exactly when n is a valid input id among 65536 |
| Utils.ValidSlaveFrames | src/utils.py:437-447 | a valid slave id always frames; the framer also accepts exactly 0 and 248 to 255 besides |
| Utils.ExpectedResponseLength | src/utils.py:450-478 | an unknown function code predicts 4 bytes, and no prediction for a non-negative count is below 4 |
| Utils.BitsReplyLength | src/utils.py:464-466 | the framed reply to a read of n bits is as long as predicted for n |
| Utils.RegistersReplyLength | src/utils.py:467-469 | the framed reply to a read of n registers is as long as predicted for n |
| Utils.WriteReplyLength | src/utils.py:470-475 | the framed echo of any of the four writes is as long as predicted |
| Utils.ExceptionReplyLength | src/utils.py:476-478 | an exception reply is one byte longer than the 4 predicted for its code |
| Controller.AllOf | src/device_controller.py:251 | [state] * n has max(n, 0) entries, all equal to state |
| Controller.ConnectOp | src/device_controller.py:83-90 | a failed connect leaves the flag down and the client as it was; a successful one leaves the controller connected |
| Controller.DisconnectOp | src/device_controller.py:92-95 | disconnect clears the flag and leaves the controller not connected |
| Controller.PulseSequenceOp | src/device_controller.py:463-484 | a pulse reports True only if the switch-on was acknowledged |
| Controller.TestConnectionOp | src/device_controller.py:101-108 | True exactly when reading relay 1 works; False exactly when it raises a ModbusRTUException |
| Controller.GuardLeavesClientAlone | src/device_controller.py:120-121 | without a connection every get and set raises "not connected" and changes nothing; test_connection is False |
| Controller.RelayStatesIndexed | src/device_controller.py:146-156 | entry i of get_relay_states is relay start + i at coil base + start - 1 + i |
| Controller.InputStatesIndexed | src/device_controller.py:303-313 | entry i of get_input_states is input start + i at discrete input base + start - 1 + i |
| Controller.RelayStatesFromDevice | src/device_controller.py:132-156 | with the slave reporting its coils, get_relay_states returns those states entry by entry |
| Controller.PulseWritesOnThenOff | src/device_controller.py:463-484 | an acknowledged switch-on writes the on frame, then the off frame to the same coil, and the pulse answers what the switch-off answers |
| Controller.ToggleWritesNegation | src/device_controller.py:228-239 | toggle reads the relay, then writes the negation to the same coil: exactly two frames |
| Controller.AllRelaysOneWrite | src/device_controller.py:241-265 | all-on and all-off send one multiple-coil write of n equal values from relay 1's coil |
| Controller.Ready | src/device_controller.py:97-99 | a ready controller has its flag up over a connected client |
| Controller.USBRelayController.IsConnected | src/device_controller.py:97-99 | is_connected holds exactly when the controller's state is ready |
| Controller.ConnectFlag | src/device_controller.py:83-95 | the flag is up after connect exactly when the port opened; disconnect always clears it |
| Controller.USBRelayController.constructor | src/device_controller.py:62-81 | a new controller is disconnected, with both address bases 0 and an unconnected client |
| Controller.USBRelayController.Connect | src/device_controller.py:83-90 | state and result follow ConnectOp |
| Controller.USBRelayController.Disconnect | src/device_controller.py:92-95 | state follows DisconnectOp |
| Controller.USBRelayController.TestConnection | src/device_controller.py:101-108 | state and result follow TestConnectionOp |
| Controller.USBRelayController.GetRelayState | src/device_controller.py:110-130 | a guarded one-coil read at relay_start_address + n - 1 |
| Controller.USBRelayController.GetRelayStates | src/device_controller.py:132-156 | a guarded read of `count` coils, listed as relay states |
| Controller.USBRelayController.GetAllRelayStates | src/device_controller.py:158-168 | get_relay_states from relay 1 |
| Controller.USBRelayController.SetRelayState | src/device_controller.py:170-185 | a guarded single-coil write to the relay's coil |
| Controller.USBRelayController.SetRelayStates | src/device_controller.py:187-202 | a guarded multiple-coil write from the first relay's coil |
| Controller.USBRelayController.TurnOnRelay | src/device_controller.py:204-214 | set_relay_state(n, True) |
| Controller.USBRelayController.TurnOffRelay | src/device_controller.py:216-226 | set_relay_state(n, False) |
| Controller.USBRelayController.ToggleRelay | src/device_controller.py:228-239 | state and result follow the read-then-write-negation step |
| Controller.USBRelayController.TurnOnAllRelays | src/device_controller.py:241-252 | set_relay_states(1, [True] * n) |
| Controller.USBRelayController.TurnOffAllRelays | src/device_controller.py:254-265 | set_relay_states(1, [False] * n) |
| Controller.USBRelayController.GetInputState | src/device_controller.py:267-287 | a guarded one-input read at input_start_address + n - 1 |
| Controller.USBRelayController.GetInputStates | src/device_controller.py:289-313 | a guarded read of `count` discrete inputs, listed as input states |
| Controller.USBRelayController.GetAllInputStates | src/device_controller.py:315-325 | get_input_states from input 1 |
| Controller.RelaySequence.constructor | src/device_controller.py:454-461 | the sequence drives the given controller |
| Controller.RelaySequence.PulseRelay | src/device_controller.py:463-484 | state and result follow the on-then-off pulse that stops after a refused switch-on |
| Daemon.ReplaceSlash | src/daemon.py:41 | every '/' of the port becomes '_', and nothing else changes |
| Daemon.SocketPath | src/daemon.py:41 | the socket path is the temporary directory, a '/', then a name as long as the port plus the fixed prefix and suffix |
| Daemon.SocketNameFlat | src/daemon.py:41 | the socket file name holds no '/', so the socket lies directly in the temporary directory |
| Daemon.SocketPathInjective | src/daemon.py:41 | ports without '_' get different sockets |
| Daemon.SocketPathCollision | src/daemon.py:41 | "/dev/tty_1" and "/dev/tty/1" get the same socket |
| Daemon.DaemonClient.constructor | src/daemon.py:239-241 | the client derives the same path as the daemon |
| Daemon.InitialCache | src/daemon.py:48-50 | the cache starts with `count` False relays, `count` False inputs and time 0 |
| Daemon.SetRelay | src/daemon.py:203-212 | set_relay toggles when no state is given and sets it otherwise; success is the controller's boolean and errors pass through |
| Daemon.Pulse | src/daemon.py:214-222 | pulse_relay succeeds exactly when both writes do not raise, and then always reports success; a raising switch-on stops it with that error, otherwise it leaves the device the switch-off leaves and passes on the switch-off's error |
| Daemon.DaemonPulseWritesOnThenOff | src/daemon.py:214-222 | whatever the slave answers to the switch-on, pulse_relay writes the on frame and then the off frame to the relay's coil and leaves the device the switch-off leaves |
| Daemon.RetryIsThreeAttempts | src/daemon.py:189-233 | the retry loop is at most three attempts, each on the state the previous one left; the first that does not raise answers, else the last error is reported |
| Daemon.ReadOnlyCommands | src/daemon.py:193-201 | get_status answers the cached lists and time, an unknown command the error reply, neither touching the device |
| Daemon.NoControllerFails | src/daemon.py:203-233 | without a controller every device command fails with the attribute error |
| Daemon.SetRelaySendsAtMostOne | src/device_controller.py:170-185 | set_relay_state writes at most one frame |
| Daemon.GetRelaySendsAtMostOne | src/device_controller.py:110-130 | get_relay_state writes at most one frame |
| Daemon.AttemptSendsAtMostTwo | src/daemon.py:192-225 | one attempt writes at most two frames and keeps the controller |
| Daemon.RetrySendsAtMostSix | src/daemon.py:189-233 | one request writes at most six frames, however its attempts fail |
| Daemon.USBRelayDaemon.constructor | src/daemon.py:33-51 | no controller yet, the shared socket path and the initial cache |
| Daemon.USBRelayDaemon.Start | src/daemon.py:53-58 | a fresh controller is connected; when that fails, stop disconnects it again |
| Daemon.USBRelayDaemon.AttemptOnce | src/daemon.py:192-225 | state and result follow one attempt |
| Daemon.USBRelayDaemon.ProcessRequestWithRetry | src/daemon.py:186-233 | the retry loop leaves the device and answers as Retry says |
| Daemon.ActionRequest | src/daemon.py:301-310 | exactly on, off, toggle and pulse become a request for that relay: set_relay with True, with False, with no state, and pulse_relay |
| Daemon.DaemonRunsDirectAction | src/daemon.py:192-212 | for on, off and toggle the daemon's attempt changes the device as the direct call does, answers success exactly when the direct call returns True, and raises what it raises |
| Daemon.DaemonAgreesWithDirect | src/daemon.py:186-212 | when the direct on, off or toggle does not raise, the daemon path ends with the same device and the smart call answers the same boolean |
| Daemon.DirectRun | src/daemon.py:316-331 | the direct run always ends disconnected; a port that does not open fails without sending |
| Daemon.ExecuteRelayCommandSmart | src/daemon.py:290-331 | the daemon's success when it answers; otherwise the direct run, an exception reading as False |
| Daemon.UnknownActionFails | src/daemon.py:309-310 | an unknown action is False on both paths |
| Daemon.PulsePathsDisagree | src/daemon.py:214-222 | through the daemon a refused switch-on still reports success; the direct pulse stops and reports False |
| Daemon.DirectOnAcknowledged | src/daemon.py:316-319 | with no daemon and an echoing slave, "on" writes only the 0xFF00 write to the relay's coil and reports True |
| Daemon.RelayFlags | src/daemon.py:353 | [s.state for s in relay_states] keeps length and states |
| Daemon.InputFlags | src/daemon.py:356 | [s.state for s in input_states] keeps length and states |
| Daemon.DirectStatus | src/daemon.py:350-363 | the direct status read always ends disconnected |
| Daemon.GetStatusSmart | src/daemon.py:334-365 | the daemon's reply when it answers; otherwise the direct status, an exception becoming a failure reply |
| Daemon.RelaysFromDevice | src/daemon.py:352-353 | a slave reporting its coils answers the read of all relays with them |
| Daemon.InputsFromDevice | src/daemon.py:355-356 | a slave reporting its inputs answers the read of all inputs with them |
| Daemon.StatusFromDevice | src/daemon.py:349-363 | with no daemon, the status reply carries exactly the states the slave reports |

## Left out

- Serial timing: the baud rate, byte size, parity, stop bits, the buffer
  flushes, and the receive loop's 10 ms idle gap and timeout are wall-clock
  behaviour. The bytes that arrive for each request are an input of the
  model. An empty arrival stands for the timeout.
- pyserial's `SerialException` is the `opens` parameter of connect.
- The "smart" entry points take whether the daemon's socket file exists and
  the daemon's reply as a parameter (`DaemonLink`).
  - `DaemonClient.is_daemon_running` and `send_command` (Unix sockets, JSON)
    are not part of this model.
  - Neither are the daemon's accept loop, `_handle_client_safe`,
    `_background_status_update`, threads, locks and `stop`'s socket cleanup.
  - `Start` models only the controller part of `start`.
- `time.sleep` and durations: the wait inside a pulse, the pulse duration
  and the 0.1 s pause between retries. `time.time()` in `get_status_smart`
  is the integer parameter `now`.
- `Daemon.Pulse`: the `duration` field of a request is not modelled.
- The daemon requests model `relay_id` as an integer and `state` as an
  optional boolean. A missing `relay_id` (None) or a non-boolean state is not
  modelled.
- `Daemon.USBRelayDaemon.Start`: the socket part of start is not modelled.
- `SocketPath` joins the temporary directory and the name with '/'. Path
  normalisation of the temporary directory is not modelled.
- `Utils.ParseInt`: Python's `int()` also accepts '_' between digits and
  non-ASCII digits. The model accepts an optional sign and ASCII digits only.
- `Utils.ExpectedResponseLength`: its contract states the fallback and the
  lower bound. The per-code values are stated through the reply-length
  lemmas beside it.
- `RelaySequence.sequence_control` and `running_lights`, and
  `DeviceManager`, are not part of this model: they are sleep-driven
  sequencing and OS port enumeration.
- The import of `RelaySequence` inside `execute_relay_command_smart` is
  assumed to succeed.
- The context managers (`__enter__`/`__exit__`) appear as explicit connect
  and disconnect calls around the direct runs.
- The rest of `src/utils.py` is not part of this model: logging setup,
  system information, file names, formatting, timers and retries.
- Neither are the CLI and configuration files.
