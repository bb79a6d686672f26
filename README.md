# Modbus inverter reader — a Dafny model

This project models the device-reading core of an energy monitor that polls a solar inverter or
meter over Modbus (`backend/devices/Modbus.py`). It covers:

- how the configuration is resolved against its defaults;
- how the transport client is chosen;
- how one holding-register read turns words into a scaled measurement;
- the `update` cycle that reads the configured registers in a fixed order into eight measurement
  fields and derives self-consumption and total consumption.

Modules, one file each:

- `Errors` (`errors.dfy`) holds `Option`, `Result` and the error kinds the reader raises. There is
  one constructor per raise site.
- `Text` (`text.dfy`) lower-cases ASCII and proves that "lower-case, then compare" means "spelled in
  any letter case".
- `Config` (`config.dfy`) holds the register-map entries and the optional configuration. `Resolve`
  fills in the defaults, including the built-in six-entry register map.
- `Transport` (`transport.dfy`) picks the TCP or RTU client. The connection type is compared
  case-insensitively and anything else is a `ValueError`.
- `Decoding` (`decoding.dfy`) covers:
  - endian parsing;
  - the five case-sensitive type tags;
  - 16- and 32-bit word assembly under byte and word order;
  - two's complement;
  - the bit widths.

  Holding registers travel most significant byte first (section 4.2 of the Modbus Application
  Protocol Specification V1.1b3). The payload decoder's reordering is modelled this way:
  - little byte order swaps the bytes of each word;
  - little word order swaps the two words of a 32-bit value;
  - a 16-bit value ignores the word order;
  - the decoder reads from the front of the payload and fails when the payload has too few words.
- `Registers` (`registers.dfy`) models one register read. The steps run in the source's order:
  1. the device request, whose error comes first;
  2. the byte order, then the word order;
  3. the type tag;
  4. decoding;
  5. scaling, where the scale defaults to 1.0.
- `UpdateCycle` (`cycle.dfy`) specifies one `update` as a function of the measurements before it:
  - `Steps` is the progress after the first k of the six reads;
  - `Store` applies the grid-sign rule;
  - `Attempted` holds the rule that the feed-in register is read only while feed-in is zero;
  - `Derive` computes self-consumption and total;
  - `Cycle` adds the connect and close behaviour.
- `CycleProperties` (`cycle_properties.dfy`) proves what a cycle guarantees.
- `Modbus` (`modbus.dfy`) is the reader object. It is a class whose eight measurement fields and
  connection flag are updated in place:
  - `Update` is proved equal to `Cycle` on the old fields;
  - `Open` is the constructor of the original: resolve the configuration, zero the fields, create
    the client, then run one update and raise its error. The model creates the client value just
    before the object that keeps it as a constant; no caller can observe that order.

The device and its transport are a value of type `Device`, a map from a request
(address, count, slave id) to the words the device answers. A request that is absent is an error reply.
`connect()` is the parameter `connectOk`: whether the client is connected after calling it.

The model follows the code's eager mutation. A cycle that fails at some read keeps the fields
written before that read in the same cycle. That read's field, every later field and both derived
fields keep their values from before the cycle. The connection ends closed and the error is returned.
An all-or-nothing publish of the measurements is not what the code does, so it is not modelled.

Two consequences of the code as written are stated as lemmas rather than corrected:

- A stale feed-in. The feed-in register is read only while the feed-in field is zero, and the
  field carries over between cycles. Once it is non-zero it keeps that value in every cycle whose
  grid reading is not negative, and the register is never read again (`EarlierFeedInKept`).
- A broken balance after a failure. The successful cycle's balance (total = grid + self-consumption)
  need not hold after a failed one. The grid draw 1 can be stored and the feed-in read can then fail,
  leaving grid 1 with self-consumption and total still 0 (`PartialFailureExample`).

## Model

| member | source | states |
|---|---|---|
| Text.Lower | backend/devices/Modbus.py:66-91 | the `.lower()` of the tcp/rtu and big/little comparisons, on ASCII; its contract only keeps the length, and its meaning is given by `Text.LowerIsAnyCase` |
| Text.LowerIsAnyCase | backend/devices/Modbus.py:89-91 | lower-casing a string and comparing it with a lower-case word holds exactly when the string spells the word with each letter in either case |
| Decoding.GetEndian | backend/devices/Modbus.py:87-94 | no contract of its own: Big for "big", Little for "little" after lower-casing, else the invalid-endian error; its meaning is given by `Decoding.GetEndianCases` |
| Decoding.GetEndianCases | backend/devices/Modbus.py:87-94 | "big" and "little" are accepted in any letter case, each iff spelled so; every other string fails with an invalid-endian error naming it |
| Decoding.ParseValueType | backend/devices/Modbus.py:116-128 | the type dispatch succeeds iff the tag is exactly one of uint16, int16, uint32, int32, float32 (case-sensitive); the parsed type carries that tag; otherwise the error is the unsupported-type error naming the tag |
| Decoding.ParseTag | backend/devices/Modbus.py:116-128 | each of the five types is recovered from its own tag |
| Decoding.ArrangeTwice | backend/devices/Modbus.py:110-114 | the byte-order rearrangement of a word is its own inverse, for both orders |
| Decoding.Unsigned | backend/devices/Modbus.py:110-126 | the decoder's assembly of the leading one or two words under the byte and word order, as an unsigned number below 2^16 or 2^32; its meaning is given by `Decoding.DecodeEncode`, `Decoding.EncodeDecode` and `Decoding.WordOrderEffect` |
| Decoding.DecodeInteger | backend/devices/Modbus.py:117-124 | a decoded integer lies in its type's range: [0, 2^16-1], [-2^15, 2^15-1], [0, 2^32-1] or [-2^31, 2^31-1] |
| Decoding.EncodeInteger | backend/devices/Modbus.py:117-124 | the reference encoding of an in-range integer occupies exactly the type's number of registers |
| Decoding.DecodeEncode | backend/devices/Modbus.py:110-124 | decoding the words a device sends for an in-range integer gives that integer back, for every integer type and both byte and word orders |
| Decoding.EncodeDecode | backend/devices/Modbus.py:110-124 | re-encoding a decoded integer gives back the payload's leading words, so no two payloads with different leading words decode alike |
| Decoding.SignedIsTwosComplement | backend/devices/Modbus.py:117-124 | int16/int32 read the same bits as uint16/uint32 in two's complement: equal, or less by 2^16/2^32, and negative exactly when the top bit is set |
| Decoding.Decode | backend/devices/Modbus.py:110-126 | decoding fails exactly when the payload has fewer words than the type needs |
| Decoding.DecodeReadsLeadingWords | backend/devices/Modbus.py:110-126 | words beyond the type's width do not affect the decoded value |
| Decoding.WordOrderEffect | backend/devices/Modbus.py:110-114 | a 16-bit value ignores the word order; for a 32-bit value little word order is big word order on the swapped pair |
| Config.Resolve | backend/devices/Modbus.py:11-41 | no contract of its own: each setting is the configured value or its default; its meaning is given by `Config.EmptyConfigDefaults` and `Config.ResolveOverridesDefaults` |
| Config.EmptyConfigDefaults | backend/devices/Modbus.py:11-41 | an empty configuration resolves to tcp, 192.168.1.100:502, /dev/ttyUSB0 at 9600 baud N-1-8, unit 1, timeout 3, the default register map, big word and byte order |
| Config.ResolveOverridesDefaults | backend/devices/Modbus.py:11-41 | for every configuration, each of the thirteen settings is the given value when the key is present and the empty configuration's default when it is missing |
| Config.GivenRegisterMapReplacesDefault | backend/devices/Modbus.py:30-37 | a configured register map replaces the default one entirely; default entries are not merged in |
| Transport.CreateClient | backend/devices/Modbus.py:64-85 | no contract of its own: TCP client, RTU client or the unsupported-type error by the lower-cased connection type; its meaning is given by `Transport.CreateClientTcp`, `Transport.CreateClientRtu` and `Transport.CreateClientRejects` |
| Transport.CreateClientTcp | backend/devices/Modbus.py:66-72 | the result is a TCP client iff the connection type spells "tcp" in any case, and that client has the configured host, port and timeout |
| Transport.CreateClientRtu | backend/devices/Modbus.py:73-83 | the result is a serial RTU client iff the connection type spells "rtu" in any case, and that client has the configured port name, baud rate, parity, stop bits, byte size and timeout |
| Transport.CreateClientRejects | backend/devices/Modbus.py:84-85 | client creation fails iff the type is neither tcp nor rtu in any case, and the error is a ValueError naming the type |
| Transport.CreateClientExamples | backend/devices/Modbus.py:64-85 | "tcp" and "Tcp" select TCP, "RTU" selects RTU, and "udp" is rejected |
| Registers.Scaled | backend/devices/Modbus.py:101 | an entry without a scale leaves the decoded value unchanged (scale 1.0) |
| Registers.ReadRegister | backend/devices/Modbus.py:103-107 | when the device does not answer the request for (address, length, unit id), the read fails with that address |
| Registers.DeviceErrorComesFirst | backend/devices/Modbus.py:103-107 | a device error is raised before the type tag is examined, whatever the tag |
| Registers.EndianErrorsFirst | backend/devices/Modbus.py:110-114 | after the device answers, an invalid byte order is reported first, then an invalid word order, both before the type tag |
| Registers.ReadRegisterOutcome | backend/devices/Modbus.py:109-131 | with the device answering and both orders valid, the read fails with the unsupported-type error for an unknown tag, fails iff the payload is shorter than the type, and otherwise yields the decoded value times the scale |
| Registers.ScaleIsLinear | backend/devices/Modbus.py:130-131 | a read fails iff the same read without a scale fails, with the same error; a successful read is the unscaled value times the entry's scale |
| Registers.ReadEncodedInteger | backend/devices/Modbus.py:104-131 | a device that answers the encoding of an in-range integer v is read as v times the scale, for every integer type and order |
| Registers.ReadRegisterExamples | backend/devices/Modbus.py:96-131 | uint16 5000 at scale 0.001 reads 5.0; int16 0xFFFF at 0.001 reads -0.001; the tag "UINT16" is rejected |
| Registers.DefaultRegisterMapWellFormed | backend/devices/Modbus.py:30-37 | every default entry has a known type whose width equals its length, at scale 0.001 |
| UpdateCycle.Attempted | backend/devices/Modbus.py:146-170 | no contract of its own: the guard of each read, key configured and, for the feed-in register, feed-in zero; its meaning is given by `CycleProperties.FeedInRule`, `CycleProperties.DirectRead` and `CycleProperties.GridRead` |
| UpdateCycle.Store | backend/devices/Modbus.py:147-171 | no contract of its own: the assignment of each read, with a negative grid value stored as feed-in and zero grid draw; its meaning is given by `CycleProperties.GridRead`, `CycleProperties.NegativeGridIsFeedIn` and `CycleProperties.Untouched` |
| UpdateCycle.Advance | backend/devices/Modbus.py:145-171 | no contract of its own: one guarded read, which either stores its value or stops the cycle with its error, and does nothing after a failure; its meaning is given by `CycleProperties.FailureIsFinal` and `CycleProperties.FailurePoint` |
| UpdateCycle.Steps | backend/devices/Modbus.py:145-171 | no contract of its own: the first k reads in the source's order; its meaning is given by `CycleProperties.RunningEarlier`, `CycleProperties.Untouched` and `CycleProperties.DerivedUntouched` |
| UpdateCycle.Derive | backend/devices/Modbus.py:173-178 | self-consumption is never negative and is either zero or produced minus fed-in, whichever is larger; total is grid draw plus self-consumption; the measured fields are unchanged |
| UpdateCycle.Cycle | backend/devices/Modbus.py:135-199 | no contract of its own: connect when disconnected, the six reads, then on success the derived values and on a failure the closed connection and the error; its meaning is given by `CycleProperties.SuccessBalance`, `CycleProperties.ConnectOnlyWhenDisconnected` and `CycleProperties.FailedCycle` |
| CycleProperties.FailureIsFinal | backend/devices/Modbus.py:145-171 | once a read has raised, no later read happens and the progress stays as it was |
| CycleProperties.RunningEarlier | backend/devices/Modbus.py:145-171 | a cycle that has not failed after k reads had not failed at any earlier point |
| CycleProperties.FailurePoint | backend/devices/Modbus.py:145-171 | a failed cycle failed at one attempted read whose error it carries, with every earlier read succeeding and nothing after it |
| CycleProperties.Untouched | backend/devices/Modbus.py:145-171 | reads that do not touch a field leave it unchanged |
| CycleProperties.DerivedUntouched | backend/devices/Modbus.py:145-171 | the reads never write self-consumption or total |
| CycleProperties.SuccessBalance | backend/devices/Modbus.py:173-178 | after a successful cycle self-consumption is max(0, produced - fed-in) and not negative, total is grid plus self-consumption, and the client is connected iff it was already or connect succeeded |
| CycleProperties.ConnectOnlyWhenDisconnected | backend/devices/Modbus.py:136-140 | connect is consulted only when the client is not connected: a connected client's cycle does not depend on it |
| CycleProperties.GridRead | backend/devices/Modbus.py:161-167 | with the grid register configured, a successful cycle holds its value when not negative and zero otherwise; without it, the grid draw is unchanged |
| CycleProperties.GridNeverNegative | backend/devices/Modbus.py:161-167 | with the grid register configured, a successful cycle never leaves a negative grid draw |
| CycleProperties.NegativeGridIsFeedIn | backend/devices/Modbus.py:164-171 | after a successful cycle, a negative grid reading v gives zero grid draw and feed-in -v, and the separate feed-in register is then skipped |
| CycleProperties.FeedInRule | backend/devices/Modbus.py:169-171 | the feed-in register is read only when configured and the feed-in is zero at that point; otherwise the feed-in keeps its value |
| CycleProperties.EarlierFeedInKept | backend/devices/Modbus.py:169-171 | a non-zero feed-in from an earlier cycle survives a successful cycle whose grid reading is not negative, because the feed-in register is then never read |
| CycleProperties.DirectRead | backend/devices/Modbus.py:145-159 | after a successful cycle each of the four energy and production metrics holds its register's value when configured and keeps its previous value when not |
| CycleProperties.FailedCycle | backend/devices/Modbus.py:194-199 | a failed cycle raised the error of a read it attempted: fields read before it hold their new values, that read's field and every later field and both derived fields are as before, and the connection ends closed |
| CycleProperties.BalanceExample | backend/devices/Modbus.py:158-178 | produced 10, grid draw 1 and fed-in 3, from zeroed measurements, give self-consumption 7 and total 8 |
| CycleProperties.NegativeGridExample | backend/devices/Modbus.py:161-171 | an int16 grid word 0xFFFB at scale 0.5 gives grid 0 and feed-in 2.5, and the feed-in register is not read |
| CycleProperties.FailureExample | backend/devices/Modbus.py:145-147 | a device that does not answer the first configured register fails the cycle with that address, leaving the fields as they were and the connection closed |
| CycleProperties.PartialFailureExample | backend/devices/Modbus.py:161-199 | a grid draw of 1 stored before a failing feed-in read stays visible with self-consumption and total still 0, so the balance does not hold after a failed cycle |
| Modbus.Modbus.constructor | backend/devices/Modbus.py:43-51 | the reader keeps the settings and client, starts with all eight measurements at 0.0 and not connected |
| Modbus.Modbus.Abort | backend/devices/Modbus.py:194-199 | the error clean-up closes the connection if it is open and re-raises the error |
| Modbus.Modbus.ReadStep | backend/devices/Modbus.py:145-171 | one guarded read of the fixed order changes the fields exactly as the cycle specification's step does; a failed read changes no field; the connection is untouched |
| Modbus.Modbus.Update | backend/devices/Modbus.py:133-199 | the new fields, connection state and error are those of the cycle specification applied to the old fields and connection; on success self-consumption is not negative and total is grid plus self-consumption; on an error the connection is closed |
| Modbus.Open | backend/devices/Modbus.py:9-62 | an unsupported connection type fails before any read; otherwise the reader is fresh, holds the resolved settings and client, and its first update's outcome from zeroed fields decides whether construction raises, and what the fields and connection are |

## Left out

- The connect outcome and the device's answers are independent inputs: `connectOk` and `Device` are not linked. The model therefore also admits a cycle whose connect failed, whose reads all succeed, and which ends with the connection flag false. It does not promise that reads fail on an unconnected client.
- Network and serial I/O: the pymodbus clients, `read_holding_registers`, `connect` and `close` are abstracted. The device is a map from requests to answered words, and `connect` is the parameter `connectOk`. Timeouts, retries and the transport's own error kinds are not modelled.
- `time.sleep(0.1)` after connecting, and all logging: neither has state the reader depends on.
- float32 decoding: the IEEE-754 meaning of a 32-bit pattern is a function parameter (`Float32Reader`). Only the word and byte assembly that feeds it is modelled.
- Floating-point rounding: the scaling, the subtraction and the sum are real arithmetic, not IEEE doubles.
- Dynamically typed configuration: a missing `address`, `length` or `type` key, or a value of the wrong Python type, raises `KeyError`/`TypeError`/`AttributeError` in the source. The model's configuration records are typed, so those errors cannot arise.
- Text.LowerIsAnyCase: lower-casing is ASCII only. Python's `str.lower()` is Unicode-aware, but no non-ASCII character lowers to a single letter of "tcp", "rtu", "big" or "little", so the accepted spellings are the same.
- No length check: the configured `length` is passed to the request without a check against the type's width. Only a payload shorter than the type fails; extra words are ignored. This is what the decoder does.
- Exception classes are not modelled: a failed device read raises a plain `Exception`, and configuration mistakes raise `ValueError` (`Error.IsValueError`). The model carries the raise site and its data, not the message text.
- `Modbus.Open` is the constructor: it takes the configuration dictionary's `modbus` section as the optional-field record `ModbusConfig`. The surrounding configuration object is not part of this model.
