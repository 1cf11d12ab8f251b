# sACN (ANSI E1.31) DMX receiver — Dafny model

This project models the receive path of an ESP32 WiFi DMX receiver. The
receiver gets UDP datagrams carrying ANSI E1.31 (Streaming ACN) data packets.
It checks each datagram's length and four protocol markers:

- the ACN packet identifier (section 5.3 of ANSI E1.31-2016);
- the framing-layer vector `VECTOR_E131_DATA_PACKET` (section 6.2.1);
- the DMP address and data type `0xA1` (section 7.3);
- the DMX512-A null START code in slot 0 (section 7.7).

It then drops a frame whose 513 slots repeat the previously stored frame. A
changed frame is copied into the stored buffer. It is delivered either to a
registered callback or through a "new data" flag that a consumer polls.

Two modules:

- `SacnPacket` (`sacn_packet.dfy`) is the packet union of `sACNPacket.h`.
  The structured view is the datatype `Packet`, made of one datatype per
  layer. The raw `buffer` view is a `seq<byte>`. `Overlay` reads fields out
  of the bytes and `Bytes` lays them back out. The lemmas prove:
  - the two views are inverse;
  - the union is 38 + 77 + 523 = 638 bytes;
  - every field sits at a fixed absolute offset.
- `WifiDmx` (`wifi_dmx.dfy`) is the receiver of `WiFiDMX.cpp`:
  - `Classify` gives the early-return sequence of `dmx_receive`;
  - `Step` gives the effect of one datagram on the state, and `Run` the
    effect of a sequence of them;
  - the lemmas state the properties of these functions;
  - the class `Receiver` holds the static state in place: `prev` is an
    `array<byte>` of 513 slots, plus the flag, whether a callback is
    registered, and a ghost log of what the callback received. `Receive` is
    proved to return `Classify` and to leave exactly `Step` of the old
    state; the constructor builds `Initial()`; `RegisterCallback` and
    `WaitForNewData` state their whole new state.

Field offsets follow the header's struct layout: the struct places
`ad_types` at 118 and `slots` at 125..637.

## Model

| member | source | states |
|---|---|---|
| `SacnPacket.RootOverlayBytes` | sACNPacket.h:14-21 | Any 38 bytes read as a Root Layer give well-sized fields, and laying them out again gives the same 38 bytes |
| `SacnPacket.RootBytesOverlay` | sACNPacket.h:14-21 | A well-sized Root Layer takes exactly 38 bytes and reads back unchanged |
| `SacnPacket.FramingOverlayBytes` | sACNPacket.h:22-31 | Any 77 bytes read as a Framing Layer give well-sized fields, and laying them out again gives the same bytes |
| `SacnPacket.FramingBytesOverlay` | sACNPacket.h:22-31 | A well-sized Framing Layer takes exactly 77 bytes and reads back unchanged |
| `SacnPacket.DmpOverlayBytes` | sACNPacket.h:32-40 | Any 523 bytes read as a DMP Layer give well-sized fields, and laying them out again gives the same bytes |
| `SacnPacket.DmpBytesOverlay` | sACNPacket.h:32-40 | A well-sized DMP Layer takes exactly 523 bytes and reads back unchanged |
| `SacnPacket.OverlayBytes` | sACNPacket.h:12-43 | The union is 638 bytes; any 638-byte buffer read through the `packet` view and laid out again is the same `buffer` |
| `SacnPacket.BytesOverlay` | sACNPacket.h:12-43 | A well-sized structured packet fills exactly the 638-byte buffer and reads back unchanged, so the two union members carry the same data |
| `SacnPacket.OverlayFieldsAt` | sACNPacket.h:12-43 | Every field read through the struct view equals the raw bytes at its absolute offset. Root: preamble 0..1, postamble 2..3, `packet_id` 4..15, flags/length 16..17, vector 18..21, CID 22..37. Framing: flags/length 38..39, `vector` 40..43, source name 44..107, priority 108, reserved 109..110, sequence number 111, options 112, `universe` 113..114. DMP: flags/length 115..116, `vector` 117, `ad_types` 118, first property address 119..120, address increment 121..122, property count 123..124, `slots` 125..637 |
| `WifiDmx.Initial` | WiFiDMX.cpp:7-11 | The initial state holds a valid frame: 513 zero slots, so START code 0. The flag is false, no callback is registered and nothing has been delivered |
| `WifiDmx.ClassifyAtOffsets` | WiFiDMX.cpp:60-105 | Each rejection, stated on the raw bytes, happens exactly when its check is the first to fail: length not 638, then bytes 4..15 not "ASC-E1.17" plus three zero bytes, then 40..43 not 00 00 00 02, then byte 118 not 0xA1, then byte 125 not 0. A well-formed datagram is `Unchanged` when bytes 125..637 equal the stored frame and `Accepted` when they differ, in both directions |
| `WifiDmx.WrongLengthIgnored` | WiFiDMX.cpp:59-64 | A datagram whose length is not 638 leaves the buffer, the flag and the callback log unchanged, whatever it holds |
| `WifiDmx.BadMarkerIgnored` | WiFiDMX.cpp:73-97 | A 638-byte datagram that fails any one of the four marker checks leaves the whole state unchanged |
| `WifiDmx.DuplicateIgnored` | WiFiDMX.cpp:99-105 | A 638-byte datagram whose slots equal the stored frame leaves the whole state unchanged |
| `WifiDmx.AcceptedInstalls` | WiFiDMX.cpp:107-115 | An accepted datagram makes the stored frame exactly bytes 125..637. With no callback the flag is true afterwards and nothing is delivered. With a callback, those slots are appended once to the callback log and the flag is false afterwards |
| `WifiDmx.StepPreservesInv` | WiFiDMX.cpp:91-109 | One datagram preserves the invariant: the stored frame and every delivered frame have 513 slots with START code 0 |
| `WifiDmx.RunPreservesInv` | WiFiDMX.cpp:53-116 | Any sequence of datagrams preserves the invariant, so `prev[0] == 0` always holds |
| `WifiDmx.StepIdempotent` | WiFiDMX.cpp:99-115 | Receiving the same datagram twice in a row leaves the same state as receiving it once, and the callback fires at most once for the pair |
| `WifiDmx.RunKeepsLatest` | WiFiDMX.cpp:99-110 | After any non-empty sequence of datagrams whose last one is well formed, the stored frame is that last one's slots, whatever came before it (malformed, duplicate or distinct frames). No history is kept |
| `WifiDmx.RunRaisesFlag` | WiFiDMX.cpp:99-112 | With no callback registered, a run of datagrams never lowers the new-data flag and delivers nothing. It raises the flag whenever the stored frame ends up different, and whenever some datagram of the run is well formed with slots different from the frame stored before the run |
| `WifiDmx.TenDistinctFrames` | WiFiDMX.cpp:99-112 | With no callback and no poll in between, ten pairwise-distinct well-formed frames leave the flag up and the tenth frame stored, whatever was stored before; nothing is delivered |
| `WifiDmx.PayloadRoundTrip` | WiFiDMX.cpp:66-113 | Take a structured packet with the right markers, START code 0 and 512 channel values, and lay it out as bytes. It is accepted exactly when its frame differs from the stored one; otherwise it changes nothing. Either way, the stored channel values afterwards are the ones put in |
| `WifiDmx.Receiver.constructor` | WiFiDMX.cpp:7-11 | Static initialisation: a fresh 513-byte zeroed buffer, flag false, no callback, empty callback log |
| `WifiDmx.Receiver.RegisterCallback` | WiFiDMX.cpp:39-43 | `setup_with_callback` replaces the callback pointer with the one given: afterwards a callback is registered exactly when that pointer is non-NULL, so NULL un-registers an earlier callback. The buffer, the flag and the log are unchanged |
| `WifiDmx.Receiver.WaitForNewData` | WiFiDMX.cpp:46-51 | When the flag is set: clears it and returns the stored buffer itself, whose contents are unchanged and form a valid DMX frame |
| `WifiDmx.Receiver.Receive` | WiFiDMX.cpp:53-116 | Updates the buffer in place. It reports which early return was taken, which is `Classify` of the datagram against the old buffer, and leaves exactly the state `Step` gives from the old one. The invariant is kept |

## Left out

- WiFi station setup, including the endless `delay` loop when the connection fails: this is network I/O.
- Joining the multicast group 239.255.0.universe on port 5568 and registering the packet handler: this is transport plumbing in the UDP library. A datagram is modelled as a byte sequence handed to `Receive`.
- `setup` without a callback only does the two items above and stores the debug flag. So it has no modelled effect, and no member of its own.
- The `Serial` debug logging and the `_packetDebug` flag: they do not affect the state. `Receive` returns an `Outcome` naming the early return taken, which stands in for the diagnostic message the code would print. The C function returns nothing.
- WifiDmx.Receiver.WaitForNewData: requires the flag to be set instead of busy-waiting until it is. The spin loop and the `volatile` sharing between the UDP task and the consumer are concurrency, which this sequential model does not capture.
- What the user callback does: it is opaque. The model records only its argument, in the ghost log `delivered`.
- Fields the code never inspects: root preamble, postamble, flags and length, vector and CID; framing flags and length, source name, priority, reserved, sequence number, options, universe; DMP flags and length, vector, address fields and property count. They are laid out and each one's absolute offset is proved, but they are not checked, even where the header's comments give an expected value.
- A last-received timestamp (liveness tracking): this revision of the receiver keeps no such state.
