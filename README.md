# Tifflin kernel: wait/event primitive, TCP receive path, VGA driver

A Dafny model of three sequential cores of the Tifflin hobby kernel (Rust),
with the properties their code promises proved about the model.

- **`Async` (`async.dfy`)**: the kernel's asynchronous wait primitive.
  - `EventSource` is a class holding a level-triggered `flag` and a single
    `subscriber` slot.
  - `Waiter` is the three-variant datatype `None | Event(EventWait) | Poll(closure)`.
    `IsValid`, `IsReady`, `BindSignal` and `RunCompletion` follow its match arms.
  - `WaitOnList` is the bind → park → single-scan multiplexer working on an
    `array<Waiter>`.
  - Callbacks and poll closures are identity tokens. The answer a poll closure
    gives when peeked at is the parameter `peek`.
  - `ReadHandle` and `WriteHandle` are datatypes built by `NewReadHandle` and
    `NewWriteHandle`.
- **`Tcp` (`tcp.dfy`)**: the TCP side of receiving a segment.
  - The fixed 20-byte header of section 3.1 of RFC 793 is read big-endian,
    field by field, through a `PacketReader` cursor.
  - The Data Offset field gives the header size.
  - The flag constants are `FLAG_SYN` and `FLAG_ACK`.
  - `rx_handler` checks the length guard, skips the option bytes and then makes
    three independent table dispatches. The tables are `map` fields of
    `TcpTables`.
- **`VideoVga` (`video_vga.dfy`)**: the legacy VGA driver.
  - The PCI class match and the one-shot legacy `bind`.
  - The 640x480@60 mode table and the CRTC timing arithmetic of `set_crtc`.
  - The 8:8:8 → 2:3:3 colour packing.
  - `fill`, a nested loop that paints a rectangle into the 320x240 byte
    framebuffer held in an `array<u8>`.
- **`Wrappers` (`wrappers.dfy`)** holds `Option` and `Result`.
- **`Machine` (`machine.dfy`)** holds the unsigned integer types and `Panic`.

How the model treats Rust's failure modes:
- Most explicit panics become `Failure(Panic(message))` results carrying the
  source's message: `assert!`, `expect`, the duplicate-bind check, the empty
  wait list and the unknown-mode `panic!` of `from_res`. `set_crtc` and
  `activate` panic on every path, so `SetCrtc` and `Activate` return the
  `Panic` itself.
- The VGA driver has arithmetic and indexing hazards that the model excludes
  by preconditions (`ChannelsFit`, `TimingFits`, `FillFits`) rather than
  returning them as outcomes:
  - u8/u16 overflow, which panics in a debug build and wraps in a release build;
  - the scanline index in `fill`, which is bounds-checked and panics with
    "index out of bounds" after writing at most part of the first row.

  Lemmas beside the preconditions exhibit concrete inputs the source accepts
  that violate them: pure white, and a full-screen fill.
- The subtraction `pre_header_reader.remain() - hdr_len` in `rx_handler` gets
  its input from the network. Its underflow is therefore the overflow panic
  `Panicked(SUBTRACT_OVERFLOW)`, not a precondition.

The length guard `hdr_len < remain` of `rx_handler` is modelled as written.
`CheckLength` proves the consequence:
- a header shorter than the packet is rejected;
- a header longer than the packet underflows in the option-skip loop;
- so only a segment whose header fills it exactly, with no payload, reaches
  dispatch.

## Model

| member | source | states |
|---|---|---|
| Async.EventSource.constructor | Kernel/Core/async/mod.rs:63-73 | A new source, like the static `s_event_none`, is untriggered and has no subscriber |
| Async.EventSource.Trigger | Kernel/Core/async/mod.rs:78-82 | The flag is true afterwards whatever it was before (so a repeat leaves the flag set); the subscriber slot is unchanged; the subscriber, if present, gets exactly one more signal |
| Async.EventSource.WaitOn | Kernel/Core/async/mod.rs:74-77 | The waiter is a valid `Event` that borrows this source and holds the given callback as its pending completion |
| Async.NoneWaiter | Kernel/Core/async/mod.rs:87-90 | `Waiter::none` is valid, holds no completion, is ready for any peek answer, and its completion is a no-op |
| Async.EventWaiter | Kernel/Core/async/mod.rs:91-97 | `Waiter::event` is valid, borrows the given source and has the callback pending |
| Async.PollWaiter | Kernel/Core/async/mod.rs:98-101 | `Waiter::poll` is valid, has the closure pending, and is ready exactly when the closure's peek answer is true |
| Async.IsValid | Kernel/Core/async/mod.rs:103-111 | `is_valid`: `None` is always valid; `Event` is valid iff its callback is present; `Poll` is valid iff its closure is present |
| Async.IsReady | Kernel/Core/async/mod.rs:112-128 | `is_ready`: `None` is ready; an `Event` is ready iff it has no source or its source's flag is set; a `Poll` is ready iff its closure is gone or its peek answer is true |
| Async.NewReadHandle | Kernel/Core/async/mod.rs:175-184 | The read handle holds exactly the given buffer and wait |
| Async.NewWriteHandle | Kernel/Core/async/mod.rs:186-195 | The write handle holds exactly the given buffer and wait |
| Async.ValidIffPending | Kernel/Core/async/mod.rs:103-111 | A waiter is valid iff it is `None` or still holds its callback or closure |
| Async.TriggeredEventIsReady | Kernel/Core/async/mod.rs:112-121 | Level triggering: an `Event` waiter whose source flag is set, or that has no source, is ready, however it was built or bound |
| Async.UntriggeredEventNotReady | Kernel/Core/async/mod.rs:112-121 | An `Event` waiter on a source whose flag is clear (such as the never-triggered `s_event_none`) is not ready |
| Async.TriggerThenBind | Kernel/Core/async/mod.rs:78-146 | A trigger run before the waiter is built and before the sleeper binds is still observed: afterwards the waiter is ready, the sleeper holds the slot, and completion runs the callback |
| Async.BindSignal | Kernel/Core/async/mod.rs:130-146 | Returns false exactly for `Poll`; for an `Event` with a source it overwrites that source's subscriber with the sleeper (last bind wins) and changes nothing else, including the flag |
| Async.RunCompletion | Kernel/Core/async/mod.rs:148-161 | Panics, with the source's `expect` message, iff the waiter is invalid; otherwise it invokes exactly the pending completion, leaves nothing pending, leaves `Event`/`Poll` waiters invalid and `None` a no-op, and keeps the variant and the borrowed source |
| Async.SecondCompletionPanics | Kernel/Core/async/mod.rs:148-161 | Running the completion of an `Event` or `Poll` waiter a second time panics |
| Async.WaitOnList | Kernel/Core/async/mod.rs:197-231 | An empty list panics and changes nothing. Otherwise every borrowed source ends up subscribed to one fresh sleep object, with its flag unchanged; nothing in the call signals that sleep object. The call succeeds iff no waiter is both ready and invalid. On success each position holds the result of completing it iff it was ready, and the log records the completion run there. On a panic, the positions before the first offending one are completed and the rest are untouched. The list keeps its length and order |
| Async.TwoSourcesOneTriggered | Kernel/Core/async/mod.rs:197-231 | With two sources of which only the second is triggered, one `wait_on_list` completes exactly the second waiter: the completion log is nothing at the first position and the second callback at the second, the first waiter stays valid and not ready, and the sleep object receives no signal |
| Tcp.FlagConstantsAreSingleBits | Kernel/Modules/network/tcp.rs:87-105 | `FLAG_SYN` has exactly bit 1 and `FLAG_ACK` exactly bit 4 set, matching the documented flags bitfield |
| Tcp.DecodeEncode | Kernel/Modules/network/tcp.rs:108-121 | Decoding the 20-byte wire image of a header (field widths 2,2,4,4,1,1,2,2,2, big-endian) gives the header back |
| Tcp.EncodeDecode | Kernel/Modules/network/tcp.rs:108-121 | Every 20-byte string is the wire image of the header it decodes to |
| Tcp.DecodeHeader | Kernel/Modules/network/tcp.rs:108-121 | The reference decode: the nine fields, in order, from the first 20 bytes, with 16- and 32-bit fields big-endian |
| Tcp.PacketReader.Clone | Kernel/Modules/network/tcp.rs:29 | The copy reads the same bytes from the same position |
| Tcp.PacketReader.ReadU8 | Kernel/Modules/network/tcp.rs:115-116 | Fails iff no byte remains; otherwise returns the next byte and advances by 1 |
| Tcp.PacketReader.ReadU16n | Kernel/Modules/network/tcp.rs:111-112 | Fails iff fewer than 2 bytes remain; otherwise returns the next two bytes big-endian and advances by 2 |
| Tcp.PacketReader.ReadU32n | Kernel/Modules/network/tcp.rs:113-114 | Fails iff fewer than 4 bytes remain; otherwise returns the next four bytes big-endian and advances by 4 |
| Tcp.HeaderBytesRead | Kernel/Modules/network/tcp.rs:108-121 | The bytes a header read consumes never exceed what remains or 20, and are 20 exactly when at least 20 remain |
| Tcp.ReadHeader | Kernel/Modules/network/tcp.rs:108-121 | Fails iff fewer than 20 bytes remain; on success it consumes exactly 20 bytes and returns their big-endian decode; on failure the cursor stops at the first field that does not fit |
| Tcp.HeaderSize | Kernel/Modules/network/tcp.rs:122-124 | The header size is a multiple of 4, at most 60, and its count of 32-bit words is the top nibble of `data_offset` |
| Tcp.HeaderSizeDependsOnlyOnOffsetNibble | Kernel/Modules/network/tcp.rs:85-86 | Two headers have the same size iff their Data Offset nibbles agree; the reserved low nibble never matters |
| Tcp.CheckLength | Kernel/Modules/network/tcp.rs:39-52 | The guard as written rejects iff the header is shorter than the packet, the option-skip bound underflows iff it is longer, and a packet gets through iff the two are equal |
| Tcp.Lookup | Kernel/Modules/network/tcp.rs:55-70 | `SharedMap::get` (and the read half of `take`): a value iff the key is present, and then the stored one |
| Tcp.FindServer | Kernel/Modules/network/tcp.rs:67-74 | A server is found iff one is bound to `(Some(dest), port)` or `(None, port)`; the address-bound one wins |
| Tcp.TcpTables.constructor | Kernel/Modules/network/tcp.rs:19-21 | The three protocol tables start empty |
| Tcp.TcpTables.RxHandler | Kernel/Modules/network/tcp.rs:27-76 | Fewer than 20 bytes: undersized, nothing changes. Otherwise the outcome follows `CheckLength`: rejected or underflow with the tables unchanged, or dispatch once the option skip leaves exactly `total - hdr_len` bytes. Dispatch looks the quad up in CONNECTIONS for every segment; when `flags == FLAG_ACK` it takes the quad's PROTO_CONNECTIONS entry out; when `flags == FLAG_SYN` it looks up a server. No other flag value touches those tables, and CONNECTIONS and SERVERS are only read |
| VideoVga.Handles | Kernel/Modules/video_vga/lib.rs:76-86 | The strength is 0 or 1, and is 1 iff the class byte is 03h, the subclass 00h and the interface 00h |
| VideoVga.HandlesIgnoresRevision | Kernel/Modules/video_vga/lib.rs:78-80 | Replacing the revision byte never changes the match |
| VideoVga.VgaPciDriver.constructor | Kernel/Modules/video_vga/lib.rs:60 | The one-shot legacy flag starts clear |
| VideoVga.VgaPciDriver.Bind | Kernel/Modules/video_vga/lib.rs:87-94 | The flag is set afterwards. The call panics with "Duplicate binding of legacy VGA" iff it was already set. Otherwise it returns a fresh 320x240 framebuffer at I/O base 0x3B0 |
| VideoVga.VgaFramebuffer.constructor | Kernel/Modules/video_vga/lib.rs:114-126 | The framebuffer records its I/O base and the loaded CRTC registers, owns a fresh 0x20000-byte window and is 320x240 |
| VideoVga.FromRes | Kernel/Modules/video_vga/lib.rs:187-206 | Succeeds iff the request is 640x480 at 60 Hz, with totals 800 and 525 and the sync inside the front porch; any other triple panics |
| VideoVga.StandardModeFits | Kernel/Modules/video_vga/lib.rs:187-201 | The one known mode stays within the u16 arithmetic of `set_crtc` for every positive character width |
| VideoVga.VgaFramebuffer.Activate | Kernel/Modules/video_vga/lib.rs:214-218 | Activation asks for 320x240 at 60 Hz and therefore always panics with the unknown-mode message |
| VideoVga.CrtcTiming | Kernel/Modules/video_vga/lib.rs:128-161 | The register file `set_crtc` writes. Line compare, screen start and byte pan are 0; the offset is the active width. The horizontal total and display end are character counts of the pixel widths. Blank start is display end + 1, so it lies past display end. Both sync ends are below 32. The vertical total, display end and blank start are the pixel values, with blank start = display end + 1 |
| VideoVga.CrtcTimingRoundsDown | Kernel/Modules/video_vga/lib.rs:138-141 | The horizontal total and display end registers count whole characters: each, times the character width, is at most the pixel width and within one character of it |
| VideoVga.CharCountRoundsDown | Kernel/Modules/video_vga/lib.rs:138 | The division by `PIX_PER_CHAR` rounds down to whole characters |
| VideoVga.VgaFramebuffer.SetCrtc | Kernel/Modules/video_vga/lib.rs:128-169 | The CRTC registers end up exactly as `CrtcTiming` gives, and the method always ends in the frequency TODO panic |
| VideoVga.Col32ToU8 | Kernel/Modules/video_vga/lib.rs:171-182 | Under the no-overflow bounds, each 2:3:3 field read back from the packed byte is its 8-bit channel rounded up to the field's step: 64 for red, 32 for green and blue |
| VideoVga.PackingOrIsSum | Kernel/Modules/video_vga/lib.rs:181 | Or-ing the shifted 2:3:3 fields equals adding them, because they are disjoint |
| VideoVga.WhiteOverflows | Kernel/Modules/video_vga/lib.rs:174-180 | Pure white breaks the u8 rounding additions; the largest colour within the bounds packs to 0xFF |
| VideoVga.VgaFramebuffer.GetSize | Kernel/Modules/video_vga/lib.rs:220-223 | The size is the rectangle at the origin that contains every rectangle within the surface |
| VideoVga.VgaFramebuffer.SetSize | Kernel/Modules/video_vga/lib.rs:224-227 | Resizing is always refused and changes nothing |
| VideoVga.VgaFramebuffer.Fill | Kernel/Modules/video_vga/lib.rs:242-253 | A rectangle outside the surface panics at the assertion with the window unchanged. Otherwise, under `ChannelsFit` and `FillFits`, every byte inside the rectangle becomes the packed colour and every other byte keeps its value |
| VideoVga.PaintedIdempotent | Kernel/Modules/video_vga/lib.rs:242-253 | Filling the same rectangle again with the same colour changes nothing |
| VideoVga.FullScreenFillOverflows | Kernel/Modules/video_vga/lib.rs:243-247 | A full-screen fill of the 320x240 surface passes the assertion but overflows the u16 product `row * w`; 205 rows is the most that fit |

## Left out

- Thread parking. `SleepObject` is abstract: `Wait` returns at once, as a spurious wake may, and `Signal` only counts signals. Triggers by other threads while the caller is parked are not modelled. With level triggering such a trigger agrees with one before the call only on what the scan then sees as ready. It does not agree on wake-up: a trigger while parked signals the bound sleep object, a trigger before the call signals nobody (the sleep object is fresh and `wait_on_list` parks without checking readiness first).
- Async.TwoSourcesOneTriggered: its source is triggered before `wait_on_list`, so the fresh sleep object is never signalled (the method ensures the signal count stays 0). In the source the thread would stay parked until a spurious wake or a later trigger. The scenario's completion log holds because the model's `Wait` returns at once.
- The subscriber `Mutex` and the atomic flag orderings (`Relaxed`, `AcqRel`). The model is single-threaded.
- The bodies of event callbacks and poll closures, and anything they do to the waiter they receive. Each is an identity token. A poll's peek answer is the function parameter `peek`.
- `WaitError::Timeout` is never produced by the code and is not modelled.
- The `Waiter` is a value. `run_completion` returns the new waiter, and `WaitOnList` writes it back into the array. So the in-place `take()` through `&mut self` is modelled by value.
- The buffer that `ReadHandle::new` and `WriteHandle::new` borrow is a copied `seq<u8>`, so aliasing with the caller's buffer is not modelled.
- `rx_handler_v4`, `init` and `register_handler`: plumbing from the IPv4 layer.
- Logging, and `SharedMap` thread-safety.
- `PacketReader` lives in a module that is not part of this model. It is modelled as a byte sequence plus a cursor whose failed reads consume nothing.
- `Connection::handle` has an empty body, so connection state is not modelled.
- The proto-connection SEQ/ACK check and the SYN-ACK reply are comments in the source and are not modelled.
- `Rect::within` and `Rect::new` live in a module that is not part of this model. `Within` supplies the natural containment meaning.
- `map_hw_rw` is assumed to map 4 KiB pages, which makes the window 0x20000 bytes.
- `CrtcRegs::load` and `commit`, the I/O ports, `video::add_output` and device-manager registration are hardware effects. The loaded register values are a parameter.
- `blit_inner`, `blit_ext`, `blit_buf` and `as_any` are not modelled; the blits are TODO panics and `as_any` is a downcast.
- `PIX_PER_CHAR` is defined in a module that is not part of this model. It is the positive parameter `pixPerChar`.
- Release-build wrap-around of the u8/u16 arithmetic is not modelled. Overflow is a precondition in the VGA driver and the debug-build panic outcome in `rx_handler`.
- Panic messages are kept without their formatted arguments.
- VideoVga.VgaFramebuffer.Fill: requires `ChannelsFit` and `FillFits` for in-range rectangles. So it does not model what the source does outside them: the u8/u16 overflows of the colour rounding and of `row * w`, which panic in a debug build and wrap in a release build, and the bounds-checked `scanline[col]` for `dst.x > 0`, which panics with "index out of bounds" after writing at most part of the first row.
- VideoVga.VgaFramebuffer.SetCrtc: requires `TimingFits`. So the u16 overflows of the `set_crtc` sums, which panic or wrap depending on the build, are not modelled.
- VideoVga.VgaPciDriver.Bind: `s_legacy_bound` is one static shared by every caller; the model holds it as a field of the driver object and so assumes a single driver instance.
- VideoVga.Col32ToU8: requires `ChannelsFit`, so the u8 rounding additions never overflow. In a debug build an overflow panics. In a release build it wraps: pure white gives 0xFF + 0x3F = 0x3E for red and 0xFF + 0x1F = 0x1E for green and blue, all of which shift to 0, so white packs to black (0x00).
