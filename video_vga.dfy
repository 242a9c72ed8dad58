/**
 * The legacy VGA driver: its PCI class match, the one-shot legacy binding,
 * the 640x480 mode table, the CRTC timing arithmetic, the 8:8:8 to 2:3:3
 * colour packing and the rectangle fill of the 320x240 8-bit framebuffer.
 * The register commit and the I/O ports are not modelled.
 */
module VideoVga {
  import opened Wrappers
  import opened Machine

  // ---- PCI matching ----

  const CLASS_MASK: bv32 := 0xFFFF_FF00
  const VGA_CLASS: bv32 := 0x0300_0000

  /**
   * Binding strength for a PCI device given its class register
   * (`[class] [subclass] [interface] [revision]`): 1, the weakest binding,
   * for a VGA-compatible display controller, otherwise 0.
   */
  function Handles(classcode: bv32): (strength: u32)
    ensures strength == 0 || strength == 1
    ensures strength == 1 <==>
      classcode >> 24 == 0x03 && (classcode >> 16) & 0xFF == 0 && (classcode >> 8) & 0xFF == 0
  {
    if classcode & CLASS_MASK == VGA_CLASS then 1 else 0
  }

  /** The revision byte never affects the match. */
  lemma HandlesIgnoresRevision(classcode: bv32, revision: bv32)
    requires revision < 0x100
    ensures Handles((classcode & CLASS_MASK) | revision) == Handles(classcode)
  {
  }

  // ---- CRTC registers and timings ----

  /** The values handed to each CRTC register setter. */
  datatype CrtcRegs = CrtcRegs(
    lineCompare: u16, screenStart: u16, bytePan: u16, offset: u16,
    hTotal: u16, hDispEnd: u16, hBlankStart: u16, hBlankLen: u16, hSyncStart: u16, hSyncEnd: u16,
    vTotal: u16, vDispEnd: u16, vBlankStart: u16, vBlankEnd: u16, vSyncStart: u16, vSyncEnd: u16)

  datatype CrtcAttrs = CrtcAttrs(
    frequency: u16,
    hFrontPorch: u16, hActive: u16, hBackPorch: u16, hSyncLen: u16,
    vFrontPorch: u16, vActive: u16, vBackPorch: u16, vSyncLen: u16)

  /** Pixels per scanline, blanking included. */
  function HorizontalTotal(a: CrtcAttrs): nat
  {
    a.hFrontPorch + a.hActive + a.hBackPorch
  }

  /** Lines per frame, blanking included. */
  function VerticalTotal(a: CrtcAttrs): nat
  {
    a.vFrontPorch + a.vActive + a.vBackPorch
  }

  const UNKNOWN_MODE_PANIC := Panic("TODO: Obtain CRTC attributes from resolution")

  /** The timing table: only 640x480 at 60 Hz is known. */
  function FromRes(w: u16, h: u16, freq: u16): (r: Result<CrtcAttrs, Panic>)
    ensures r.Success? <==> w == 640 && h == 480 && freq == 60
    ensures r.Failure? ==> r.error == UNKNOWN_MODE_PANIC
    ensures r.Success? ==>
      && r.value.hActive == w && r.value.vActive == h && r.value.frequency == freq
      && HorizontalTotal(r.value) == 800 && VerticalTotal(r.value) == 525
      && r.value.hSyncLen <= r.value.hFrontPorch && r.value.vSyncLen <= r.value.vFrontPorch
  {
    if (w, h, freq) == (640, 480, 60) then
      Success(CrtcAttrs(
        frequency := 60,
        hFrontPorch := 16 + 96,  // sync overlaps with the front porch
        hActive := 640,
        hBackPorch := 48,
        hSyncLen := 96,
        vFrontPorch := 10 + 2,
        vActive := 480,
        vBackPorch := 33,
        vSyncLen := 2))
    else
      Failure(UNKNOWN_MODE_PANIC)
  }

  /**
   * The u16 sums and the `+ 1`s of `set_crtc` do not overflow, and the
   * pixels-per-character divisor is positive.
   */
  predicate TimingFits(a: CrtcAttrs, pixPerChar: u16)
  {
    && pixPerChar > 0
    && HorizontalTotal(a) < 0x1_0000
    && CharCount(a.hActive, pixPerChar) + 1 < 0x1_0000
    && CharCount(a.hActive + a.hFrontPorch, pixPerChar) + a.hSyncLen < 0x1_0000
    && VerticalTotal(a) < 0x1_0000
    && a.vActive + 1 < 0x1_0000
    && a.vActive + a.vBackPorch + a.vSyncLen < 0x1_0000
  }

  /** A positive multiplier never shrinks a natural number. */
  lemma MulAtLeast(q: nat, d: nat)
    requires d > 0
    ensures q <= q * d
  {
  }

  /** Integer division by a positive divisor rounds down and never grows its operand. */
  lemma FloorDiv(x: nat, d: nat)
    requires d > 0
    ensures (x / d) * d <= x < (x / d + 1) * d
    ensures x / d <= x
  {
    var q, r := x / d, x % d;
    assert x == q * d + r;
    assert 0 <= r < d;
    assert (q + 1) * d == q * d + d;
    MulAtLeast(q, d);
  }

  /** Whole characters in a pixel width, as the integer division of `set_crtc` counts them. */
  function CharCount(pixels: nat, pixPerChar: u16): (n: nat)
    requires pixPerChar > 0
    ensures n <= pixels
  {
    FloorDiv(pixels, pixPerChar);
    pixels / pixPerChar
  }

  /** A character count is the width rounded down to whole characters. */
  lemma CharCountRoundsDown(pixels: nat, pixPerChar: u16)
    requires pixPerChar > 0
    ensures CharCount(pixels, pixPerChar) * pixPerChar <= pixels
              < (CharCount(pixels, pixPerChar) + 1) * pixPerChar
  {
    FloorDiv(pixels, pixPerChar);
  }

  /** The register values `set_crtc` computes from a timing. */
  function CrtcTiming(a: CrtcAttrs, pixPerChar: u16): (regs: CrtcRegs)
    requires TimingFits(a, pixPerChar)
    ensures regs.lineCompare == 0 && regs.screenStart == 0 && regs.bytePan == 0 && regs.offset == a.hActive
    ensures regs.hTotal == CharCount(HorizontalTotal(a), pixPerChar)
    ensures regs.hDispEnd == CharCount(a.hActive, pixPerChar)
    ensures regs.hBlankStart > regs.hDispEnd && regs.hBlankStart == regs.hDispEnd + 1
    ensures regs.hSyncEnd < 32 && regs.vSyncEnd < 32
    ensures regs.vTotal == VerticalTotal(a) && regs.vDispEnd == a.vActive
    ensures regs.vBlankStart == regs.vDispEnd + 1
  {
    var hSyncStart := CharCount(a.hActive + a.hFrontPorch, pixPerChar);
    var vSyncStart := a.vActive + a.vBackPorch;
    CrtcRegs(
      lineCompare := 0,
      screenStart := 0,
      bytePan := 0,
      offset := a.hActive * 1,
      hTotal := CharCount(HorizontalTotal(a), pixPerChar),
      hDispEnd := CharCount(a.hActive, pixPerChar),
      hBlankStart := CharCount(a.hActive, pixPerChar) + 1,
      hBlankLen := CharCount(a.hFrontPorch + a.hBackPorch, pixPerChar),
      hSyncStart := hSyncStart,
      hSyncEnd := CharCount(hSyncStart + a.hSyncLen, pixPerChar) % 32,  // & 31
      vTotal := VerticalTotal(a),
      vDispEnd := a.vActive,
      vBlankStart := a.vActive + 1,
      vBlankEnd := a.vFrontPorch + a.vBackPorch,
      vSyncStart := vSyncStart,
      vSyncEnd := (vSyncStart + a.vSyncLen) % 32)  // & 31
  }

  /**
   * The horizontal registers count whole characters: the total and the
   * display end are the character counts of the pixel widths, rounded down.
   */
  lemma CrtcTimingRoundsDown(a: CrtcAttrs, pixPerChar: u16)
    requires TimingFits(a, pixPerChar)
    ensures CrtcTiming(a, pixPerChar).hTotal * pixPerChar <= HorizontalTotal(a)
              < (CrtcTiming(a, pixPerChar).hTotal + 1) * pixPerChar
    ensures CrtcTiming(a, pixPerChar).hDispEnd * pixPerChar <= a.hActive
              < (CrtcTiming(a, pixPerChar).hDispEnd + 1) * pixPerChar
  {
    CharCountRoundsDown(HorizontalTotal(a), pixPerChar);
    CharCountRoundsDown(a.hActive, pixPerChar);
  }

  /** The only known mode fits the arithmetic, whatever the character width. */
  lemma StandardModeFits(pixPerChar: u16)
    requires pixPerChar > 0
    ensures FromRes(640, 480, 60).Success? && TimingFits(FromRes(640, 480, 60).value, pixPerChar)
  {
  }

  // ---- Colour packing ----

  function Red8(colour: u32): u8 { (colour / 0x1_0000) % 0x100 }
  function Green8(colour: u32): u8 { (colour / 0x100) % 0x100 }
  function Blue8(colour: u32): u8 { colour % 0x100 }

  /** The u8 additions that round each channel do not overflow. */
  predicate ChannelsFit(colour: u32)
  {
    Red8(colour) <= 0xC0 && Green8(colour) <= 0xE0 && Blue8(colour) <= 0xE0
  }

  /**
   * 8:8:8 RGB to 2:3:3 RGB, each channel rounded up: the red field is the
   * least multiple of 64 not below the red byte, green and blue the least
   * multiples of 32.
   */
  function Col32ToU8(colour: u32): (v: u8)
    requires ChannelsFit(colour)
    ensures Red8(colour) <= (v / 64) * 64 < Red8(colour) + 64
    ensures Green8(colour) <= ((v / 8) % 8) * 32 < Green8(colour) + 32
    ensures Blue8(colour) <= (v % 8) * 32 < Blue8(colour) + 32
  {
    var r2 := (Red8(colour) + 0x3F) / 64;    // >> (8-2)
    var g3 := (Green8(colour) + 0x1F) / 32;  // >> (8-3)
    var b3 := (Blue8(colour) + 0x1F) / 32;   // >> (8-3)
    UnpackFields(r2, g3, b3);
    r2 * 64 + g3 * 8 + b3  // the three fields occupy disjoint bits, so `|` is `+`
  }

  /** The 2:3:3 fields can be read back from the packed byte. */
  lemma UnpackFields(r2: nat, g3: nat, b3: nat)
    requires r2 < 4 && g3 < 8 && b3 < 8
    ensures (r2 * 64 + g3 * 8 + b3) / 64 == r2
    ensures ((r2 * 64 + g3 * 8 + b3) / 8) % 8 == g3
    ensures (r2 * 64 + g3 * 8 + b3) % 8 == b3
  {
  }

  /** The three shifted fields are disjoint, so or-ing them is adding them. */
  lemma PackingOrIsSum(r2: bv8, g3: bv8, b3: bv8)
    requires r2 < 4 && g3 < 8 && b3 < 8
    ensures (r2 << 6) | (g3 << 3) | b3 == r2 * 64 + g3 * 8 + b3
  {
  }

  /** Pure white (and anything with a red byte above 0xC0) overflows the rounding. */
  lemma WhiteOverflows()
    ensures !ChannelsFit(0xFF_FFFF)
    ensures ChannelsFit(0xC0_E0E0) && Col32ToU8(0xC0_E0E0) == 0xFF
  {
  }

  // ---- The framebuffer ----

  /** The VGA window 0xA0000..0xC0000: 0x20 pages of 4 KiB. */
  const WINDOW_BYTES: nat := 0x2_0000
  const LEGACY_IO_BASE: u16 := 0x3B0

  datatype Rect = Rect(x: u16, y: u16, w: u16, h: u16)

  /** The rectangle lies inside a `width` x `height` surface. */
  predicate Within(r: Rect, width: int, height: int)
  {
    r.x + r.w <= width && r.y + r.h <= height
  }

  /** Framebuffer byte `i`, on a surface `stride` bytes wide, lies in `dst`. */
  predicate InRect(dst: Rect, stride: nat, i: int)
    requires stride > 0
  {
    dst.y <= i / stride < dst.y + dst.h && dst.x <= i % stride < dst.x + dst.w
  }

  /** `s` with every byte of `dst` set to `c` and every other byte kept. */
  function Painted(s: seq<u8>, dst: Rect, stride: nat, c: u8): (t: seq<u8>)
    requires stride > 0
  {
    seq(|s|, i requires 0 <= i < |s| => if InRect(dst, stride, i) then c else s[i])
  }

  /** Filling the same rectangle again with the same colour changes nothing. */
  lemma PaintedIdempotent(s: seq<u8>, dst: Rect, stride: nat, c: u8)
    requires stride > 0
    ensures Painted(Painted(s, dst, stride, c), dst, stride, c) == Painted(s, dst, stride, c)
  {
  }

  /**
   * The u16 arithmetic and the scanline slicing of `fill` stay in range: the
   * slice of each row is `dst.w` long but is indexed by absolute column, so
   * the rectangle must start at column 0 (or be empty), and `row * stride`
   * must fit in u16 for every row.
   */
  predicate FillFits(dst: Rect, stride: nat)
  {
    (dst.x == 0 || dst.w == 0) && (dst.h == 0 || (dst.y + dst.h - 1) * stride < 0x1_0000)
  }

  /** A full-screen fill of the 320x240 mode overflows `row * w` (from row 205 on). */
  lemma FullScreenFillOverflows()
    ensures Within(Rect(0, 0, 320, 240), 320, 240) && !FillFits(Rect(0, 0, 320, 240), 320)
    ensures FillFits(Rect(0, 0, 320, 205), 320) && !FillFits(Rect(0, 0, 320, 206), 320)
  {
  }

  const FILL_ASSERT_PANIC := Panic("assertion failed: dst.within(self.w as u16, self.h as u16)")
  const FREQUENCY_TODO_PANIC := Panic("TODO: Set/check firequency")

  class VgaFramebuffer {
    const ioBase: u16
    const window: array<u8>
    var crtc: CrtcRegs
    const w: u16 := 320
    const h: u16 := 240

    /** The window spans the whole 0xA0000..0xC0000 aperture. */
    ghost predicate Valid()
      reads this
    {
      window.Length == WINDOW_BYTES
    }

    /** `loaded` is what the CRTC registers held when read from the hardware. */
    constructor (base: u16, loaded: CrtcRegs)
      ensures Valid() && fresh(window)
      ensures ioBase == base && crtc == loaded
    {
      ioBase := base;
      window := new u8[WINDOW_BYTES];
      crtc := loaded;
    }

    /** The whole surface: the largest rectangle within it, at the origin. */
    function GetSize(): (r: Rect)
      reads this
      ensures r.x == 0 && r.y == 0 && Within(r, w, h)
      ensures forall d :: Within(d, w, h) ==> d.w <= r.w && d.h <= r.h
    {
      Rect(0, 0, w, h)
    }

    /** The size cannot be changed. */
    method SetSize(newSize: Rect) returns (changed: bool)
      ensures !changed
    {
      changed := false;
    }

    /** Program the CRTC for a timing; the call then always stops in a panic. */
    method SetCrtc(attrs: CrtcAttrs, pixPerChar: u16) returns (p: Panic)
      requires TimingFits(attrs, pixPerChar)
      modifies this`crtc
      ensures crtc == CrtcTiming(attrs, pixPerChar)
      ensures p == FREQUENCY_TODO_PANIC
    {
      crtc := crtc.(lineCompare := 0, screenStart := 0, bytePan := 0);
      crtc := crtc.(offset := attrs.hActive * 1);

      var hTotal := CharCount(attrs.hFrontPorch + attrs.hActive + attrs.hBackPorch, pixPerChar);
      crtc := crtc.(hTotal := hTotal);
      var hDispEnd := CharCount(attrs.hActive, pixPerChar);
      crtc := crtc.(hDispEnd := hDispEnd);
      crtc := crtc.(hBlankStart := hDispEnd + 1);
      var hBlankLen := CharCount(attrs.hFrontPorch + attrs.hBackPorch, pixPerChar);
      crtc := crtc.(hBlankLen := hBlankLen);
      var hSyncStart := CharCount(attrs.hActive + attrs.hFrontPorch, pixPerChar);
      crtc := crtc.(hSyncStart := hSyncStart);
      var hSyncEnd := CharCount(hSyncStart + attrs.hSyncLen, pixPerChar) % 32;
      crtc := crtc.(hSyncEnd := hSyncEnd);

      var vTotal := attrs.vFrontPorch + attrs.vActive + attrs.vBackPorch;
      crtc := crtc.(vTotal := vTotal);
      var vDispEnd := attrs.vActive;
      crtc := crtc.(vDispEnd := vDispEnd);
      crtc := crtc.(vBlankStart := vDispEnd + 1);
      var vBlankEnd := attrs.vFrontPorch + attrs.vBackPorch;
      crtc := crtc.(vBlankEnd := vBlankEnd);
      var vSyncStart := attrs.vActive + attrs.vBackPorch;
      crtc := crtc.(vSyncStart := vSyncStart);
      var vSyncEnd := (vSyncStart + attrs.vSyncLen) % 32;
      crtc := crtc.(vSyncEnd := vSyncEnd);

      p := FREQUENCY_TODO_PANIC;
    }

    /** Activation asks for 320x240 at 60 Hz, which the table lacks: it always panics, changing nothing. */
    method Activate() returns (p: Panic)
      ensures p == UNKNOWN_MODE_PANIC
    {
      var attrs := FromRes(320, 240, 60);
      match attrs {
        case Failure(e) => p := e;
      }
    }

    /**
     * Paint `dst` with `colour` packed to 2:3:3. A rectangle outside the
     * surface fails the assertion before anything is written.
     */
    method Fill(dst: Rect, colour: u32) returns (r: Result<(), Panic>)
      requires Valid()
      requires Within(dst, w, h) ==> ChannelsFit(colour) && FillFits(dst, w)
      modifies window
      ensures r.Failure? <==> !Within(dst, w, h)
      ensures r.Failure? ==> r.error == FILL_ASSERT_PANIC && window[..] == old(window[..])
      ensures r.Success? ==> window[..] == Painted(old(window[..]), dst, w, Col32ToU8(colour))
    {
      if !Within(dst, w, h) {
        return Failure(FILL_ASSERT_PANIC);
      }
      var colourVal := Col32ToU8(colour);
      for row := dst.y to dst.y + dst.h
        invariant forall i :: 0 <= i < window.Length ==>
          window[i] == if InRect(dst.(h := row - dst.y), w, i) then colourVal else old(window[i])
      {
        var offset: u16 := row * w;
        assert offset + dst.w <= window.Length;  // the scanline slice fits in the window
        for col := dst.x to dst.x + dst.w
          invariant forall i :: 0 <= i < window.Length ==>
            window[i] == if InRect(dst.(h := row - dst.y), w, i) || (i / w == row && dst.x <= i % w < col)
                         then colourVal else old(window[i])
        {
          assert col < dst.w;  // the index into the scanline slice is in bounds
          window[offset + col] := colourVal;
        }
      }
      r := Success(());
    }
  }

  const DUPLICATE_BIND_PANIC := Panic("Duplicate binding of legacy VGA")

  /** The PCI driver; `legacyBound` is the one-shot static `s_legacy_bound`. */
  class VgaPciDriver {
    var legacyBound: bool

    constructor ()
      ensures !legacyBound
    {
      legacyBound := false;
    }

    /** The first bind creates the legacy framebuffer at 0x3B0; every later one panics. */
    method Bind(loaded: CrtcRegs) returns (r: Result<VgaFramebuffer, Panic>)
      modifies this
      ensures legacyBound
      ensures r.Failure? <==> old(legacyBound)
      ensures r.Failure? ==> r.error == DUPLICATE_BIND_PANIC
      ensures r.Success? ==>
        fresh(r.value) && fresh(r.value.window) && r.value.Valid() &&
        r.value.ioBase == LEGACY_IO_BASE && r.value.crtc == loaded
    {
      var wasBound := legacyBound;
      legacyBound := true;
      if wasBound {
        return Failure(DUPLICATE_BIND_PANIC);
      }
      var fb := new VgaFramebuffer(LEGACY_IO_BASE, loaded);
      r := Success(fb);
    }
  }
}
