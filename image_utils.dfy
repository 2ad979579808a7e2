/**
 * The integer part of `ImageUtils`: the centre-crop rectangle, the channel
 * extraction from a packed ARGB pixel, and the loop that lays the pixels out
 * NHWC in a freshly allocated buffer of floats. Decoding and scaling the
 * bitmap are black boxes: the scaled bitmap's pixels are the input.
 */
module ImageUtils {

  /** Kotlin's `Int`. */
  newtype Int32 = x: int | -0x8000_0000 <= x < 0x8000_0000

  /** What `centerCrop` returns: the source bitmap itself, or a square cut out of it. */
  datatype Crop = Whole | Square(x: int, y: int, size: int)

  /**
   * `centerCrop`: a square source is returned as it is; otherwise the
   * largest square that fits, centred (Kotlin's `/` truncates, which for
   * these non-negative operands is Dafny's `/`).
   */
  function CenterCrop(w: int, h: int): (c: Crop)
    requires w > 0 && h > 0
    ensures c.Whole? <==> w == h
    ensures c.Square? ==>
      && c.size == (if w < h then w else h)
      && 0 <= c.x && c.x + c.size <= w
      && 0 <= c.y && c.y + c.size <= h
      && (c.x == 0 || c.y == 0)
      && c.x <= w - c.size - c.x <= c.x + 1
      && c.y <= h - c.size - c.y <= c.y + 1
  {
    if w == h then Whole
    else
      var size := if w < h then w else h;
      Square((w - size) / 2, (h - size) / 2, size)
  }

  /** `(c shr 16) and 0xFF`: an arithmetic shift is a floor division, and the mask keeps the low byte. */
  function Red(c: Int32): (v: int)
    ensures 0 <= v <= 255
  {
    (c as int / 0x1_0000) % 0x100
  }

  /** `(c shr 8) and 0xFF` */
  function Green(c: Int32): (v: int)
    ensures 0 <= v <= 255
  {
    (c as int / 0x100) % 0x100
  }

  /** `c and 0xFF` */
  function Blue(c: Int32): (v: int)
    ensures 0 <= v <= 255
  {
    c as int % 0x100
  }

  /** The channel written at offset `ch` (0 red, 1 green, 2 blue) of a pixel's three values. */
  function Channel(c: Int32, ch: nat): int
    requires ch < 3
  {
    if ch == 0 then Red(c) else if ch == 1 then Green(c) else Blue(c)
  }

  /** The Int a bitmap stores for the colour (alpha, red, green, blue): 0xAARRGGBB read as a signed 32-bit value. */
  function Argb(a: int, r: int, g: int, b: int): Int32
    requires 0 <= a < 256 && 0 <= r < 256 && 0 <= g < 256 && 0 <= b < 256
  {
    var u := a * 0x100_0000 + r * 0x1_0000 + g * 0x100 + b;
    (if u < 0x8000_0000 then u else u - 0x1_0000_0000) as Int32
  }

  lemma DivMod256(q: int, r: int)
    requires 0 <= r < 0x100
    ensures (q * 0x100 + r) / 0x100 == q && (q * 0x100 + r) % 0x100 == r
  {
  }

  lemma DivMod65536(q: int, r: int)
    requires 0 <= r < 0x1_0000
    ensures (q * 0x1_0000 + r) / 0x1_0000 == q
  {
  }

  lemma DivMod3(q: int, r: int)
    requires 0 <= r < 3
    ensures (q * 3 + r) / 3 == q && (q * 3 + r) % 3 == r
  {
  }

  /** Channel extraction undoes the packing: a colour's three channels come back out unchanged. */
  lemma ChannelsOfArgb(a: int, r: int, g: int, b: int)
    requires 0 <= a < 256 && 0 <= r < 256 && 0 <= g < 256 && 0 <= b < 256
    ensures Red(Argb(a, r, g, b)) == r
    ensures Green(Argb(a, r, g, b)) == g
    ensures Blue(Argb(a, r, g, b)) == b
  {
    // a signed value differs from its unsigned reading by 2^32 = 256 * 2^24
    var a' := if a < 128 then a else a - 256;
    var c := Argb(a, r, g, b) as int;
    assert c == a' * 0x100_0000 + r * 0x1_0000 + g * 0x100 + b;
    assert c == (a' * 0x100 + r) * 0x1_0000 + (g * 0x100 + b);
    DivMod65536(a' * 0x100 + r, g * 0x100 + b);
    DivMod256(a', r);
    assert c == (a' * 0x1_0000 + r * 0x100 + g) * 0x100 + b;
    DivMod256(a' * 0x1_0000 + r * 0x100 + g, b);
    assert a' * 0x1_0000 + r * 0x100 + g == (a' * 0x100 + r) * 0x100 + g;
    DivMod256(a' * 0x100 + r, g);
  }

  /** The NHWC layout of the pixels: three channel values per pixel, pixel after pixel. */
  function Packed(pixels: seq<Int32>): (v: seq<int>)
    ensures |v| == 3 * |pixels|
  {
    seq(3 * |pixels|, j requires 0 <= j < 3 * |pixels| => Channel(pixels[j / 3], j % 3))
  }

  /** Pixel `i`'s channel `ch` sits at offset `3 * i + ch`. */
  lemma PackedAt(pixels: seq<Int32>, i: nat, ch: nat)
    requires i < |pixels| && ch < 3
    ensures 3 * i + ch < |Packed(pixels)|
    ensures Packed(pixels)[3 * i + ch] == Channel(pixels[i], ch)
  {
    DivMod3(i, ch);
  }

  /** Pixel (x, y) of a W-wide image has its channel `ch` at offset `(y * W + x) * 3 + ch`. */
  lemma PackedIsNhwc(pixels: seq<Int32>, w: nat, h: nat, x: nat, y: nat, ch: nat)
    requires |pixels| == w * h && x < w && y < h && ch < 3
    ensures y * w + x < |pixels|
    ensures (y * w + x) * 3 + ch < |Packed(pixels)|
    ensures Packed(pixels)[(y * w + x) * 3 + ch] == Channel(pixels[y * w + x], ch)
  {
    var i := y * w + x;
    assert y * w + x < (y + 1) * w <= h * w;
    PackedAt(pixels, i, ch);
  }

  /**
   * A `ByteBuffer` written with `putFloat`: `capacity` bytes, one slot per
   * 4-byte float, and the byte `position`. A slot holds the channel value
   * that the source divides by 255 before writing; the division is not part
   * of this model.
   */
  class FloatBuffer {
    const capacity: nat
    const data: array<int>
    var position: nat

    ghost predicate Valid()
      reads this
    {
      data.Length == capacity / 4 && position % 4 == 0 && position <= capacity
    }

    /** `ByteBuffer.allocateDirect(capacity)` */
    constructor Allocate(capacity: nat)
      ensures Valid() && fresh(data)
      ensures this.capacity == capacity && position == 0
    {
      this.capacity := capacity;
      data := new int[capacity / 4];
      position := 0;
    }

    /** `putFloat(v)`: writes the slot at the position and advances it by four bytes. */
    method PutFloat(v: int)
      requires Valid() && position + 4 <= capacity
      modifies this, data
      ensures Valid()
      ensures position == old(position) + 4
      ensures data[..] == old(data[..])[old(position) / 4 := v]
    {
      data[position / 4] := v;
      position := position + 4;
    }

    /** `rewind()` */
    method Rewind()
      modifies this
      ensures position == 0
    {
      position := 0;
    }
  }

  /** The three `putFloat` calls for one pixel. */
  method PutPixel(input: FloatBuffer, c: Int32)
    requires input.Valid() && input.position + 12 <= input.capacity
    modifies input, input.data
    ensures input.Valid()
    ensures input.position == old(input.position) + 12
    ensures var k := old(input.position) / 4;
      input.data[..] == old(input.data[..])[k := Red(c)][k + 1 := Green(c)][k + 2 := Blue(c)]
  {
    input.PutFloat(Red(c));
    input.PutFloat(Green(c));
    input.PutFloat(Blue(c));
  }

  /** Values `0 .. 3 * n` of the buffer hold the packing of the first `n` pixels. */
  ghost predicate FilledUpTo(input: FloatBuffer, pixels: seq<Int32>, n: nat)
    reads input, input.data
    requires n <= |pixels| && 3 * n <= input.data.Length
  {
    forall j :: 0 <= j < 3 * n ==> input.data[j] == Packed(pixels)[j]
  }

  /** The inner loop of `preprocess`: the `dstW` pixels of one row, starting at the running index `i`. */
  method PutRow(input: FloatBuffer, pixels: seq<Int32>, i0: nat, dstW: nat) returns (i: nat)
    requires input.Valid() && input.capacity == 12 * |pixels|
    requires i0 + dstW <= |pixels| && input.position == 12 * i0
    requires FilledUpTo(input, pixels, i0)
    modifies input, input.data
    ensures input.Valid() && i == i0 + dstW && input.position == 12 * i
    ensures FilledUpTo(input, pixels, i)
  {
    i := i0;
    for x := 0 to dstW
      invariant i == i0 + x
      invariant input.Valid() && input.position == 12 * i
      invariant FilledUpTo(input, pixels, i)
    {
      var c := pixels[i];
      i := i + 1;
      PutPixel(input, c);
      PackedAt(pixels, i - 1, 0);
      PackedAt(pixels, i - 1, 1);
      PackedAt(pixels, i - 1, 2);
    }
  }

  lemma CapacityOfImage(w: nat, h: nat)
    ensures 4 * w * h * 3 == 12 * (w * h)
  {
  }

  lemma RowFits(y: nat, w: nat, h: nat)
    requires y < h
    ensures y * w + w == (y + 1) * w <= h * w == w * h
  {
  }

  /**
   * The buffer-filling part of `preprocess`: a buffer of exactly
   * `4 * dstW * dstH * 3` bytes, filled row by row with three values per
   * pixel until it is full, then rewound.
   */
  method Preprocess(pixels: seq<Int32>, dstW: nat, dstH: nat) returns (input: FloatBuffer, filled: nat)
    requires |pixels| == dstW * dstH
    ensures fresh(input) && fresh(input.data) && input.Valid()
    ensures input.capacity == 4 * dstW * dstH * 3
    ensures filled == input.capacity
    ensures input.position == 0
    ensures input.data[..] == Packed(pixels)
  {
    CapacityOfImage(dstW, dstH);
    input := new FloatBuffer.Allocate(4 * dstW * dstH * 3);
    var i := 0;
    for y := 0 to dstH
      invariant i == y * dstW
      invariant input.Valid() && input.capacity == 12 * |pixels| && input.position == 12 * i
      invariant fresh(input.data)
      invariant FilledUpTo(input, pixels, i)
    {
      RowFits(y, dstW, dstH);
      i := PutRow(input, pixels, i, dstW);
    }
    assert i == |pixels|;
    filled := input.position;
    input.Rewind();
  }
}
