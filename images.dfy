/** Images as the core sees them: a rectangle of pixels whose channels are reported in 16 bits. */
module Images {

  /** A colour channel as `RGBA()` reports it: 0..65535. */
  type Channel = c: int | 0 <= c < 0x1_0000

  /** An 8-bit value (Go's `uint8`). */
  type Byte = b: int | 0 <= b < 0x100

  datatype Color = Color(r: Channel, g: Channel, b: Channel, a: Channel)

  /** What `image.RGBA`, `image.NRGBA` and `image.RGBA64` return for a coordinate outside their bounds. */
  const Transparent: Color := Color(0, 0, 0, 0)

  /** Rows of pixels; row `j` holds the pixels with y == minY + j. */
  datatype RawImage = RawImage(minX: int, minY: int, width: nat, height: nat, rows: seq<seq<Color>>)

  predicate Rectangular(img: RawImage) {
    |img.rows| == img.height && forall j :: 0 <= j < |img.rows| ==> |img.rows[j]| == img.width
  }

  /** An image whose bounds are [minX, minX + width) x [minY, minY + height). */
  type Image = img: RawImage | Rectangular(img) witness RawImage(0, 0, 0, 0, [])

  predicate InBounds(img: Image, x: int, y: int) {
    img.minX <= x < img.minX + img.width && img.minY <= y < img.minY + img.height
  }

  /** The colour at (x, y); transparent black outside the bounds. */
  function At(img: Image, x: int, y: int): Color {
    if InBounds(img, x, y) then img.rows[y - img.minY][x - img.minX] else Transparent
  }

  /** `c >> 8`: the high byte of a 16-bit channel. */
  function High8(c: Channel): (b: Byte)
    ensures b * 0x100 <= c < b * 0x100 + 0x100
  {
    c / 0x100
  }

  /** Principal point used by the core: the centre of the image, width/2 and height/2. */
  function CenterX(img: Image): real { img.width as real / 2.0 }
  function CenterY(img: Image): real { img.height as real / 2.0 }

  /** What a camera's `Images` call yields: an error, or the images and their capture time (nanoseconds). */
  datatype Capture = CaptureFailed(cause: string) | Captured(images: seq<Image>, capturedAt: int)
}
