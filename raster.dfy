/** The slice of PIL the compositor relies on. Pixel contents are never computed: a
    `Pixels` term records which operations produced an image, so that a layout can be
    checked without modelling alpha blending, resampling or glyph rendering. */
module Raster {
  import opened Wrappers
  import opened Errors
  import Base64

  type byte = Base64.byte

  /** The image modes the application meets; CMYK stands for the modes PNG cannot hold. */
  datatype Mode = RGBA | RGB | L | P | CMYK

  datatype Color = Color(red: byte, green: byte, blue: byte)

  const White := Color(255, 255, 255)

  datatype Font = TrueType(path: string, size: nat) | DefaultFont

  /** The text bounding box `(left, top, right, bottom)` reported by `ImageDraw.textbbox`. */
  datatype Box = Box(left: int, top: int, right: int, bottom: int)

  datatype Pixels =
    | Loaded(origin: string)
    | Decoded(data: seq<byte>)
    | Filled(color: Color)
    | Converted(source: Pixels, from: Mode, to: Mode)
    | Resampled(source: Pixels, width: nat, height: nat)
    | Composited(under: Pixels, over: Pixels)
    | Pasted(base: Pixels, top: Pixels, x: int, y: int, masked: bool)
    | Lettered(base: Pixels, x: int, y: int, text: string, font: Font, fill: Color)

  /** What an `Image` holds at one moment. */
  datatype View = View(mode: Mode, width: nat, height: nat, pixels: Pixels)

  /** `im.convert(mode)`: a new image; converting to the image's own mode copies it. */
  function ConvertView(v: View, mode: Mode): (r: View)
    ensures r.mode == mode && r.width == v.width && r.height == v.height
    ensures v.mode == mode ==> r == v
  {
    if v.mode == mode then v
    else View(mode, v.width, v.height, Converted(v.pixels, v.mode, mode))
  }

  /** `im.resize(size)`: a new image; resizing to the current size copies it. */
  function ResizeView(v: View, width: nat, height: nat): (r: View)
    ensures r.mode == v.mode && r.width == width && r.height == height
    ensures v.width == width && v.height == height ==> r == v
  {
    if v.width == width && v.height == height then v
    else View(v.mode, width, height, Resampled(v.pixels, width, height))
  }

  /** `Image.alpha_composite(a, b)`: both images must be RGBA and of one size. */
  function CompositeView(a: View, b: View): (r: Result<View, Error>)
    ensures r.Success? <==> a.mode == RGBA && b.mode == RGBA && a.width == b.width && a.height == b.height
    ensures r.Success? ==> r.value == View(RGBA, a.width, a.height, Composited(a.pixels, b.pixels))
  {
    if a.mode != RGBA || b.mode != RGBA then Failure(Exception("ValueError", "image has wrong mode"))
    else if a.width != b.width || a.height != b.height then Failure(Exception("ValueError", "images do not match"))
    else Success(View(RGBA, a.width, a.height, Composited(a.pixels, b.pixels)))
  }

  /** `base.paste(top, (x, y), mask)`: the base keeps its mode and size. */
  function PasteView(base: View, top: View, x: int, y: int, masked: bool): View
  {
    View(base.mode, base.width, base.height, Pasted(base.pixels, top.pixels, x, y, masked))
  }

  /** Drawing `text` at `(x, y)`: the image keeps its mode and size. */
  function LetterView(base: View, x: int, y: int, text: string, font: Font, fill: Color): View
  {
    View(base.mode, base.width, base.height, Lettered(base.pixels, x, y, text, font, fill))
  }

  /** An image in memory, updated in place by `paste` and by drawing on it. */
  class Image {
    var mode: Mode
    var width: nat
    var height: nat
    var pixels: Pixels

    function Snapshot(): View
      reads this
    {
      View(mode, width, height, pixels)
    }

    constructor(v: View)
      ensures Snapshot() == v
    {
      mode, width, height, pixels := v.mode, v.width, v.height, v.pixels;
    }

    /** `Image.new(mode, size, color)`. */
    constructor Filled(mode: Mode, width: nat, height: nat, color: Color)
      ensures Snapshot() == View(mode, width, height, Pixels.Filled(color))
    {
      this.mode, this.width, this.height, this.pixels := mode, width, height, Pixels.Filled(color);
    }

    method Copy() returns (c: Image)
      ensures fresh(c) && c.Snapshot() == Snapshot()
    {
      c := new Image(Snapshot());
    }

    method Convert(m: Mode) returns (c: Image)
      ensures fresh(c) && c.Snapshot() == ConvertView(Snapshot(), m)
    {
      c := new Image(ConvertView(Snapshot(), m));
    }

    method Resize(w: nat, h: nat) returns (c: Image)
      ensures fresh(c) && c.Snapshot() == ResizeView(Snapshot(), w, h)
    {
      c := new Image(ResizeView(Snapshot(), w, h));
    }

    /** `im.paste(top, (x, y), mask)`; with `masked` the mask is the alpha band of `top`. */
    method Paste(top: View, x: int, y: int, masked: bool)
      modifies this
      ensures Snapshot() == PasteView(old(Snapshot()), top, x, y, masked)
    {
      pixels := Pasted(pixels, top.pixels, x, y, masked);
    }

    /** `ImageDraw.Draw(im).text((x, y), text, font, fill)`. */
    method DrawText(x: int, y: int, text: string, font: Font, fill: Color)
      modifies this
      ensures Snapshot() == LetterView(old(Snapshot()), x, y, text, font, fill)
    {
      pixels := Lettered(pixels, x, y, text, font, fill);
    }
  }

  /** `Image.alpha_composite(a, b)` on images: a new image or a ValueError. */
  method AlphaComposite(a: Image, b: Image) returns (r: Result<Image, Error>)
    ensures CompositeView(a.Snapshot(), b.Snapshot()).Success? <==> r.Success?
    ensures r.Success? ==> fresh(r.value) && r.value.Snapshot() == CompositeView(a.Snapshot(), b.Snapshot()).value
    ensures r.Failure? ==> r.error == CompositeView(a.Snapshot(), b.Snapshot()).error
  {
    var v := CompositeView(a.Snapshot(), b.Snapshot());
    if v.Failure? {
      return Failure(v.error);
    }
    var c := new Image(v.value);
    return Success(c);
  }
}
