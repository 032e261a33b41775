/** The compositor (services/image_service.py): decorative overlay, logo and footer text laid
    over a generated picture, the PNG/base64 encoding of the result, and logo normalisation. */
module ImageService {
  import opened Wrappers
  import opened Errors
  import opened Raster
  import opened Docs
  import Base64

  const ImageSize := 1024
  const LogoSize := 120
  const LogoPadding := 20
  const UserLogoSize := 150
  const FooterElevation := 40
  const FooterFontSize := 24
  const FooterTextColor := White
  const FontPath := "GoogleSans_17pt-SemiBold.ttf"
  const DefaultPhoneNumber := "8299396255"
  const DefaultFooterText := "+91 8299396255   |   ANDROCODERS21@GMAIL.COM   |   ANDROCODERS.IN"

  /** What the compositor reads from its surroundings: the overlay and default logo files,
      whether the TrueType font loads, the image decoder, the text measurer and the PNG
      encoder. */
  datatype Assets = Assets(
    overlayFile: Result<View, Error>,
    logoFile: Result<View, Error>,
    fontLoads: bool,
    open: seq<byte> -> Result<View, Error>,
    textBox: (Font, string) -> Box,
    png: View -> seq<byte>)

  /** Layer 2: the overlay file as RGBA, resized only when it is not already full size. */
  function OverlayLayer(a: Assets): (r: Result<View, Error>)
    ensures r.Success? <==> a.overlayFile.Success?
    ensures r.Failure? ==> r.error == a.overlayFile.error
    ensures r.Success? ==> r.value.mode == RGBA && r.value.width == ImageSize && r.value.height == ImageSize
    ensures r.Success? ==>
              var loaded := ConvertView(a.overlayFile.value, RGBA);
              (r.value == loaded <==> loaded.width == ImageSize && loaded.height == ImageSize)
  {
    var file :- a.overlayFile;
    var loaded := ConvertView(file, RGBA);
    if loaded.width != ImageSize || loaded.height != ImageSize
    then Success(ResizeView(loaded, ImageSize, ImageSize))
    else Success(loaded)
  }

  /** Layer 3's source: the caller's logo bytes when truthy, otherwise the default logo
      file, whose failure to load silently means no logo. */
  function LogoChoice(logoData: Value, a: Assets): (r: Result<Option<View>, Error>)
    ensures !Truthy(logoData) ==> r.Success?
    ensures !Truthy(logoData) ==> (r.value.Some? <==> a.logoFile.Success?)
    ensures !Truthy(logoData) && a.logoFile.Success? ==> r.value == Some(ConvertView(a.logoFile.value, RGBA))
    ensures Truthy(logoData) && logoData.VBytes? ==> (r.Success? <==> a.open(logoData.b).Success?)
    ensures Truthy(logoData) && logoData.VBytes? && r.Success? ==>
              r.value == Some(ConvertView(a.open(logoData.b).value, RGBA))
    ensures Truthy(logoData) && !logoData.VBytes? ==> r.Failure? && r.error == TypeError("a bytes-like object is required, not '" + TypeName(logoData) + "'")
    ensures r.Success? && r.value.Some? ==> r.value.value.mode == RGBA
  {
    if Truthy(logoData) then
      if logoData.VBytes? then
        var decoded :- a.open(logoData.b);
        Success(Some(ConvertView(decoded, RGBA)))
      else Failure(TypeError("a bytes-like object is required, not '" + TypeName(logoData) + "'"))
    else if a.logoFile.Success? then Success(Some(ConvertView(a.logoFile.value, RGBA)))
    else Success(None)
  }

  /** The TrueType footer font, or PIL's default font when it cannot be loaded. */
  function FooterFont(a: Assets): (f: Font)
    ensures a.fontLoads <==> f == TrueType(FontPath, FooterFontSize)
    ensures !a.fontLoads ==> f == DefaultFont
  {
    if a.fontLoads then TrueType(FontPath, FooterFontSize) else DefaultFont
  }

  /** Where the footer's top-left corner goes for a measured bounding box. */
  function FooterPosition(box: Box): (int, int)
  {
    var w := box.right - box.left;
    var h := box.bottom - box.top;
    ((ImageSize - w) / 2, ImageSize - FooterElevation - h)
  }

  /** The footer is centred: the margin on its right equals the margin on its left or
      exceeds it by one (floor division), and its bottom sits FOOTER_ELEVATION above the
      lower edge. */
  lemma FooterCentred(box: Box)
    ensures var (x, y) := FooterPosition(box);
            var w, h := box.right - box.left, box.bottom - box.top;
            && 0 <= (ImageSize - x - w) - x <= 1
            && ImageSize - (y + h) == FooterElevation
  {
  }

  /** `overlay_images(generated, logo_data, footer_text)` on image contents. */
  function Overlay(generated: View, logoData: Value, footer: string, a: Assets): Result<View, Error>
  {
    var composed :- Composed(generated, a);
    Decorate(composed, logoData, footer, a)
  }

  /** The first steps of `overlay_images`: the picture as RGBA with the overlay layer
      composited over it. */
  function Composed(generated: View, a: Assets): Result<View, Error>
  {
    var base := ConvertView(generated, RGBA);
    var layer :- OverlayLayer(a);
    CompositeView(base, layer)
  }

  /** What `overlay_images` does to the composited picture: the logo, then the footer. */
  function Decorate(composed: View, logoData: Value, footer: string, a: Assets): Result<View, Error>
  {
    var logo :- LogoChoice(logoData, a);
    var decorated := if logo.Some? then PasteView(composed, ResizeView(logo.value, LogoSize, LogoSize), LogoPadding, LogoPadding, true)
                     else composed;
    var font := FooterFont(a);
    var (x, y) := FooterPosition(a.textBox(font, footer));
    Success(LetterView(decorated, x, y, footer, font, FooterTextColor))
  }

  /** When the overlay succeeds: it needed a full-size picture and a loadable overlay file;
      the result is a full-size RGBA image whose last layer is the footer text, in the footer
      font at its centred position and in white. */
  lemma OverlayShape(generated: View, logoData: Value, footer: string, a: Assets)
    ensures var r := Overlay(generated, logoData, footer, a);
            r.Success? <==> (&& a.overlayFile.Success?
                             && generated.width == ImageSize && generated.height == ImageSize
                             && LogoChoice(logoData, a).Success?)
    ensures var r := Overlay(generated, logoData, footer, a);
            r.Success? ==>
              var font := FooterFont(a);
              var (x, y) := FooterPosition(a.textBox(font, footer));
              && r.value.mode == RGBA && r.value.width == ImageSize && r.value.height == ImageSize
              && r.value.pixels.Lettered?
              && r.value.pixels.x == x && r.value.pixels.y == y
              && r.value.pixels.text == footer && r.value.pixels.font == font
              && r.value.pixels.fill == White
  {
  }

  /** Layer 3: a chosen logo is scaled to LOGO_SIZE and pasted through its own alpha at
      (LOGO_PADDING, LOGO_PADDING); without one, the footer is drawn directly on the
      composited overlay. */
  lemma OverlayLogoLayer(generated: View, logoData: Value, footer: string, a: Assets)
    requires Overlay(generated, logoData, footer, a).Success?
    ensures var under := Overlay(generated, logoData, footer, a).value.pixels.base;
            var logo := LogoChoice(logoData, a).value;
            var composed := Composited(ConvertView(generated, RGBA).pixels, OverlayLayer(a).value.pixels);
            && (logo.Some? ==> under == Pasted(composed, ResizeView(logo.value, LogoSize, LogoSize).pixels, LogoPadding, LogoPadding, true))
            && (logo.None? ==> under == composed)
  {
  }

  /** `overlay_images` as written: converted or copied, composited into a new image, then
      pasted and drawn on in place. The argument is never changed. */
  method OverlayImages(generated: Image, logoData: Value, footer: string, a: Assets) returns (r: Result<Image, Error>)
    ensures generated.Snapshot() == old(generated.Snapshot())
    ensures r.Success? <==> Overlay(old(generated.Snapshot()), logoData, footer, a).Success?
    ensures r.Success? ==> fresh(r.value) && r.value.Snapshot() == Overlay(old(generated.Snapshot()), logoData, footer, a).value
    ensures r.Failure? ==> r.error == Overlay(old(generated.Snapshot()), logoData, footer, a).error
  {
    var composed := Compose(generated, a);
    if composed.Failure? {
      return Failure(composed.error);
    }
    r := DecorateInPlace(composed.value, logoData, footer, a);
  }

  /** The converted (or copied) picture composited with the overlay layer into a new
      image; the argument is never changed. */
  method Compose(generated: Image, a: Assets) returns (r: Result<Image, Error>)
    ensures generated.Snapshot() == old(generated.Snapshot())
    ensures r.Success? <==> Composed(old(generated.Snapshot()), a).Success?
    ensures r.Success? ==> fresh(r.value) && r.value.Snapshot() == Composed(old(generated.Snapshot()), a).value
    ensures r.Failure? ==> r.error == Composed(old(generated.Snapshot()), a).error
  {
    var source := generated;
    if source.mode != RGBA {
      source := source.Convert(RGBA);
    }
    var canvas := source.Copy();
    var layerView :- OverlayLayer(a);
    var layer := new Image(layerView);
    r := AlphaComposite(canvas, layer);
  }

  /** The logo and footer steps of `overlay_images`, drawn on the new composite; a logo
      that cannot be read raises before anything is drawn. */
  method DecorateInPlace(image: Image, logoData: Value, footer: string, a: Assets) returns (r: Result<Image, Error>)
    modifies image
    ensures r.Success? <==> Decorate(old(image.Snapshot()), logoData, footer, a).Success?
    ensures r.Success? ==> r.value == image && image.Snapshot() == Decorate(old(image.Snapshot()), logoData, footer, a).value
    ensures r.Failure? ==> r.error == Decorate(old(image.Snapshot()), logoData, footer, a).error
  {
    var logo :- LogoChoice(logoData, a);
    if logo.Some? {
      var logoImage := new Image(logo.value);
      logoImage := logoImage.Resize(LogoSize, LogoSize);
      image.Paste(logoImage.Snapshot(), LogoPadding, LogoPadding, true);
    }
    var font := FooterFont(a);
    var (x, y) := FooterPosition(a.textBox(font, footer));
    image.DrawText(x, y, footer, font, FooterTextColor);
    return Success(image);
  }

  /** What `image_to_base64` encodes: an RGBA image is laid onto a white RGB background of
      the same size through its alpha band; any other image is encoded as it is. */
  function Flatten(v: View): (r: View)
    ensures r.width == v.width && r.height == v.height
    ensures v.mode == RGBA ==> r.mode == RGB && r.pixels == Pasted(Filled(White), v.pixels, 0, 0, true)
    ensures v.mode != RGBA ==> r == v
  {
    if v.mode == RGBA then PasteView(View(RGB, v.width, v.height, Filled(White)), v, 0, 0, true) else v
  }

  /** The base64 text `image_to_base64` returns; PNG cannot hold CMYK. */
  function Payload(v: View, png: View -> seq<byte>): Result<string, Error>
  {
    var flat := Flatten(v);
    if flat.mode == CMYK then Failure(Exception("OSError", "cannot write mode CMYK as PNG"))
    else Success(Base64.Encode(png(flat)))
  }

  /** The payload decodes to the PNG of the flattened image, which is never RGBA. */
  lemma PayloadDecodes(v: View, png: View -> seq<byte>)
    ensures Payload(v, png).Success? <==> v.mode != CMYK
    ensures Payload(v, png).Success? ==>
              Base64.Decode(Payload(v, png).value) == Some(png(Flatten(v))) && Flatten(v).mode != RGBA
  {
    if v.mode != CMYK {
      Base64.DecodeEncode(png(Flatten(v)));
    }
  }

  /** `image_to_base64` as written, building the white background in place. */
  method ImageToBase64(image: Image, png: View -> seq<byte>) returns (r: Result<string, Error>)
    ensures r == Payload(image.Snapshot(), png)
  {
    var flat := image;
    if image.mode == RGBA {
      var background := new Image.Filled(RGB, image.width, image.height, White);
      background.Paste(image.Snapshot(), 0, 0, true);
      flat := background;
    }
    if flat.mode == CMYK {
      return Failure(Exception("OSError", "cannot write mode CMYK as PNG"));
    }
    return Success(Base64.Encode(png(flat.Snapshot())));
  }

  /** The image `process_logo` encodes: the decoded upload, as RGBA, at USER_LOGO_SIZE. */
  function LogoImage(content: seq<byte>, a: Assets): (r: Result<View, Error>)
    ensures r.Success? <==> a.open(content).Success?
    ensures r.Success? ==> r.value.mode == RGBA && r.value.width == UserLogoSize && r.value.height == UserLogoSize
    ensures r.Failure? ==> r.error == a.open(content).error
  {
    var decoded :- a.open(content);
    Success(ResizeView(ConvertView(decoded, RGBA), UserLogoSize, UserLogoSize))
  }

  /** `process_logo`: the PNG bytes of the normalised logo. */
  function ProcessLogo(content: seq<byte>, a: Assets): (r: Result<seq<byte>, Error>)
    ensures r.Success? <==> LogoImage(content, a).Success?
    ensures r.Success? ==> r.value == a.png(LogoImage(content, a).value)
  {
    var logo :- LogoImage(content, a);
    Success(a.png(logo))
  }
}
