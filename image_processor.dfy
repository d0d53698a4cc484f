/** Stitching screenshots into one vertical collage, optionally under a header
    band (services/image_processor.py). Decoding, colour conversion, text
    rasterisation and JPEG encoding are Pillow's and are parameters; the
    canvas sizes, the offsets and the paste are modelled. */
module ImageProcessor {
  import opened Wrappers

  type Byte = b: int | 0 <= b < 256
  type Bytes = seq<Byte>

  /** A pixel's channel values in its image's mode. */
  type Pixel = seq<int>

  const White: Pixel := [255, 255, 255]
  const HeaderFill: Pixel := [18, 18, 24]
  const PillFill: Pixel := [45, 45, 55]
  const TextFill: Pixel := [255, 255, 255]

  /** Height of the header band and the side padding of its second row. */
  const HeaderHeight: nat := 110
  const Padding: int := 30

  /** A decoded raster: width x height pixels in row-major order. */
  datatype Image = Image(mode: string, width: nat, height: nat, rows: seq<seq<Pixel>>)

  predicate WellFormed(img: Image) {
    |img.rows| == img.height && forall r :: 0 <= r < |img.rows| ==> |img.rows[r]| == img.width
  }

  type Picture = img: Image | WellFormed(img) witness Image("RGB", 0, 0, [])

  /** Image.open: None when Pillow cannot decode the bytes. */
  type ImageDecoder = Bytes -> Option<Picture>

  /** Pillow's conversion of one pixel of the given mode to RGB. */
  type PixelConverter = (string, Pixel) -> Pixel

  /** img.convert("RGB"): same size, every pixel converted. */
  function ConvertToRgb(img: Picture, cv: PixelConverter): (r: Picture)
    ensures r.mode == "RGB" && r.width == img.width && r.height == img.height
  {
    Image("RGB", img.width, img.height,
      seq(img.height, r requires 0 <= r < img.height =>
        seq(img.width, c requires 0 <= c < img.width => cv(img.mode, img.rows[r][c]))))
  }

  /** The mode normalisation of _load_images: RGBA and palette images become
      RGB, every other mode is kept as it is. */
  function Normalise(img: Picture, cv: PixelConverter): (r: Picture)
    ensures img.mode == "RGBA" || img.mode == "P" ==> r == ConvertToRgb(img, cv)
    ensures img.mode != "RGBA" && img.mode != "P" ==> r == img
    ensures r.width == img.width && r.height == img.height
  {
    if img.mode == "RGBA" || img.mode == "P" then ConvertToRgb(img, cv) else img
  }

  datatype CollageError = EmptyImageList | DecodeError(index: nat)

  predicate AllDecode(images: seq<Bytes>, decode: ImageDecoder) {
    forall k :: 0 <= k < |images| ==> decode(images[k]).Some?
  }

  /** The pictures _load_images produces when every image decodes. */
  function Decoded(images: seq<Bytes>, decode: ImageDecoder, cv: PixelConverter): (pics: seq<Picture>)
    requires AllDecode(images, decode)
    ensures |pics| == |images|
  {
    seq(|images|, k requires 0 <= k < |images| => Normalise(decode(images[k]).value, cv))
  }

  /** _load_images: decode and normalise every image in order; the first image
      that does not decode aborts the whole call. */
  method LoadImages(images: seq<Bytes>, decode: ImageDecoder, cv: PixelConverter)
    returns (r: Result<seq<Picture>, CollageError>)
    ensures r.Success? <==> AllDecode(images, decode)
    ensures r.Success? ==> r.value == Decoded(images, decode, cv)
    ensures r.Failure? ==>
      && r.error.DecodeError? && r.error.index < |images|
      && decode(images[r.error.index]).None?
      && forall k :: 0 <= k < r.error.index ==> decode(images[k]).Some?
  {
    var pics: seq<Picture> := [];
    var i := 0;
    while i < |images|
      invariant 0 <= i <= |images|
      invariant |pics| == i
      invariant forall k :: 0 <= k < i ==> decode(images[k]).Some? && pics[k] == Normalise(decode(images[k]).value, cv)
    {
      var img := decode(images[i]);
      if img.None? {
        return Failure(DecodeError(i));
      }
      pics := pics + [Normalise(img.value, cv)];
      i := i + 1;
    }
    r := Success(pics);
  }

  function Max(a: int, b: int): int {
    if a < b then b else a
  }

  /** The width of the widest image (0 for none): the canvas width. */
  function MaxWidth(imgs: seq<Picture>): nat
  {
    if |imgs| == 0 then 0 else Max(imgs[0].width, MaxWidth(imgs[1..]))
  }

  /** The sum of the heights of the first i images: where image i is pasted. */
  function Offset(imgs: seq<Picture>, i: nat): nat
    requires i <= |imgs|
  {
    if i == 0 then 0 else imgs[0].height + Offset(imgs[1..], i - 1)
  }

  /** The heights of all images added up: the canvas height. */
  function TotalHeight(imgs: seq<Picture>): nat
  {
    Offset(imgs, |imgs|)
  }

  /** Half the spare width, rounded down, centres an image; Dafny's division
      by a positive divisor floors, as Python's floor division does. */
  function XOffset(canvasWidth: int, img: Picture): int
  {
    (canvasWidth - img.width) / 2
  }

  /** Pixel (r, c) of the band of the canvas that holds img. */
  function BandPixel(img: Picture, canvasWidth: int, r: nat, c: int): Pixel
    requires r < img.height
  {
    var x := XOffset(canvasWidth, img);
    if x <= c < x + img.width then img.rows[r][c - x] else White
  }

  /** Pixel (r, c) of the stitched canvas: the images stacked top to bottom,
      each centred, on white. */
  function StitchedAt(imgs: seq<Picture>, canvasWidth: int, r: nat, c: int): Pixel
    decreases |imgs|
  {
    if |imgs| == 0 then White
    else if r < imgs[0].height then BandPixel(imgs[0], canvasWidth, r, c)
    else StitchedAt(imgs[1..], canvasWidth, r - imgs[0].height, c)
  }

  /** The stitched collage _stitch_images returns. */
  function Stitched(imgs: seq<Picture>): (p: Picture)
    ensures p.mode == "RGB" && p.width == MaxWidth(imgs) && p.height == TotalHeight(imgs)
  {
    var w := MaxWidth(imgs);
    var h := TotalHeight(imgs);
    Image("RGB", w, h,
      seq(h, r requires 0 <= r < h => seq(w, c requires 0 <= c < w => StitchedAt(imgs, w, r, c))))
  }

  /** The canvas is as wide as the widest image. */
  lemma {:induction false} MaxWidthIsMaximum(imgs: seq<Picture>)
    ensures forall k :: 0 <= k < |imgs| ==> imgs[k].width <= MaxWidth(imgs)
    ensures |imgs| > 0 ==> exists k :: 0 <= k < |imgs| && imgs[k].width == MaxWidth(imgs)
  {
    if |imgs| > 0 {
      var tail := imgs[1..];
      MaxWidthIsMaximum(tail);
      assert MaxWidth(imgs) == Max(imgs[0].width, MaxWidth(tail));
      forall k | 1 <= k < |imgs|
        ensures imgs[k].width <= MaxWidth(imgs)
      {
        assert imgs[k] == tail[k - 1];
      }
      if imgs[0].width < MaxWidth(tail) {
        var k :| 0 <= k < |tail| && tail[k].width == MaxWidth(tail);
        assert imgs[k + 1] == tail[k];
      } else {
        assert imgs[0].width == MaxWidth(imgs);
      }
    }
  }

  /** Each image starts where the previous one ends. */
  lemma {:induction false} OffsetStep(imgs: seq<Picture>, i: nat)
    requires i < |imgs|
    ensures Offset(imgs, i + 1) == Offset(imgs, i) + imgs[i].height
  {
    if i > 0 {
      OffsetStep(imgs[1..], i - 1);
    }
  }

  /** Bands follow the input order without overlapping, and all lie within
      the canvas height. */
  lemma {:induction false} BandsInOrder(imgs: seq<Picture>, i: nat, j: nat)
    requires i < j <= |imgs|
    ensures Offset(imgs, i) + imgs[i].height <= Offset(imgs, j)
    ensures Offset(imgs, j) <= TotalHeight(imgs)
  {
    if i > 0 {
      BandsInOrder(imgs[1..], i - 1, j - 1);
    } else {
      OffsetMonotone(imgs[1..], j - 1, |imgs| - 1);
    }
    OffsetMonotone(imgs, j, |imgs|);
  }

  lemma {:induction false} OffsetMonotone(imgs: seq<Picture>, i: nat, j: nat)
    requires i <= j <= |imgs|
    ensures Offset(imgs, i) <= Offset(imgs, j)
  {
    if i > 0 {
      OffsetMonotone(imgs[1..], i - 1, j - 1);
    }
  }

  /** Every image fits horizontally: it starts at a non-negative column and
      ends inside the canvas, with the left and right margins differing by at
      most one pixel (the extra one on the right). */
  lemma ImageFits(imgs: seq<Picture>, i: nat)
    requires i < |imgs|
    ensures var x := XOffset(MaxWidth(imgs), imgs[i]);
      && 0 <= x && x + imgs[i].width <= MaxWidth(imgs)
      && 0 <= (MaxWidth(imgs) - (x + imgs[i].width)) - x <= 1
  {
    MaxWidthIsMaximum(imgs);
  }

  /** Inside band i the canvas shows image i, centred, and white beside it. */
  lemma {:induction false} StitchedBand(imgs: seq<Picture>, w: int, i: nat, r: nat, c: int)
    requires i < |imgs|
    requires Offset(imgs, i) <= r < Offset(imgs, i) + imgs[i].height
    ensures StitchedAt(imgs, w, r, c) == BandPixel(imgs[i], w, r - Offset(imgs, i), c)
  {
    if i > 0 {
      StitchedBand(imgs[1..], w, i - 1, r - imgs[0].height, c);
    }
  }

  /** Where image i lands in the collage: its pixel (r, c) is the collage's
      pixel (Offset + r, XOffset + c). */
  lemma ImagePlacement(imgs: seq<Picture>, i: nat, r: nat, c: nat)
    requires i < |imgs| && r < imgs[i].height && c < imgs[i].width
    ensures var p := Stitched(imgs);
      var y := Offset(imgs, i) + r;
      var x := XOffset(MaxWidth(imgs), imgs[i]) + c;
      && 0 <= y < p.height && 0 <= x < p.width
      && p.rows[y][x] == imgs[i].rows[r][c]
  {
    ImageFits(imgs, i);
    BandsInOrder(imgs, i, i + 1);
    OffsetStep(imgs, i);
    StitchedBand(imgs, MaxWidth(imgs), i, Offset(imgs, i) + r, XOffset(MaxWidth(imgs), imgs[i]) + c);
  }

  /** The part of band i beside the image stays white. */
  lemma UncoveredIsWhite(imgs: seq<Picture>, i: nat, r: nat, c: nat)
    requires i < |imgs| && r < imgs[i].height && c < MaxWidth(imgs)
    requires var x := XOffset(MaxWidth(imgs), imgs[i]); c < x || x + imgs[i].width <= c
    ensures Offset(imgs, i) + r < Stitched(imgs).height
    ensures Stitched(imgs).rows[Offset(imgs, i) + r][c] == White
  {
    BandsInOrder(imgs, i, i + 1);
    OffsetStep(imgs, i);
    StitchedBand(imgs, MaxWidth(imgs), i, Offset(imgs, i) + r, c);
  }

  predicate Covers(img: Picture, x: int, y: int, r: int, c: int) {
    y <= r < y + img.height && x <= c < x + img.width
  }

  /** canvas.paste(img, (x, y)): the part of img that falls on the canvas
      overwrites it; the rest of the canvas is unchanged. */
  method Paste(canvas: array2<Pixel>, img: Picture, x: int, y: int)
    modifies canvas
    ensures forall r, c :: 0 <= r < canvas.Length0 && 0 <= c < canvas.Length1 ==>
      canvas[r, c] == if Covers(img, x, y, r, c) then img.rows[r - y][c - x] else old(canvas[r, c])
  {
    forall r, c | 0 <= r < canvas.Length0 && 0 <= c < canvas.Length1 && Covers(img, x, y, r, c) {
      canvas[r, c] := img.rows[r - y][c - x];
    }
  }

  /** _stitch_images: a white canvas of the maximum width and the total
      height, each image pasted centred below the previous one. */
  method StitchImages(imgs: seq<Picture>) returns (canvas: array2<Pixel>)
    requires |imgs| > 0
    ensures canvas.Length0 == TotalHeight(imgs) && canvas.Length1 == MaxWidth(imgs)
    ensures forall r, c :: 0 <= r < canvas.Length0 && 0 <= c < canvas.Length1 ==>
      canvas[r, c] == StitchedAt(imgs, MaxWidth(imgs), r, c)
  {
    var maxWidth := MaxWidth(imgs);
    var totalHeight := TotalHeight(imgs);
    canvas := new Pixel[totalHeight, maxWidth]((r, c) => White);
    var yOffset := 0;
    var i := 0;
    while i < |imgs|
      invariant 0 <= i <= |imgs|
      invariant yOffset == Offset(imgs, i) <= totalHeight
      invariant canvas.Length0 == totalHeight && canvas.Length1 == maxWidth
      invariant forall r, c :: 0 <= r < totalHeight && 0 <= c < maxWidth ==>
        canvas[r, c] == if r < yOffset then StitchedAt(imgs, maxWidth, r, c) else White
    {
      var img := imgs[i];
      var xOffset := (maxWidth - img.width) / 2;
      Paste(canvas, img, xOffset, yOffset);
      OffsetStep(imgs, i);
      BandsInOrder(imgs, i, i + 1);
      forall r, c | 0 <= r < totalHeight && 0 <= c < maxWidth && yOffset <= r < yOffset + img.height
        ensures StitchedAt(imgs, maxWidth, r, c) == BandPixel(img, maxWidth, r - yOffset, c)
      {
        StitchedBand(imgs, maxWidth, i, r, c);
      }
      yOffset := yOffset + img.height;
      i := i + 1;
    }
  }

  /** The canvas as a picture. */
  function Frozen(canvas: array2<Pixel>): (p: Picture)
    reads canvas
    ensures p.width == canvas.Length1 && p.height == canvas.Length0
    ensures forall r, c :: 0 <= r < canvas.Length0 && 0 <= c < canvas.Length1 ==> p.rows[r][c] == canvas[r, c]
  {
    Image("RGB", canvas.Length1, canvas.Length0,
      seq(canvas.Length0, r requires 0 <= r < canvas.Length0 reads canvas =>
        seq(canvas.Length1, c requires 0 <= c < canvas.Length1 reads canvas => canvas[r, c])))
  }

  /** Rasterising the drawing operations onto a picture and encoding it as
      JPEG at quality 95; both are Pillow's. */
  type Renderer = (Picture, seq<DrawOp>) -> Bytes

  /** create_vertical_collage: an empty list fails before decoding; a decode
      failure aborts with nothing produced; otherwise the stitched collage,
      encoded. */
  method CreateVerticalCollage(images: seq<Bytes>, decode: ImageDecoder, cv: PixelConverter, render: Renderer)
    returns (r: Result<Bytes, CollageError>)
    ensures |images| == 0 ==> r == Failure(EmptyImageList)
    ensures |images| > 0 ==> (r.Success? <==> AllDecode(images, decode))
    ensures |images| > 0 && r.Failure? ==>
      && r.error.DecodeError? && r.error.index < |images|
      && decode(images[r.error.index]).None?
      && forall k :: 0 <= k < r.error.index ==> decode(images[k]).Some?
    ensures r.Success? ==> r.value == render(Stitched(Decoded(images, decode, cv)), [])
  {
    if |images| == 0 {
      return Failure(EmptyImageList);
    }
    var loaded := LoadImages(images, decode, cv);
    if loaded.Failure? {
      return Failure(loaded.error);
    }
    var canvas := StitchImages(loaded.value);
    FrozenStitched(canvas, loaded.value);
    r := Success(render(Frozen(canvas), []));
  }

  lemma FrozenStitched(canvas: array2<Pixel>, imgs: seq<Picture>)
    requires canvas.Length0 == TotalHeight(imgs) && canvas.Length1 == MaxWidth(imgs)
    requires forall r, c :: 0 <= r < canvas.Length0 && 0 <= c < canvas.Length1 ==>
      canvas[r, c] == StitchedAt(imgs, MaxWidth(imgs), r, c)
    ensures Frozen(canvas) == Stitched(imgs)
  {
    var f, s := Frozen(canvas), Stitched(imgs);
    forall r | 0 <= r < f.height ensures f.rows[r] == s.rows[r] {
    }
    assert f.rows == s.rows;
  }

  /** TradeHeader */
  datatype TradeHeader = TradeHeader(asset: string, scenario: string, date: string)

  /** draw.textbbox((0, 0), text, font): left, top, right, bottom. */
  datatype BBox = BBox(left: int, top: int, right: int, bottom: int)

  /** Text metrics of the font _get_font(size) gives. */
  type FontMetrics = (string, nat) -> BBox

  /** The drawing calls _add_header makes, in order. */
  datatype DrawOp =
    | DrawText(x: int, y: int, text: string, fontSize: nat, fill: Pixel)
    | RoundedRectangle(x0: int, y0: int, x1: int, y1: int, radius: nat, fill: Pixel)

  const TitleSize: nat := 36
  const LabelSize: nat := 24
  const ValueSize: nat := 26
  const Row2Y: int := 65
  const BoxPadding: int := 20

  function TextWidth(m: FontMetrics, text: string, size: nat): int {
    m(text, size).right - m(text, size).left
  }

  function TitleText(h: TradeHeader): string { "Сделка " + h.asset }
  function DateText(h: TradeHeader): string { "Дата " + h.date }

  /** The header band's layout for a canvas of the given width: the centred
      title, the "Сценарий" label, the pill and its text, the right-aligned
      date. */
  function HeaderOps(width: int, h: TradeHeader, m: FontMetrics): (ops: seq<DrawOp>)
    ensures |ops| == 5
  {
    var titleWidth := TextWidth(m, TitleText(h), TitleSize);
    var scenarioBox := m(h.scenario, ValueSize);
    var boxWidth := (scenarioBox.right - scenarioBox.left) + BoxPadding * 2;
    var boxHeight := (scenarioBox.bottom - scenarioBox.top) + 16;
    var boxX := (width - boxWidth) / 2;
    var boxY := Row2Y - 5;
    var dateWidth := TextWidth(m, DateText(h), LabelSize);
    [ DrawText((width - titleWidth) / 2, 12, TitleText(h), TitleSize, TextFill),
      DrawText(Padding, Row2Y, "Сценарий", LabelSize, TextFill),
      RoundedRectangle(boxX, boxY, boxX + boxWidth, boxY + boxHeight, 8, PillFill),
      DrawText(boxX + BoxPadding, Row2Y, h.scenario, ValueSize, TextFill),
      DrawText(width - dateWidth - Padding, Row2Y, DateText(h), LabelSize, TextFill) ]
  }

  /** The title is drawn first, at y = 12, centred: its right margin equals its
      left margin or exceeds it by one pixel. */
  lemma TitleCentred(width: int, h: TradeHeader, m: FontMetrics)
    ensures var t := HeaderOps(width, h, m)[0];
      var tw := TextWidth(m, TitleText(h), TitleSize);
      && t.DrawText? && t.text == "Сделка " + h.asset && t.y == 12
      && t.x == (width - tw) / 2
      && 0 <= (width - (t.x + tw)) - t.x <= 1
  {
  }

  /** The scenario pill is 40 px wider than the scenario text, centred, with
      its top at y = 60; the text starts 20 px inside it, so it is centred in
      the pill too. */
  lemma ScenarioPill(width: int, h: TradeHeader, m: FontMetrics)
    ensures var box := HeaderOps(width, h, m)[2];
      var txt := HeaderOps(width, h, m)[3];
      var sw := TextWidth(m, h.scenario, ValueSize);
      && box.RoundedRectangle? && txt.DrawText? && txt.text == h.scenario
      && box.x1 - box.x0 == sw + 40
      && box.x0 == (width - (sw + 40)) / 2
      && box.y0 == 60
      && txt.x == box.x0 + 20 && txt.x + sw + 20 == box.x1
  {
  }

  /** The scenario label starts 30 px from the left edge and the date ends
      30 px from the right edge, both on the second row. */
  lemma SecondRowAligned(width: int, h: TradeHeader, m: FontMetrics)
    ensures var tag := HeaderOps(width, h, m)[1];
      var date := HeaderOps(width, h, m)[4];
      && tag.DrawText? && tag.x == 30 && tag.y == 65 && tag.text == "Сценарий"
      && date.DrawText? && date.text == "Дата " + h.date && date.y == 65
      && date.x + TextWidth(m, DateText(h), LabelSize) + 30 == width
  {
  }

  /** The dark band stacked over the stitched collage. */
  function WithHeaderBand(p: Picture): (q: Picture)
    ensures q.width == p.width && q.height == p.height + HeaderHeight
  {
    Image("RGB", p.width, p.height + HeaderHeight,
      seq(p.height + HeaderHeight, r requires 0 <= r < p.height + HeaderHeight =>
        seq(p.width, c requires 0 <= c < p.width =>
          if r < HeaderHeight then HeaderFill else p.rows[r - HeaderHeight][c])))
  }

  /** Under the header every pixel of the collage moves down by 110 rows; the
      band above it has the dark fill before text is drawn. */
  lemma HeaderShiftsCollage(p: Picture, r: nat, c: nat)
    requires c < p.width
    ensures r < p.height ==> WithHeaderBand(p).rows[r + HeaderHeight][c] == p.rows[r][c]
    ensures r < HeaderHeight ==> WithHeaderBand(p).rows[r][c] == HeaderFill
  {
  }

  /** _add_header: a canvas 110 px taller with the dark fill, the collage
      pasted under the band, and the header's drawing operations. */
  method AddHeader(collage: Picture, header: TradeHeader, m: FontMetrics)
    returns (final: array2<Pixel>, ops: seq<DrawOp>)
    ensures final.Length0 == collage.height + HeaderHeight && final.Length1 == collage.width
    ensures forall r, c :: 0 <= r < final.Length0 && 0 <= c < final.Length1 ==>
      final[r, c] == WithHeaderBand(collage).rows[r][c]
    ensures ops == HeaderOps(collage.width, header, m)
  {
    final := new Pixel[collage.height + HeaderHeight, collage.width]((r, c) => HeaderFill);
    Paste(final, collage, 0, HeaderHeight);
    ops := HeaderOps(collage.width, header, m);
  }

  /** create_collage_with_header: as create_vertical_collage, then the header
      band and its drawing operations before encoding. */
  method CreateCollageWithHeader(
    images: seq<Bytes>, header: TradeHeader, decode: ImageDecoder, cv: PixelConverter,
    m: FontMetrics, render: Renderer)
    returns (r: Result<Bytes, CollageError>)
    ensures |images| == 0 ==> r == Failure(EmptyImageList)
    ensures |images| > 0 ==> (r.Success? <==> AllDecode(images, decode))
    ensures |images| > 0 && r.Failure? ==>
      && r.error.DecodeError? && r.error.index < |images|
      && decode(images[r.error.index]).None?
      && forall k :: 0 <= k < r.error.index ==> decode(images[k]).Some?
    ensures r.Success? ==>
      var base := Stitched(Decoded(images, decode, cv));
      r.value == render(WithHeaderBand(base), HeaderOps(base.width, header, m))
  {
    if |images| == 0 {
      return Failure(EmptyImageList);
    }
    var loaded := LoadImages(images, decode, cv);
    if loaded.Failure? {
      return Failure(loaded.error);
    }
    var canvas := StitchImages(loaded.value);
    FrozenStitched(canvas, loaded.value);
    var base := Frozen(canvas);
    var final, ops := AddHeader(base, header, m);
    var out := Frozen(final);
    forall row | 0 <= row < out.height ensures out.rows[row] == WithHeaderBand(base).rows[row] {
    }
    assert out == WithHeaderBand(base);
    r := Success(render(out, ops));
  }
}
