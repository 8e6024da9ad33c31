/**
 * The nine layouts of the label renderer, as geometry: each one resolves the tape height and
 * the scaled paddings, fits the font, and places the code bitmap, the text and any decoration
 * on a canvas of fixed height and derived width, with a border. Font metrics and the measured
 * text extents are functions of the font size supplied by the caller; the code bitmap is a
 * square of the computed side.
 */
module Templates {
  import opened Wrappers
  import opened Tape
  import opened FontFit
  import opened Geometry

  /** The ValueError every layout raises for a class outside the table; it lists the supported ones. */
  datatype LayoutError = UnsupportedTapeWidth(mm: int, supported: seq<int>)

  /** ImageFont.getmetrics() at each font size. */
  datatype FontMetrics = FontMetrics(ascent: int -> int, descent: int -> int)

  /** The textbbox() width and height of one string at each font size. */
  datatype TextExtent = TextExtent(width: int -> int, height: int -> int)

  /** A text element: where it is drawn (or pasted, for rotated text) and its font size. */
  datatype TextRun = TextRun(box: Box, size: int)

  /**
   * A composed label. The text box of an upright text is its line box (ascent + descent high,
   * its top-left the draw position); for rotated text it is the pasted rotated image.
   */
  datatype Canvas = Canvas(
    width: int,
    height: int,
    code: Option<Box>,
    text: TextRun,
    icon: Option<Box>,
    number: Option<TextRun>,
    frame: Frame)

  function Unsupported(mm: int): LayoutError
  {
    UnsupportedTapeWidth(mm, SupportedWidths)
  }

  /** ascent + descent: the vertical measure the upright layouts fit. */
  function LineHeight(font: FontMetrics): int -> int
  {
    s => font.ascent(s) + font.descent(s)
  }

  /** A measure multiplied by a constant: how a budget given as a fraction of the height becomes integral. */
  function Times(k: int, m: int -> int): int -> int
  {
    s => k * m(s)
  }

  function Max(a: int, b: int): (r: int)
    ensures a <= r && b <= r && (r == a || r == b)
  {
    if a >= b then a else b
  }

  function Min(a: int, b: int): (r: int)
    ensures r <= a && r <= b && (r == a || r == b)
  {
    if a <= b then a else b
  }

  /**
   * Top of upright text: the line box centred, then shifted down by half the descent. The part
   * above the baseline then sits centred in the height, to within two pixels.
   */
  function UprightTop(height: int, font: FontMetrics, size: int): (top: int)
    ensures 0 <= font.descent(size) ==> 0 <= (height - (top + font.ascent(size))) - top <= 2
  {
    Centre(height, LineHeight(font)(size)) + font.descent(size) / 2
  }

  ghost predicate SaneFont(font: FontMetrics)
  {
    forall s :: 0 <= font.ascent(s) && 0 <= font.descent(s)
  }

  ghost predicate SaneExtent(e: TextExtent)
  {
    forall s :: 0 <= e.width(s) && 0 <= e.height(s)
  }

  /**
   * Shifting the line box down by half the descent keeps the part above the baseline inside
   * the vertical padding whenever the whole line fits between the paddings.
   */
  lemma UprightWithinPadding(height: int, font: FontMetrics, size: int, pad: int)
    requires 0 <= font.ascent(size) && 0 <= font.descent(size)
    requires LineHeight(font)(size) + 2 * pad <= height
    ensures pad <= UprightTop(height, font, size)
    ensures UprightTop(height, font, size) + font.ascent(size) <= height - pad
  {
    CentreKeepsMargin(height, LineHeight(font)(size), pad);
  }

  // ---------------------------------------------------------------------------------------------
  // Template 1: create_label_image. [pad][code][3 pad][text][3 pad][icon][pad]

  function Horizontal(mm: int, fontSize: int, includeCode: bool, font: FontMetrics, text: TextExtent): (r: Result<Canvas, LayoutError>)
    ensures r.Failure? <==> mm !in TapeWidths
    ensures r.Failure? ==> r.error == Unsupported(mm)
    ensures r.Success? ==>
      var c := r.value;
      var pad := Scaled(15, mm);
      && c.height == TapeWidths[mm]
      && c.code.Some? == includeCode && c.icon.Some? && c.number.None?
      && c.text.size == FitSize(LineHeight(font), Scaled(20, mm), Scaled(fontSize, mm), c.height - 2 * pad)
      && c.text.box.w == text.width(c.text.size) && c.text.box.h == LineHeight(font)(c.text.size)
      && c.text.box.y == UprightTop(c.height, font, c.text.size)
      && (includeCode ==>
            && c.code.value.x == pad && c.code.value.w == c.code.value.h == PercentOf(c.height, 85)
            && c.code.value.y == Centre(c.height, c.code.value.h)
            && c.code.value.Right() + 3 * pad == c.text.box.x)
      && (!includeCode ==> c.text.box.x == 2 * pad)
      && c.icon.value.w == c.icon.value.h == Scaled(80, mm)
      && c.text.box.Right() + 3 * pad == c.icon.value.x
      && c.icon.value.Right() + pad == c.width && c.icon.value.Bottom() + pad == c.height
      && c.frame == Border(c.width, c.height, BorderStroke(mm))
  {
    if mm !in TapeWidths then Failure(Unsupported(mm))
    else
      var h := TapeWidths[mm];
      var pad := Scaled(15, mm);
      var iconSide := Scaled(80, mm);
      var codeSide := if includeCode then PercentOf(h, 85) else 0;
      var size := FitSize(LineHeight(font), Scaled(20, mm), Scaled(fontSize, mm), h - 2 * pad);
      var tw := text.width(size);
      var textPad := 3 * pad;
      var width := if includeCode then codeSide + tw + iconSide + 2 * pad + 2 * textPad
                   else tw + iconSide + 3 * pad + textPad;
      var code := if includeCode then Some(Box(pad, Centre(h, codeSide), codeSide, codeSide)) else None;
      var textX := if includeCode then pad + codeSide + textPad else 2 * pad;
      var textBox := Box(textX, UprightTop(h, font, size), tw, LineHeight(font)(size));
      var icon := Box(width - iconSide - pad, h - iconSide - pad, iconSide, iconSide);
      Success(Canvas(width, h, code, TextRun(textBox, size), Some(icon), None, Border(width, h, BorderStroke(mm))))
  }

  // ---------------------------------------------------------------------------------------------
  // Template 2: create_label_image_template2. Code on top, text below, both centred.

  function CodeAboveText(mm: int, fontSize: int, includeCode: bool, font: FontMetrics, text: TextExtent): (r: Result<Canvas, LayoutError>)
    ensures r.Failure? <==> mm !in TapeWidths
    ensures r.Failure? ==> r.error == Unsupported(mm)
    ensures r.Success? ==>
      var c := r.value;
      var pad := Scaled(15, mm);
      var gap := Scaled(30, mm);
      var side := if includeCode then PercentOf(TapeWidths[mm], 85) else 0;
      && c.height == TapeWidths[mm]
      && c.code.Some? == includeCode && c.icon.None? && c.number.None?
      && c.text.size == FitSize(LineHeight(font), Scaled(20, mm), Scaled(fontSize, mm), c.height - side - (if includeCode then gap else 0) - 2 * pad)
      && c.text.box.w == text.width(c.text.size) && c.text.box.h == LineHeight(font)(c.text.size)
      && c.width == Max(side, c.text.box.w) + 2 * pad
      && c.text.box.x == Centre(c.width, c.text.box.w)
      && (includeCode ==>
            && c.code.value.w == c.code.value.h == side
            && c.code.value.x == Centre(c.width, side)
            && c.code.value.y == Centre(c.height, side + gap + c.text.box.h)
            && c.text.box.y == c.code.value.Bottom() + gap)
      && (!includeCode ==> c.text.box.y == Centre(c.height, c.text.box.h))
      && c.frame == Border(c.width, c.height, BorderStroke(mm))
  {
    if mm !in TapeWidths then Failure(Unsupported(mm))
    else
      var h := TapeWidths[mm];
      var pad := Scaled(15, mm);
      var gap := Scaled(30, mm);
      var side := if includeCode then PercentOf(h, 85) else 0;
      var available := if includeCode then h - side - gap - 2 * pad else h - 2 * pad;
      var size := FitSize(LineHeight(font), Scaled(20, mm), Scaled(fontSize, mm), available);
      var tw := text.width(size);
      var th := LineHeight(font)(size);
      var width := Max(side, tw) + 2 * pad;
      if includeCode then
        var top := Centre(h, side + gap + th);
        var code := Box(Centre(width, side), top, side, side);
        var textBox := Box(Centre(width, tw), top + side + gap, tw, th);
        Success(Canvas(width, h, Some(code), TextRun(textBox, size), None, None, Border(width, h, BorderStroke(mm))))
      else
        var textBox := Box(Centre(width, tw), Centre(h, th), tw, th);
        Success(Canvas(width, h, None, TextRun(textBox, size), None, None, Border(width, h, BorderStroke(mm))))
  }

  // ---------------------------------------------------------------------------------------------
  // Template 3: create_label_image_template3. Code on the left, text turned counter-clockwise.

  /** The text image before rotation: the text box grown by the rotation padding int(40 * scale). */
  function PaddedText(tw: int, th: int, padding: int): Size
  {
    Size(tw + padding, th + padding)
  }

  function CodeBesideRotatedText(mm: int, fontSize: int, includeCode: bool, text: TextExtent): (r: Result<Canvas, LayoutError>)
    ensures r.Failure? <==> mm !in TapeWidths
    ensures r.Failure? ==> r.error == Unsupported(mm)
    ensures r.Success? ==>
      var c := r.value;
      var pad := Scaled(15, mm);
      var rotationPad := Scaled(40, mm);
      var tw := text.width(c.text.size);
      && c.height == TapeWidths[mm]
      && c.code.Some? == includeCode && c.icon.None? && c.number.None?
      && c.text.size == FitSize(text.width, Scaled(20, mm), Scaled(fontSize, mm), c.height - 2 * pad)
      && c.text.box.w == text.height(c.text.size) + rotationPad && c.text.box.h == tw + rotationPad
      && c.text.box.y == Centre(c.height, c.text.box.h)
      && (includeCode ==>
            && c.code.value.x == pad && c.code.value.w == c.code.value.h == PercentOf(c.height, 90)
            && c.code.value.y == Centre(c.height, c.code.value.h)
            && c.code.value.Right() + pad == c.text.box.x
            && c.text.box.Right() + Scaled(40, mm) == c.width)
      && (!includeCode ==> c.text.box.x == pad && c.text.box.Right() + pad + Scaled(40, mm) == c.width)
      && c.frame == Border(c.width, c.height, BorderStroke(mm))
  {
    if mm !in TapeWidths then Failure(Unsupported(mm))
    else
      var h := TapeWidths[mm];
      var pad := Scaled(15, mm);
      var rightPad := Scaled(40, mm);
      var side := if includeCode then PercentOf(h, 90) else 0;
      var size := FitSize(text.width, Scaled(20, mm), Scaled(fontSize, mm), h - 2 * pad);
      var rotated := RotateExpand(PaddedText(text.width(size), text.height(size), Scaled(40, mm)), CounterClockwise);
      var width := if includeCode then side + 2 * pad + rotated.w + rightPad else rotated.w + 2 * pad + rightPad;
      var code := if includeCode then Some(Box(pad, Centre(h, side), side, side)) else None;
      var textX := if includeCode then pad + side + pad else pad;
      var textBox := Box(textX, Centre(h, rotated.h), rotated.w, rotated.h);
      Success(Canvas(width, h, code, TextRun(textBox, size), None, None, Border(width, h, BorderStroke(mm))))
  }

  // ---------------------------------------------------------------------------------------------
  // Template 4: create_text_only_label. Text centred with generous padding.

  function TextOnly(mm: int, fontSize: int, font: FontMetrics, text: TextExtent): (r: Result<Canvas, LayoutError>)
    ensures r.Failure? <==> mm !in TapeWidths
    ensures r.Failure? ==> r.error == Unsupported(mm)
    ensures r.Success? ==>
      var c := r.value;
      var horizontal := Scaled(60, mm);
      && c.height == TapeWidths[mm]
      && c.code.None? && c.icon.None? && c.number.None?
      && c.text.size == FitSize(LineHeight(font), Scaled(20, mm), Scaled(fontSize, mm), c.height - 2 * Scaled(40, mm))
      && c.text.box.w == text.width(c.text.size) && c.text.box.h == LineHeight(font)(c.text.size)
      && c.text.box.x == horizontal && c.text.box.Right() + horizontal == c.width
      && c.text.box.y == UprightTop(c.height, font, c.text.size)
      && c.frame == Border(c.width, c.height, BorderStroke(mm))
  {
    if mm !in TapeWidths then Failure(Unsupported(mm))
    else
      var h := TapeWidths[mm];
      var horizontal := Scaled(60, mm);
      var vertical := Scaled(40, mm);
      var size := FitSize(LineHeight(font), Scaled(20, mm), Scaled(fontSize, mm), h - 2 * vertical);
      var tw := text.width(size);
      var width := tw + 2 * horizontal;
      var textBox := Box(Centre(width, tw), UprightTop(h, font, size), tw, LineHeight(font)(size));
      Success(Canvas(width, h, None, TextRun(textBox, size), None, None, Border(width, h, BorderStroke(mm))))
  }

  // ---------------------------------------------------------------------------------------------
  // create_vertical_text_label: one line turned counter-clockwise, margins as a share of the height.

  /** max(int(15 * scale), int(height * 0.05)). */
  function OuterMargin(mm: int): (margin: int)
    requires mm in TapeWidths
    ensures 15 <= margin <= 45
    ensures TapeWidths[mm] * 5 < (margin + 1) * 100
  {
    ScaledBounds(15, mm);
    Max(Scaled(15, mm), PercentOf(TapeWidths[mm], 5))
  }

  /** max(int(10 * scale), int(height * 0.03)). */
  function RotationPadding(mm: int): (padding: int)
    requires mm in TapeWidths
    ensures 10 <= padding <= 30
    ensures TapeWidths[mm] * 3 < (padding + 1) * 100
  {
    ScaledBounds(10, mm);
    Max(Scaled(10, mm), PercentOf(TapeWidths[mm], 3))
  }

  function VerticalText(mm: int, text: TextExtent): (r: Result<Canvas, LayoutError>)
    ensures r.Failure? <==> mm !in TapeWidths
    ensures r.Failure? ==> r.error == Unsupported(mm)
    ensures r.Success? ==>
      var c := r.value;
      var margin := OuterMargin(mm);
      var padding := RotationPadding(mm);
      && c.height == TapeWidths[mm]
      && c.code.None? && c.icon.None? && c.number.None?
      && c.text.size == FitSize(text.width, Scaled(20, mm), Scaled(500, mm), c.height - 2 * margin - 2 * padding)
      && c.text.box.w == text.height(c.text.size) + 2 * padding
      && c.text.box.h == text.width(c.text.size) + 2 * padding
      && c.text.box.x == margin && c.text.box.Right() + margin == c.width
      && c.text.box.y == Centre(c.height, c.text.box.h)
      && c.frame == Border(c.width, c.height, BorderStroke(mm))
  {
    if mm !in TapeWidths then Failure(Unsupported(mm))
    else
      var h := TapeWidths[mm];
      var margin := OuterMargin(mm);
      var padding := RotationPadding(mm);
      var size := FitSize(text.width, Scaled(20, mm), Scaled(500, mm), h - 2 * margin - 2 * padding);
      var image := Size(text.width(size) + 2 * padding, text.height(size) + 2 * padding);
      var rotated := RotateExpand(image, CounterClockwise);
      var width := rotated.w + 2 * margin;
      var textBox := Box(Centre(width, rotated.w), Centre(h, rotated.h), rotated.w, rotated.h);
      Success(Canvas(width, h, None, TextRun(textBox, size), None, None, Border(width, h, BorderStroke(mm))))
  }

  // ---------------------------------------------------------------------------------------------
  // Template 6: create_label_image_template6. Text on top, code below, both centred.

  function TextAboveCode(mm: int, fontSize: int, includeCode: bool, font: FontMetrics, text: TextExtent): (r: Result<Canvas, LayoutError>)
    ensures r.Failure? <==> mm !in TapeWidths
    ensures r.Failure? ==> r.error == Unsupported(mm)
    ensures r.Success? ==>
      var c := r.value;
      var pad := Scaled(15, mm);
      var gap := Scaled(30, mm);
      var side := if includeCode then PercentOf(TapeWidths[mm], 85) else 0;
      && c.height == TapeWidths[mm]
      && c.code.Some? == includeCode && c.icon.None? && c.number.None?
      && c.text.size == FitSize(LineHeight(font), Scaled(20, mm), Scaled(fontSize, mm), c.height - side - (if includeCode then gap else 0) - 2 * pad)
      && c.text.box.w == text.width(c.text.size) && c.text.box.h == LineHeight(font)(c.text.size)
      && c.width == Max(side, c.text.box.w) + 2 * pad
      && c.text.box.x == Centre(c.width, c.text.box.w)
      && (includeCode ==>
            && c.code.value.w == c.code.value.h == side
            && c.code.value.x == Centre(c.width, side)
            && c.text.box.y == Centre(c.height, c.text.box.h + gap + side)
            && c.code.value.y == c.text.box.Bottom() + gap)
      && (!includeCode ==> c.text.box.y == Centre(c.height, c.text.box.h))
      && c.frame == Border(c.width, c.height, BorderStroke(mm))
  {
    if mm !in TapeWidths then Failure(Unsupported(mm))
    else
      var h := TapeWidths[mm];
      var pad := Scaled(15, mm);
      var gap := Scaled(30, mm);
      var side := if includeCode then PercentOf(h, 85) else 0;
      var available := if includeCode then h - side - gap - 2 * pad else h - 2 * pad;
      var size := FitSize(LineHeight(font), Scaled(20, mm), Scaled(fontSize, mm), available);
      var tw := text.width(size);
      var th := LineHeight(font)(size);
      var width := Max(side, tw) + 2 * pad;
      if includeCode then
        var top := Centre(h, th + gap + side);
        var textBox := Box(Centre(width, tw), top, tw, th);
        var code := Box(Centre(width, side), top + th + gap, side, side);
        Success(Canvas(width, h, Some(code), TextRun(textBox, size), None, None, Border(width, h, BorderStroke(mm))))
      else
        var textBox := Box(Centre(width, tw), Centre(h, th), tw, th);
        Success(Canvas(width, h, None, TextRun(textBox, size), None, None, Border(width, h, BorderStroke(mm))))
  }

  // ---------------------------------------------------------------------------------------------
  // create_horizontal_centered_label: text about half the height, centred.

  function HalfHeightText(mm: int, font: FontMetrics, text: TextExtent): (r: Result<Canvas, LayoutError>)
    ensures r.Failure? <==> mm !in TapeWidths
    ensures r.Failure? ==> r.error == Unsupported(mm)
    ensures r.Success? ==>
      var c := r.value;
      var pad := Scaled(40, mm);
      && c.height == TapeWidths[mm]
      && c.code.None? && c.icon.None? && c.number.None?
      && c.text.size == FitSize(Times(2, LineHeight(font)), Scaled(20, mm), Scaled(500, mm), c.height)
      && c.text.box.w == text.width(c.text.size) && c.text.box.h == LineHeight(font)(c.text.size)
      && c.text.box.x == pad && c.text.box.Right() + pad == c.width
      && c.text.box.y == UprightTop(c.height, font, c.text.size)
      && c.frame == Border(c.width, c.height, BorderStroke(mm))
  {
    if mm !in TapeWidths then Failure(Unsupported(mm))
    else
      var h := TapeWidths[mm];
      var pad := Scaled(40, mm);
      // ascent + descent <= height * 0.5, kept integral: 2 * (ascent + descent) <= height
      var size := FitSize(Times(2, LineHeight(font)), Scaled(20, mm), Scaled(500, mm), h);
      var tw := text.width(size);
      var width := tw + 2 * pad;
      var textBox := Box(Centre(width, tw), UprightTop(h, font, size), tw, LineHeight(font)(size));
      Success(Canvas(width, h, None, TextRun(textBox, size), None, None, Border(width, h, BorderStroke(mm))))
  }

  // ---------------------------------------------------------------------------------------------
  // create_shelf_label: a word turned clockwise on the left, a large upright number on the right.

  function Shelf(mm: int, font: FontMetrics, word: TextExtent, number: TextExtent): (r: Result<Canvas, LayoutError>)
    ensures r.Failure? <==> mm !in TapeWidths
    ensures r.Failure? ==> r.error == Unsupported(mm)
    ensures r.Success? ==>
      var c := r.value;
      var pad := Scaled(20, mm);
      var gap := Scaled(30, mm);
      var rotationPad := Scaled(40, mm);
      && c.height == TapeWidths[mm]
      && c.code.None? && c.icon.None? && c.number.Some?
      && c.text.size == FitSize(word.width, Scaled(30, mm), Scaled(200, mm), c.height - 2 * pad)
      && c.text.box.w == word.height(c.text.size) + rotationPad
      && c.text.box.h == word.width(c.text.size) + rotationPad
      && c.text.box.x == pad && c.text.box.y == Centre(c.height, c.text.box.h)
      && c.number.value.size == FitSize(Times(10, LineHeight(font)), Scaled(80, mm), Scaled(500, mm), 7 * c.height)
      && c.number.value.box.w == number.width(c.number.value.size)
      && c.number.value.box.h == LineHeight(font)(c.number.value.size)
      && c.number.value.box.x == c.text.box.Right() + gap
      && c.number.value.box.Right() + pad == c.width
      && c.number.value.box.y == UprightTop(c.height, font, c.number.value.size)
      && c.frame == Border(c.width, c.height, BorderStroke(mm))
  {
    if mm !in TapeWidths then Failure(Unsupported(mm))
    else
      var h := TapeWidths[mm];
      var pad := Scaled(20, mm);
      var gap := Scaled(30, mm);
      var wordSize := FitSize(word.width, Scaled(30, mm), Scaled(200, mm), h - 2 * pad);
      var rotated := RotateExpand(PaddedText(word.width(wordSize), word.height(wordSize), Scaled(40, mm)), Clockwise);
      // ascent + descent <= height * 0.7, kept integral: 10 * (ascent + descent) <= 7 * height
      var numberSize := FitSize(Times(10, LineHeight(font)), Scaled(80, mm), Scaled(500, mm), 7 * h);
      var nw := number.width(numberSize);
      var width := rotated.w + gap + nw + 2 * pad;
      var wordBox := Box(pad, Centre(h, rotated.h), rotated.w, rotated.h);
      var numberBox := Box(pad + rotated.w + gap, UprightTop(h, font, numberSize), nw, LineHeight(font)(numberSize));
      Success(Canvas(width, h, None, TextRun(wordBox, wordSize), None, Some(TextRun(numberBox, numberSize)),
                     Border(width, h, BorderStroke(mm))))
  }

  // ---------------------------------------------------------------------------------------------
  // create_storage_qr_label: code with a caption under it on the left, a large number on the right.

  /**
   * The caption budget min(available * 0.8, height * 0.2) against ascent + descent, kept
   * integral against 5 * (ascent + descent). Without a code the available band is height * 0.3,
   * and min(0.24 * height, 0.2 * height) is 0.2 * height.
   */
  function CaptionBudget(h: int, side: int, pad: int, includeCode: bool): (b: int)
    ensures b <= h && (!includeCode ==> b == h)
    ensures includeCode ==> b <= 4 * (h - side - 2 * pad) && (b == h || b == 4 * (h - side - 2 * pad))
  {
    if includeCode then Min(4 * (h - side - 2 * pad), h) else h
  }

  /**
   * The caption fits the budget exactly when it fits both terms of the source's minimum: a fifth
   * of the height, and 0.8 of the band left for text (height - code - 2 padding with a code,
   * 0.3 of the height without one).
   */
  lemma CaptionBudgetMeaning(h: int, side: int, pad: int, includeCode: bool, line: int)
    requires 0 <= h
    ensures 5 * line <= CaptionBudget(h, side, pad, includeCode) <==>
      && 5 * line <= h
      && (includeCode ==> 5 * line <= 4 * (h - side - 2 * pad))
      && (!includeCode ==> 25 * line <= 6 * h)
  {
  }

  function Storage(mm: int, includeCode: bool, font: FontMetrics, caption: TextExtent, number: TextExtent): (r: Result<Canvas, LayoutError>)
    ensures r.Failure? <==> mm !in TapeWidths
    ensures r.Failure? ==> r.error == Unsupported(mm)
    ensures r.Success? ==>
      var c := r.value;
      var pad := Scaled(20, mm);
      var gap := Scaled(40, mm);
      var side := if includeCode then PercentOf(TapeWidths[mm], 65) else 0;
      var left := Max(side, c.text.box.w);
      && c.height == TapeWidths[mm]
      && c.code.Some? == includeCode && c.icon.None? && c.number.Some?
      && c.text.size == FitSize(Times(5, LineHeight(font)), Scaled(20, mm), Scaled(150, mm), CaptionBudget(c.height, side, pad, includeCode))
      && c.text.box.w == caption.width(c.text.size) && c.text.box.h == LineHeight(font)(c.text.size)
      && c.text.box.x == pad + (left - c.text.box.w) / 2
      && (includeCode ==>
            && c.code.value.w == c.code.value.h == side
            && c.code.value.x == pad + (left - side) / 2
            && c.code.value.y == Centre(c.height, side + c.text.box.h)
            && c.text.box.y == c.code.value.Bottom())
      && (!includeCode ==> c.text.box.y == Centre(c.height, c.text.box.h))
      && c.number.value.size == FitSize(Times(4, LineHeight(font)), Scaled(100, mm), Scaled(600, mm), 3 * c.height)
      && c.number.value.box.w == number.width(c.number.value.size)
      && c.number.value.box.h == LineHeight(font)(c.number.value.size)
      && c.number.value.box.x == pad + left + gap
      && c.number.value.box.Right() + pad == c.width
      && c.number.value.box.y == UprightTop(c.height, font, c.number.value.size)
      && c.frame == Border(c.width, c.height, BorderStroke(mm))
  {
    if mm !in TapeWidths then Failure(Unsupported(mm))
    else
      var h := TapeWidths[mm];
      var pad := Scaled(20, mm);
      var gap := Scaled(40, mm);
      var side := if includeCode then PercentOf(h, 65) else 0;
      var captionSize := FitSize(Times(5, LineHeight(font)), Scaled(20, mm), Scaled(150, mm), CaptionBudget(h, side, pad, includeCode));
      var cw := caption.width(captionSize);
      var ch := LineHeight(font)(captionSize);
      var left := Max(side, cw);
      // ascent + descent <= height * 0.75, kept integral: 4 * (ascent + descent) <= 3 * height
      var numberSize := FitSize(Times(4, LineHeight(font)), Scaled(100, mm), Scaled(600, mm), 3 * h);
      var nw := number.width(numberSize);
      var width := pad + left + gap + nw + pad;
      var numberBox := Box(pad + left + gap, UprightTop(h, font, numberSize), nw, LineHeight(font)(numberSize));
      var numberRun := Some(TextRun(numberBox, numberSize));
      if includeCode then
        var top := Centre(h, side + ch);
        var code := Box(pad + (left - side) / 2, top, side, side);
        var captionBox := Box(pad + (left - cw) / 2, top + side, cw, ch);
        Success(Canvas(width, h, Some(code), TextRun(captionBox, captionSize), None, numberRun, Border(width, h, BorderStroke(mm))))
      else
        var captionBox := Box(pad + (left - cw) / 2, Centre(h, ch), cw, ch);
        Success(Canvas(width, h, None, TextRun(captionBox, captionSize), None, numberRun, Border(width, h, BorderStroke(mm))))
  }
}
