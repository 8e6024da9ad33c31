/**
 * What the layouts guarantee once the fit has accepted a size: the elements stay inside their
 * paddings, the canvas width follows from the element extents, and the border lies on the canvas.
 * "Accepted" means the fit returned a size other than its upper bound, the one case in which the
 * measured extent is known to respect the budget.
 */
module TemplateProps {
  import opened Wrappers
  import opened Tape
  import opened FontFit
  import opened Geometry
  import opened Templates

  /** Both corners of the border rectangle lie on the canvas, in order. */
  ghost predicate FrameOnCanvas(c: Canvas)
  {
    0 <= c.frame.left <= c.frame.right < c.width && 0 <= c.frame.top <= c.frame.bottom < c.height
  }

  lemma {:induction false} StrokeAtMostSix(mm: int)
    ensures BorderStroke(mm) <= 6
  {
    ScaledBounds(2, mm);
  }

  lemma FrameOnWideCanvas(c: Canvas, mm: int)
    requires c.frame == Border(c.width, c.height, BorderStroke(mm))
    requires BorderStroke(mm) < c.width && BorderStroke(mm) < c.height
    ensures FrameOnCanvas(c)
  {
  }

  /** int(h * 0.85), int(h * 0.90) and int(h * 0.65) never exceed the label height. */
  lemma {:induction false} CodeSidesWithinHeight(mm: int)
    requires mm in TapeWidths
    ensures PercentOf(TapeWidths[mm], 65) < PercentOf(TapeWidths[mm], 85) < PercentOf(TapeWidths[mm], 90) < TapeWidths[mm]
  {
    var h := TapeWidths[mm];
    assert 306 <= h;
  }

  /** Every supported tape is taller than the border stroke. */
  lemma {:induction false} TapeTallerThanStroke(mm: int)
    requires mm in TapeWidths
    ensures BorderStroke(mm) < TapeWidths[mm]
  {
    StrokeAtMostSix(mm);
  }

  // ---------------------------------------------------------------------------------------------

  /**
   * Template 1: the canvas width is the sum of the element extents and paddings, the part of
   * the text above the baseline stays inside the vertical padding on an accepted fit, and the
   * border lies on the canvas.
   */
  lemma {:induction false} HorizontalFits(mm: int, fontSize: int, includeCode: bool, font: FontMetrics, text: TextExtent)
    requires SaneFont(font) && SaneExtent(text)
    requires Horizontal(mm, fontSize, includeCode, font, text).Success?
    ensures var c := Horizontal(mm, fontSize, includeCode, font, text).value;
      var pad := Scaled(15, mm);
      var tw := c.text.box.w;
      && (includeCode ==> c.width == PercentOf(c.height, 85) + tw + Scaled(80, mm) + 2 * pad + 2 * (3 * pad))
      && (!includeCode ==> c.width == tw + Scaled(80, mm) + 3 * pad + 3 * pad)
      && FrameOnCanvas(c)
      && (c.text.size != Scaled(fontSize, mm) ==>
            pad <= c.text.box.y && c.text.box.y + font.ascent(c.text.size) <= c.height - pad)
  {
    var c := Horizontal(mm, fontSize, includeCode, font, text).value;
    var pad := Scaled(15, mm);
    ScaledBounds(15, mm);
    ScaledBounds(80, mm);
    StrokeAtMostSix(mm);
    TapeTallerThanStroke(mm);
    assert 0 <= text.width(c.text.size);
    FrameOnWideCanvas(c, mm);
    if c.text.size != Scaled(fontSize, mm) {
      FitSizeOutcome(LineHeight(font), Scaled(20, mm), Scaled(fontSize, mm), c.height - 2 * pad);
      assert 0 <= font.ascent(c.text.size) && 0 <= font.descent(c.text.size);
      UprightWithinPadding(c.height, font, c.text.size, pad);
    }
  }

  /**
   * Template 2: both elements are centred horizontally inside the side paddings, and the text
   * starts a scaled gap of at least 30 px under the code; on an accepted fit the code-gap-text
   * stack, or the text alone, stays inside the vertical paddings.
   */
  lemma {:induction false} CodeAboveTextFits(mm: int, fontSize: int, includeCode: bool, font: FontMetrics, text: TextExtent)
    requires SaneExtent(text)
    requires CodeAboveText(mm, fontSize, includeCode, font, text).Success?
    ensures var c := CodeAboveText(mm, fontSize, includeCode, font, text).value;
      var pad := Scaled(15, mm);
      && pad <= c.text.box.x && c.text.box.Right() <= c.width - pad
      && (includeCode ==> pad <= c.code.value.x && c.code.value.Right() <= c.width - pad)
      && (includeCode ==> c.code.value.Bottom() + Scaled(30, mm) == c.text.box.y && 30 <= Scaled(30, mm))
      && FrameOnCanvas(c)
      && (c.text.size != Scaled(fontSize, mm) ==>
            && c.text.box.Bottom() <= c.height - pad
            && (includeCode ==> pad <= c.code.value.y)
            && (!includeCode ==> pad <= c.text.box.y))
  {
    var c := CodeAboveText(mm, fontSize, includeCode, font, text).value;
    var pad := Scaled(15, mm);
    var gap := Scaled(30, mm);
    var side := if includeCode then PercentOf(c.height, 85) else 0;
    ScaledBounds(15, mm);
    ScaledBounds(30, mm);
    StrokeAtMostSix(mm);
    TapeTallerThanStroke(mm);
    assert 0 <= text.width(c.text.size);
    CentreKeepsMargin(c.width, c.text.box.w, pad);
    if includeCode {
      CentreKeepsMargin(c.width, side, pad);
    }
    FrameOnWideCanvas(c, mm);
    if c.text.size != Scaled(fontSize, mm) {
      var available := if includeCode then c.height - side - gap - 2 * pad else c.height - 2 * pad;
      FitSizeOutcome(LineHeight(font), Scaled(20, mm), Scaled(fontSize, mm), available);
      if includeCode {
        CentreKeepsMargin(c.height, side + gap + c.text.box.h, pad);
      } else {
        CentreKeepsMargin(c.height, c.text.box.h, pad);
      }
    }
  }

  /**
   * Template 3: the rows the glyphs occupy once the padded text image is turned
   * counter-clockwise and pasted stay inside the vertical padding on an accepted fit.
   */
  lemma {:induction false} CodeBesideRotatedTextFits(mm: int, fontSize: int, includeCode: bool, text: TextExtent)
    requires SaneExtent(text)
    requires CodeBesideRotatedText(mm, fontSize, includeCode, text).Success?
    ensures var c := CodeBesideRotatedText(mm, fontSize, includeCode, text).value;
      var pad := Scaled(15, mm);
      var rotationPad := Scaled(40, mm);
      var tw := text.width(c.text.size);
      var rows := RotatedRows(PaddedText(tw, text.height(c.text.size), rotationPad), CounterClockwise, rotationPad / 2, tw);
      && (includeCode ==> LeftOf(c.code.value, c.text.box))
      && FrameOnCanvas(c)
      && (c.text.size != Scaled(fontSize, mm) ==>
            pad <= c.text.box.y + rows.0 && c.text.box.y + rows.0 + rows.1 <= c.height - pad)
  {
    var c := CodeBesideRotatedText(mm, fontSize, includeCode, text).value;
    var pad := Scaled(15, mm);
    ScaledBounds(15, mm);
    ScaledBounds(40, mm);
    StrokeAtMostSix(mm);
    TapeTallerThanStroke(mm);
    assert 0 <= text.width(c.text.size) && 0 <= text.height(c.text.size);
    if includeCode {
      CodeSidesWithinHeight(mm);
    }
    FrameOnWideCanvas(c, mm);
    if c.text.size != Scaled(fontSize, mm) {
      FitSizeOutcome(text.width, Scaled(20, mm), Scaled(fontSize, mm), c.height - 2 * pad);
    }
  }

  /**
   * Text-only label: the text starts exactly at the horizontal padding, and on an accepted fit
   * the part above the baseline stays inside the vertical padding.
   */
  lemma {:induction false} TextOnlyFits(mm: int, fontSize: int, font: FontMetrics, text: TextExtent)
    requires SaneFont(font) && SaneExtent(text)
    requires TextOnly(mm, fontSize, font, text).Success?
    ensures var c := TextOnly(mm, fontSize, font, text).value;
      var vertical := Scaled(40, mm);
      && c.width == c.text.box.w + 2 * Scaled(60, mm)
      && FrameOnCanvas(c)
      && (c.text.size != Scaled(fontSize, mm) ==>
            vertical <= c.text.box.y && c.text.box.y + font.ascent(c.text.size) <= c.height - vertical)
  {
    var c := TextOnly(mm, fontSize, font, text).value;
    var vertical := Scaled(40, mm);
    ScaledBounds(60, mm);
    StrokeAtMostSix(mm);
    TapeTallerThanStroke(mm);
    assert 0 <= text.width(c.text.size);
    FrameOnWideCanvas(c, mm);
    if c.text.size != Scaled(fontSize, mm) {
      FitSizeOutcome(LineHeight(font), Scaled(20, mm), Scaled(fontSize, mm), c.height - 2 * vertical);
      assert 0 <= font.ascent(c.text.size) && 0 <= font.descent(c.text.size);
      UprightWithinPadding(c.height, font, c.text.size, vertical);
    }
  }

  /**
   * Vertical-text label: on an accepted fit the rotated image plus both outer margins fits the
   * height, so the image is pasted at least one outer margin from the top and from the bottom.
   */
  lemma {:induction false} VerticalTextFits(mm: int, text: TextExtent)
    requires SaneExtent(text)
    requires VerticalText(mm, text).Success?
    ensures var c := VerticalText(mm, text).value;
      var margin := OuterMargin(mm);
      && FrameOnCanvas(c)
      && (c.text.size != Scaled(500, mm) ==>
            && c.text.box.h + 2 * margin <= c.height
            && margin <= c.text.box.y && c.text.box.Bottom() <= c.height - margin)
  {
    var c := VerticalText(mm, text).value;
    var margin := OuterMargin(mm);
    var padding := RotationPadding(mm);
    ScaledBounds(15, mm);
    ScaledBounds(10, mm);
    StrokeAtMostSix(mm);
    TapeTallerThanStroke(mm);
    assert 0 <= text.width(c.text.size) && 0 <= text.height(c.text.size);
    FrameOnWideCanvas(c, mm);
    if c.text.size != Scaled(500, mm) {
      FitSizeOutcome(text.width, Scaled(20, mm), Scaled(500, mm), c.height - 2 * margin - 2 * padding);
      CentreKeepsMargin(c.height, c.text.box.h, margin);
    }
  }

  /** Template 6: as template 2 with the text on top and the code a scaled gap under it. */
  lemma {:induction false} TextAboveCodeFits(mm: int, fontSize: int, includeCode: bool, font: FontMetrics, text: TextExtent)
    requires SaneExtent(text)
    requires TextAboveCode(mm, fontSize, includeCode, font, text).Success?
    ensures var c := TextAboveCode(mm, fontSize, includeCode, font, text).value;
      var pad := Scaled(15, mm);
      && pad <= c.text.box.x && c.text.box.Right() <= c.width - pad
      && (includeCode ==> pad <= c.code.value.x && c.code.value.Right() <= c.width - pad)
      && (includeCode ==> c.text.box.Bottom() + Scaled(30, mm) == c.code.value.y && 30 <= Scaled(30, mm))
      && FrameOnCanvas(c)
      && (c.text.size != Scaled(fontSize, mm) ==>
            && pad <= c.text.box.y
            && (includeCode ==> c.code.value.Bottom() <= c.height - pad)
            && (!includeCode ==> c.text.box.Bottom() <= c.height - pad))
  {
    var c := TextAboveCode(mm, fontSize, includeCode, font, text).value;
    var pad := Scaled(15, mm);
    var gap := Scaled(30, mm);
    var side := if includeCode then PercentOf(c.height, 85) else 0;
    ScaledBounds(15, mm);
    ScaledBounds(30, mm);
    StrokeAtMostSix(mm);
    TapeTallerThanStroke(mm);
    assert 0 <= text.width(c.text.size);
    CentreKeepsMargin(c.width, c.text.box.w, pad);
    if includeCode {
      CentreKeepsMargin(c.width, side, pad);
    }
    FrameOnWideCanvas(c, mm);
    if c.text.size != Scaled(fontSize, mm) {
      var available := if includeCode then c.height - side - gap - 2 * pad else c.height - 2 * pad;
      FitSizeOutcome(LineHeight(font), Scaled(20, mm), Scaled(fontSize, mm), available);
      if includeCode {
        CentreKeepsMargin(c.height, c.text.box.h + gap + side, pad);
      } else {
        CentreKeepsMargin(c.height, c.text.box.h, pad);
      }
    }
  }

  /**
   * Horizontally centred label: on an accepted fit the line takes at most half the height, so
   * the part above the baseline stays a quarter of the height away from both edges.
   */
  lemma {:induction false} HalfHeightTextFits(mm: int, font: FontMetrics, text: TextExtent)
    requires SaneFont(font) && SaneExtent(text)
    requires HalfHeightText(mm, font, text).Success?
    ensures var c := HalfHeightText(mm, font, text).value;
      var quarter := c.height / 4;
      && c.width == c.text.box.w + 2 * Scaled(40, mm)
      && FrameOnCanvas(c)
      && (c.text.size != Scaled(500, mm) ==>
            && 2 * c.text.box.h <= c.height
            && quarter <= c.text.box.y && c.text.box.y + font.ascent(c.text.size) <= c.height - quarter)
  {
    var c := HalfHeightText(mm, font, text).value;
    ScaledBounds(40, mm);
    StrokeAtMostSix(mm);
    TapeTallerThanStroke(mm);
    assert 0 <= text.width(c.text.size);
    FrameOnWideCanvas(c, mm);
    if c.text.size != Scaled(500, mm) {
      FitSizeOutcome(Times(2, LineHeight(font)), Scaled(20, mm), Scaled(500, mm), c.height);
      assert 0 <= font.ascent(c.text.size) && 0 <= font.descent(c.text.size);
      UprightWithinPadding(c.height, font, c.text.size, c.height / 4);
    }
  }

  /**
   * Shelf label: the number starts one gap right of the rotated word. On an accepted word fit
   * the rows of the word's glyphs, once turned clockwise, end inside the bottom padding and start
   * no more than one pixel into the top padding (exactly inside it when the rotation padding is
   * even; it is odd, 53, on 38 mm tape). On an accepted number fit the part of the number above
   * the baseline stays 15% of the height away from both edges.
   */
  lemma {:induction false} ShelfFits(mm: int, font: FontMetrics, word: TextExtent, number: TextExtent)
    requires SaneFont(font) && SaneExtent(word) && SaneExtent(number)
    requires Shelf(mm, font, word, number).Success?
    ensures var c := Shelf(mm, font, word, number).value;
      var pad := Scaled(20, mm);
      var rotationPad := Scaled(40, mm);
      var vw := word.width(c.text.size);
      var rows := RotatedRows(PaddedText(vw, word.height(c.text.size), rotationPad), Clockwise, rotationPad / 2, vw);
      var n := c.number.value;
      && c.width == c.text.box.w + Scaled(30, mm) + n.box.w + 2 * pad
      && c.text.box.Right() < n.box.x
      && FrameOnCanvas(c)
      && (c.text.size != Scaled(200, mm) ==>
            && pad - 1 <= c.text.box.y + rows.0
            && (rotationPad % 2 == 0 ==> pad <= c.text.box.y + rows.0)
            && c.text.box.y + rows.0 + rows.1 <= c.height - pad)
      && (n.size != Scaled(500, mm) ==>
            && 10 * n.box.h <= 7 * c.height
            && PercentOf(c.height, 15) <= n.box.y
            && n.box.y + font.ascent(n.size) <= c.height - PercentOf(c.height, 15))
  {
    var c := Shelf(mm, font, word, number).value;
    var n := c.number.value;
    var pad := Scaled(20, mm);
    ScaledBounds(20, mm);
    ScaledBounds(30, mm);
    ScaledBounds(40, mm);
    StrokeAtMostSix(mm);
    TapeTallerThanStroke(mm);
    assert 0 <= word.width(c.text.size) && 0 <= word.height(c.text.size);
    assert 0 <= number.width(n.size);
    FrameOnWideCanvas(c, mm);
    if c.text.size != Scaled(200, mm) {
      FitSizeOutcome(word.width, Scaled(30, mm), Scaled(200, mm), c.height - 2 * pad);
    }
    if n.size != Scaled(500, mm) {
      FitSizeOutcome(Times(10, LineHeight(font)), Scaled(80, mm), Scaled(500, mm), 7 * c.height);
      assert 0 <= font.ascent(n.size) && 0 <= font.descent(n.size);
      UprightWithinPadding(c.height, font, n.size, PercentOf(c.height, 15));
    }
  }

  /**
   * Storage label: the number starts one gap right of both the code and the caption. On an
   * accepted caption fit the code with the caption under it stays inside the vertical padding;
   * on an accepted number fit the part of the number above the baseline stays 12% of the height
   * away from both edges.
   */
  lemma {:induction false} StorageFits(mm: int, includeCode: bool, font: FontMetrics, caption: TextExtent, number: TextExtent)
    requires SaneFont(font) && SaneExtent(caption) && SaneExtent(number)
    requires Storage(mm, includeCode, font, caption, number).Success?
    ensures var c := Storage(mm, includeCode, font, caption, number).value;
      var pad := Scaled(20, mm);
      var gap := Scaled(40, mm);
      var n := c.number.value;
      && c.text.box.Right() + gap <= n.box.x
      && (includeCode ==> c.code.value.Right() + gap <= n.box.x && Above(c.code.value, c.text.box))
      && FrameOnCanvas(c)
      && (c.text.size != Scaled(150, mm) ==>
            && c.text.box.Bottom() <= c.height - pad
            && (includeCode ==> pad <= c.code.value.y)
            && (!includeCode ==> pad <= c.text.box.y))
      && (n.size != Scaled(600, mm) ==>
            && 4 * n.box.h <= 3 * c.height
            && PercentOf(c.height, 12) <= n.box.y
            && n.box.y + font.ascent(n.size) <= c.height - PercentOf(c.height, 12))
  {
    var c := Storage(mm, includeCode, font, caption, number).value;
    var n := c.number.value;
    var pad := Scaled(20, mm);
    var side := if includeCode then PercentOf(c.height, 65) else 0;
    ScaledBounds(20, mm);
    ScaledBounds(40, mm);
    StrokeAtMostSix(mm);
    TapeTallerThanStroke(mm);
    assert 0 <= caption.width(c.text.size) && 0 <= number.width(n.size);
    FrameOnWideCanvas(c, mm);
    if c.text.size != Scaled(150, mm) {
      FitSizeOutcome(Times(5, LineHeight(font)), Scaled(20, mm), Scaled(150, mm), CaptionBudget(c.height, side, pad, includeCode));
      assert 0 <= font.ascent(c.text.size) && 0 <= font.descent(c.text.size);
      if includeCode {
        CentreKeepsMargin(c.height, side + c.text.box.h, pad);
      } else {
        CentreKeepsMargin(c.height, c.text.box.h, pad);
      }
    }
    if n.size != Scaled(600, mm) {
      FitSizeOutcome(Times(4, LineHeight(font)), Scaled(100, mm), Scaled(600, mm), 3 * c.height);
      assert 0 <= font.ascent(n.size) && 0 <= font.descent(n.size);
      UprightWithinPadding(c.height, font, n.size, PercentOf(c.height, 12));
    }
  }
}
