# Brother QL label layouts and GUI bookkeeping, in Dafny

This project models the core of a label maker for Brother QL printers. It has two parts.

The renderer (`app/print_label.py`) turns a tape class into a bitmap of fixed height:

- 29 mm tape gives 306 px, 38 mm gives 413 px, 50 mm gives 554 px and 62 mm gives 696 px.
- Every padding and every font bound is scaled by `height / 306`.
- A binary search fits the font.
- Nine layouts place a square QR bitmap, text (upright or turned a quarter turn), an icon or a large number, and a border. The canvas height is fixed; the width is derived from the elements.

The Qt GUI (`app/label_printer_gui.py`) keeps some bookkeeping of its own:

- auto-increment of a trailing number;
- joining a prefix to the stripped input;
- the copies selector (quick buttons plus a drop-down);
- the batch table of at most ten rows;
- checking the batch rows before anything is rendered;
- stacking the rendered labels into one preview.

Modules:

- `Tape` (tape.dfy): the tape table. The scale is an exact rational, and `int(k * scale)` is truncating integer division.
- `FontFit` (font_fit.dfy): the font-fit loop, modelled once over an abstract measure `m: int -> int`. It is written both as the loop method `FitFontSize` and as the function `FitSize` that the layouts use.
- `Geometry` (geometry.dfy): boxes, Python's `(span - extent) // 2` centring, rotation by ±90° with `expand`, and the border rectangle.
- `Templates` (templates.dfy): the nine layouts. Each is a function from the tape class, the options, the font metrics (`getmetrics`) and the text extents (`textbbox`) to a `Canvas`, or to the unsupported-width error. The metrics and extents are functions of the font size.
- `TemplateProps` (template_props.dfy): what each layout guarantees once its fit has accepted a size.
- `LabelText`, `Copies` and `Batch`: the GUI bookkeeping.

Float ratios are stated as exact integer comparisons:

- a line height of at most 0.5·h becomes 2·line ≤ h;
- at most 0.7·h becomes 10·line ≤ 7·h;
- at most 0.75·h becomes 4·line ≤ 3·h;
- the storage caption budget `min(0.8·avail, 0.2·h)` becomes 5·line ≤ min(4·avail, h);
- `int(h * 0.85)` and the other code sides become `h·85/100` and so on.

Where the code and its documentation disagree, the model follows the code:

- The fit does not return "the largest size in [min, max] that fits".
  - It never probes `max`, so when every probe fits it returns `max - 1`.
  - When no probe fits (including `max - min ≤ 1`), it returns `max` itself, and that size may overflow the budget (`FitSizeOutcome`, `DegenerateFitOverflows`).
- A longer text is guaranteed a size no larger when the longer text fits at `min + 1` (`FitSizeAntitone`). Without that proviso the ordering can fail (`FitSizeNotAntitoneWhenNothingFits`).
- Template 1 without a QR code starts its text at `2 * padding`. It does not centre it, whatever the comment says.
- `current_copies` goes stale after picking a number and then "Other" (`Copies.StaleAfterOther`). Printing reads `get_copies()`, never `current_copies`.

## Model

| member | source | states |
|---|---|---|
| Tape.SupportedWidthsAreTableKeys | app/print_label.py:35-40 | the table's keys are exactly 29, 38, 50 and 62, the list the error message names |
| Tape.HeightIncreasing | app/print_label.py:35-40 | a wider tape class has a strictly taller bitmap |
| Tape.Scale | app/print_label.py:47-62 | 1.0 for a class outside the table; otherwise the scale times 306 is the class's height |
| Tape.ScaleOfReference | app/print_label.py:43-44 | the 29 mm class has scale 1 |
| Tape.ScaleMonotone | app/print_label.py:47-62 | the scale of a supported class is at least 1 and grows with the class |
| Tape.Trunc | app/print_label.py:106 | Python's `int()` on a real truncates toward zero: bounds for each sign |
| Tape.Scaled | app/print_label.py:106 | `int(k * scale)` computed as integer division equals truncation of the exact product |
| Tape.ScaledIsTrunc | app/print_label.py:106 | the integer formula for `int(k * scale)` agrees with truncating `k * h / 306` |
| Tape.FloorOfQuotient | app/print_label.py:106 | the floor of the exact quotient of naturals is integer division |
| Tape.ScaledBounds | app/print_label.py:106-109 | a scaled non-negative constant k lies in [k, 3k] |
| Tape.PercentOf | app/print_label.py:123 | `int(h * pct/100)` is the largest r with 100·r ≤ h·pct |
| Tape.PercentWithinWhole | app/print_label.py:123 | a share of at most 100% never exceeds the whole |
| FontFit.Search | app/print_label.py:145-157 | the loop from a given bracket and best size ends at that best size or at a size strictly inside the bracket that fits the budget |
| FontFit.FitSize | app/print_label.py:141-157 | the fitted size is the upper bound, or a size strictly inside the bracket that fits; the same search serves lines 285-301, 411-432, 523-543, 628-647 and 749-765 |
| FontFit.Probe | app/print_label.py:146 | the probe `(lo + hi) // 2` lies strictly between the bounds while they are more than 1 apart |
| FontFit.SearchOutcome | app/print_label.py:145-157 | from any loop state, the search ends at the upper bound (when nothing fits at min+1) or at a fitting size whose successor overflows or is the upper bound |
| FontFit.FitSizeOutcome | app/print_label.py:141-157 | the fitted size is the upper bound (only when the bracket is at most 1 wide or min+1 overflows) or a size strictly inside the bracket that fits, with its successor the upper bound or overflowing |
| FontFit.ProbesWithin | app/print_label.py:145-157 | every probed size lies strictly inside the initial bracket |
| FontFit.SearchFollowsProbes | app/print_label.py:145-157 | if no probe fits the search keeps its start value; otherwise it returns a probed size that fits |
| FontFit.FitSizeProbes | app/print_label.py:141-157 | the fit returns the upper bound exactly when no probe fitted; otherwise a fitting probed size |
| FontFit.FitSizeMonotone | app/print_label.py:141-157 | for a monotone measure: the upper bound exactly when the bracket is at most 1 wide or min+1 overflows; otherwise the largest fitting size below the upper bound |
| FontFit.FitSizeAntitone | app/print_label.py:409-432 | a text measuring at least as much at every size gets a size no larger, when it fits at min+1 |
| FontFit.FitSizeNotAntitoneWhenNothingFits | app/print_label.py:141-157 | a text that never fits gets a larger size than one that always fits |
| FontFit.DegenerateFitOverflows | app/print_label.py:141-157 | when min+1 overflows, the fit returns the upper bound, which overflows too |
| FontFit.FitFontSize | app/print_label.py:141-157 | the while loop returns the same size as the search function: the upper bound or a fitting size strictly inside the bracket |
| Geometry.Centre | app/print_label.py:185 | centring with `//` leaves equal margins, or one more pixel after the element |
| Geometry.CentreKeepsMargin | app/print_label.py:324 | an extent that fits between two margins keeps both margins when centred |
| Geometry.RotatePixel | app/print_label.py:450 | a quarter turn sends every pixel of a w×h image to a pixel of an h×w image |
| Geometry.RotatePixelInjective | app/print_label.py:450 | no two source pixels land on the same pixel |
| Geometry.RotateExpandIsBoundingBox | app/print_label.py:450 | with expand, every source pixel lands on the new canvas and every pixel of it is the image of a source pixel, which the opposite turn recovers |
| Geometry.RotateRoundTrip | app/print_label.py:982 | a clockwise turn undoes a counter-clockwise one, on sizes and on pixels |
| Geometry.RotatedRows | app/print_label.py:445-450 | the text columns of the padded image occupy the stated rows after the turn: reversed for counter-clockwise, kept for clockwise |
| Geometry.BorderStroke | app/print_label.py:211 | the stroke is at least 2, and it is the scaled 2 unless that is below 2 |
| Geometry.Border | app/print_label.py:211-221 | the rectangle is inset by stroke//2 from each edge; its corners lie on a canvas at least the stroke wide and high, in order |
| Templates.Max | app/print_label.py:315 | `max` of two integers is at least both and is one of them |
| Templates.Min | app/print_label.py:1104 | `min` of two integers is at most both and is one of them |
| Templates.UprightTop | app/print_label.py:198-201 | for a non-negative descent, the part of the line above the baseline is centred in the height to within two pixels |
| Templates.UprightWithinPadding | app/print_label.py:201 | a line that fits between two paddings, shifted down by half its descent, keeps the part above its baseline inside the paddings |
| Templates.Horizontal | app/print_label.py:72-226 | error iff unsupported width; height is the tape's; the fit runs on ascent+descent against height − 2·pad; code at pad with a 3·pad gap to the text; text at 2·pad without code; 3·pad to the icon; icon pad from the right and bottom edges; border from the stroke |
| Templates.CodeAboveText | app/print_label.py:229-354 | error iff unsupported width; fixed height; fit against the height minus the code side and gap; width is max(code side, text width) + 2·pad; both centred horizontally; the text starts one gap below the code, the stack centred vertically |
| Templates.CodeBesideRotatedText | app/print_label.py:357-488 | error iff unsupported width; fixed height; fit on the text width against height − 2·pad; the pasted image is the padded text with width and height swapped, centred vertically, pad after the code; right padding as written for each case |
| Templates.TextOnly | app/print_label.py:491-581 | error iff unsupported width; fixed height; fit against height − 2·vertical pad; the text starts exactly at the horizontal padding, and the same padding follows it |
| Templates.VerticalText | app/print_label.py:584-690 | error iff unsupported width; fixed height; fit on the text width against height − 2·margin − 2·padding with bounds scaled 20 and 500; image padded on all sides, turned and placed one margin from each side |
| Templates.TextAboveCode | app/print_label.py:693-819 | as template 2 with the text on top and the code one gap below it |
| Templates.HalfHeightText | app/print_label.py:822-908 | error iff unsupported width; fixed height; fit with 2·(ascent+descent) ≤ height; text exactly one scaled-40 padding from each side |
| Templates.Shelf | app/print_label.py:911-1044 | error iff unsupported width; fixed height; the word is fitted on width and turned clockwise at the left padding, centred vertically; the number is fitted on 10·line ≤ 7·height and starts one gap after the word; padding closes the width |
| Templates.OuterMargin | app/print_label.py:611-614 | the outer margin is 15 to 45 px and at least 5% of the height, rounded down |
| Templates.RotationPadding | app/print_label.py:616-618 | the rotation padding is 10 to 30 px and at least 3% of the height, rounded down |
| Templates.CaptionBudget | app/print_label.py:1101-1104 | the budget is at most the height, equals it without a code, and with a code is the smaller of the height and four times the band left beside the code |
| Templates.CaptionBudgetMeaning | app/print_label.py:1101-1104 | 5·line fits the budget exactly when the line is at most a fifth of the height and at most 0.8 of the band left for text (0.3 of the height without a code) |
| Templates.Storage | app/print_label.py:1047-1209 | error iff unsupported width; fixed height; the caption is fitted against the min of the two budgets; code and caption centred in a left column of width max(code, caption), the caption directly under the code; the number is fitted on 4·line ≤ 3·height and starts at pad + left + gap |
| TemplateProps.StrokeAtMostSix | app/print_label.py:211 | the border stroke is at most 6 px |
| TemplateProps.FrameOnWideCanvas | app/print_label.py:216-221 | on a canvas wider and taller than the stroke, both border corners lie on the canvas |
| TemplateProps.CodeSidesWithinHeight | app/print_label.py:123 | the code sides at 65%, 85% and 90% are strictly ordered and below the label height |
| TemplateProps.TapeTallerThanStroke | app/print_label.py:211 | every tape is taller than its border stroke |
| TemplateProps.HorizontalFits | app/print_label.py:168-221 | width with code is qr + tw + icon + 2·pad + 2·3·pad, without code tw + icon + 3·pad + 3·pad; the border lies on the canvas; on an accepted fit the text above the baseline is within the vertical padding |
| TemplateProps.CodeAboveTextFits | app/print_label.py:315-352 | both elements lie within the side paddings; the text starts a gap of int(30·scale) ≥ 30 px below the code; on an accepted fit the stack lies within the vertical paddings; border on canvas |
| TemplateProps.CodeBesideRotatedTextFits | app/print_label.py:444-474 | code left of the text; on an accepted fit the rows of the turned glyphs lie within the vertical padding; border on canvas |
| TemplateProps.TextOnlyFits | app/print_label.py:554-566 | width is tw + 2·horizontal padding; on an accepted fit the text above the baseline lies within the vertical padding; border on canvas |
| TemplateProps.VerticalTextFits | app/print_label.py:625-677 | on an accepted fit the rotated height plus two outer margins fits the label, so the image lies at least one margin from the top and bottom; border on canvas |
| TemplateProps.TextAboveCodeFits | app/print_label.py:779-812 | both elements lie within the side paddings; the code starts a gap of int(30·scale) ≥ 30 px below the text; on an accepted fit the stack lies within the vertical paddings; border on canvas |
| TemplateProps.HalfHeightTextFits | app/print_label.py:851-893 | width is tw + 2·padding; on an accepted fit the line is at most half the height and the text above the baseline stays a quarter of the height from both edges |
| TemplateProps.ShelfFits | app/print_label.py:976-1030 | width is rotated width + gap + number width + 2·pad; the number starts strictly right of the word; on an accepted word fit the word's glyph rows end inside the bottom padding and start at most one pixel into the top padding (inside it for an even rotation padding); on an accepted number fit the number's top part stays 15% from both edges |
| TemplateProps.StorageFits | app/print_label.py:1134-1195 | the number starts one gap right of the code and of the caption, the caption under the code; on an accepted caption fit the left column lies within the vertical padding; on an accepted number fit the number's top part stays 12% from both edges |
| LabelText.DigitChar | app/label_printer_gui.py:990 | the digit character for d < 10 reads back as d |
| LabelText.NatToString | app/label_printer_gui.py:990 | `str(n)` is a non-empty digit string with no leading zero that reads back as n |
| LabelText.TrailingDigitsStart | app/label_printer_gui.py:993-995 | the match of `(\d+)$` starts where the trailing digit run starts, after a non-digit |
| LabelText.IncrementLabel | app/label_printer_gui.py:978-1009 | the result of increment_label and increment_text_only_label (lines 1399-1430) always ends in a number; the lemmas below give its value and stem |
| LabelText.TrailingDigitsOfConcat | app/label_printer_gui.py:995-996 | digits appended to a stem that does not end in a digit form exactly the trailing number |
| LabelText.IncrementRewritesTrailingNumber | app/label_printer_gui.py:985-1006 | with a trailing number, with or without a prefix, the result is exactly the stem followed by str() of the number plus one, so leading zeros are dropped |
| LabelText.IncrementBumpsTrailingNumber | app/label_printer_gui.py:978-1006 | with a trailing number, with or without a prefix, the result is the stem followed by str() of the number plus one (no leading zeros); read back, the stem is unchanged and the number grows by one |
| LabelText.IncrementStartsAtTwo | app/label_printer_gui.py:1002-1009 | without a prefix or a trailing number, the result is exactly the text followed by " 2" |
| LabelText.IncrementWithPrefixStartsAtOne | app/label_printer_gui.py:985-998 | with a prefix and no trailing number the text becomes "1" |
| LabelText.PrefixOnlyMattersWithoutNumber | app/label_printer_gui.py:1399-1430 | the all-digit branch under a prefix equals the trailing-number rewrite, so the prefix matters only when there is no number; the text-only variant is the same rewrite |
| LabelText.IncrementExamples | app/label_printer_gui.py:978-1009 | "Box 9" → "Box 10"; "007" under a prefix → "8"; "Shelf" → "Shelf 2"; "" under a prefix → "1" |
| LabelText.Strip | app/label_printer_gui.py:944 | a non-empty stripped text begins and ends with a non-space |
| LabelText.StripIsSlice | app/label_printer_gui.py:944 | the stripped text is a slice of the input with only whitespace before and after it |
| LabelText.StripKeepsTrimmed | app/label_printer_gui.py:944 | a text that begins and ends with a non-space is left unchanged |
| LabelText.StripEmptyIffAllSpace | app/label_printer_gui.py:944-947 | the stripped text is empty exactly when the input is all whitespace |
| LabelText.StripIdempotent | app/label_printer_gui.py:944 | stripping twice is stripping once |
| LabelText.FinalLabelText | app/label_printer_gui.py:941-957 | the result is longer than the stripped text iff prefix and stripped text are both non-empty, and then it is prefix, a space and the stripped text; it always ends with the stripped text |
| LabelText.FinalLabelTextIsStripped | app/label_printer_gui.py:941-948 | with a prefix that does not start with whitespace, the final text is already stripped |
| Copies.Selected | app/label_printer_gui.py:1036-1048 | with no button checked, the drop-down value if above 0, else 1; with a button checked, one of the quick labels |
| Copies.SelectedFrom | app/label_printer_gui.py:1036-1048 | with no checked button from i on, the drop-down value if above 0, else 1; a checked button at i gives its label |
| Copies.FirstCheckedWins | app/label_printer_gui.py:1038-1041 | the first checked button decides the count |
| Copies.SelectedInRange | app/label_printer_gui.py:1036-1048 | the count read back is between 1 and 20 |
| Copies.CopiesSelector.constructor | app/label_printer_gui.py:55 | starts with the first button checked, "Other" shown, one copy |
| Copies.CopiesSelector.SetCopies | app/label_printer_gui.py:1011-1025 | exactly the buttons labelled count are checked, the drop-down shows "Other", count is recorded; the count read back is count for a quick label |
| Copies.CopiesSelector.SelectCombo | app/label_printer_gui.py:1027-1034 | an index above 0 unchecks every button and records and reads back that count; "Other" leaves buttons and record alone; the selector invariant holds |
| Copies.CopiesSelector.Reset | app/label_printer_gui.py:1058-1064 | back to the first button, "Other" and one copy |
| Copies.CopiesSelector.GetCopies | app/label_printer_gui.py:1036-1048 | the loop returns the specified count: a quick label when a button is checked, the drop-down value when above 0, and always 1..20 |
| Copies.StaleAfterOther | app/label_printer_gui.py:1027-1048 | after choosing 7 and then "Other", the record says 7 while the count read back is 1 |
| Batch.BatchTable.constructor | app/label_printer_gui.py:54 | an empty table with last copies 1 |
| Batch.BatchTable.AddRow | app/label_printer_gui.py:1088-1121 | refused at ten rows; otherwise appends an empty row whose copies entry is last_copies − 1; never more than ten rows |
| Batch.BatchTable.ChooseRowCopies | app/label_printer_gui.py:1117-1126 | a row's drop-down changes to a different entry (the only case in which currentIndexChanged fires): the row stores it and the last copies value becomes its value |
| Batch.BatchTable.RemoveRow | app/label_printer_gui.py:1128-1139 | removes the selected row, or nothing without a selection |
| Batch.BatchTable.Clear | app/label_printer_gui.py:1141-1157 | empties the table once confirmed |
| Batch.AddElevenRows | app/label_printer_gui.py:1088-1096 | ten additions succeed and the eleventh leaves ten rows |
| Batch.ToEntry | app/label_printer_gui.py:1174-1177 | a row as the loop reads it: URL and label already stripped (stripping again changes nothing), copies = drop-down index + 1 |
| Batch.Entries | app/label_printer_gui.py:1173-1187 | one entry per row; entry i is given by EntryAt |
| Batch.CollectEntries | app/label_printer_gui.py:1161-1187 | refused as empty exactly when there is no entry; on success it hands over every entry, all complete; a missing-data refusal names a blank entry by its 1-based number |
| Batch.Collect | app/label_printer_gui.py:1159-1188 | refused as empty exactly when the table is empty; a missing-data refusal names a row of the table |
| Batch.EntryAt | app/label_printer_gui.py:1174-1186 | entry i is row i with URL and label stripped and copies = drop-down index + 1 |
| Batch.FirstBlank | app/label_printer_gui.py:1174-1184 | the first entry at or after i with an empty URL or label, or the end; every entry before it is complete |
| Batch.CollectEntriesOutcome | app/label_printer_gui.py:1161-1188 | on the stripped entries: success iff there is at least one and all are complete; the empty table is refused as such; otherwise the refusal names the first blank entry by its 1-based number |
| Batch.CollectOutcome | app/label_printer_gui.py:1159-1188 | collection succeeds iff the table is non-empty and every row has URL and label after stripping; a refusal names the first incomplete row by its 1-based number; on success the entries are all rows, in order |
| Batch.TotalCopiesBounds | app/label_printer_gui.py:1274-1289 | the total copies of n rows with valid drop-down entries is between n and 10·n |
| Batch.EntriesCopiesBounds | app/label_printer_gui.py:1274-1289 | a sum of n copy counts each in 1..10 is between n and 10·n |
| Batch.CollectRows | app/label_printer_gui.py:1270-1289 | the row loop returns exactly the specified collection outcome |
| Batch.MaxWidth | app/label_printer_gui.py:1234 | the preview width is at least every label's width and equals one of them |
| Batch.StackPreview | app/label_printer_gui.py:1231-1240 | height is the sum of heights plus 10·(n − 1); label i starts at the heights before it plus 10·i; each starts 10 px after the previous ends; the last ends at the bottom |
| Batch.UniformStackHeight | app/label_printer_gui.py:1233 | labels of one height h stack to n·h before the gaps |
| Batch.StackedLabelsDisjoint | app/label_printer_gui.py:1237-1240 | with non-negative heights a label ends strictly before any later label starts |

## Left out

- QR encoding (the `qrcode` library) and its NEAREST resize: the code is a square box of the computed side.
- Font loading, `getmetrics` and `textbbox`: these are the caller-supplied functions `FontMetrics` and `TextExtent`. The offset of the text box relative to the draw position (bbox[0], bbox[1]) is not modelled; a text box is its draw position with the measured extent.
- Glyph drawing, pasting, alpha compositing, the icon's LANCZOS resize and its 30% alpha, and the RGB/RGBA conversions: pixel work, not geometry.
- Floating point. The model uses exact rationals for the scale and for the ratios. A float product `k * (h/306)` can fall just below an integer that the exact product reaches, and `int()` then gives one less. That can only happen when `k·h` is a multiple of 306. On 29 mm every product is such a multiple, but there the float scale is exactly 1.0 and no error arises. On the other tapes none of the constants used is such a multiple; a user font size that is a multiple of 51 on 62 mm, of 153 on 50 mm or of 306 on 38 mm is. The storage caption's `avail * 0.8` carries the same risk when `avail` is a multiple of 5.
- `print_label`, `suppress_stderr`, the printer conversion and send calls, `main()` and its argument handling: printer I/O and the command line.
- Qt widget construction, signals, message boxes, `QSettings`, temporary files and pixmaps. The user's answer to the clear-batch question is a parameter, and the batch row's copies widget is assumed present, which `add_batch_label` guarantees.
- Which layout the batch renders (template 1 to 4): the stacking takes the rendered sizes as input.
- The text-only tab's copies selector (`set_text_only_copies`, `on_text_only_copies_combo_changed`, `get_text_only_copies`): the same logic as `Copies.CopiesSelector` without the recorded count.
- LabelText.IncrementLabel: digits are the ASCII digits, and `$` matches only at the end of the text. Python's `\d`, `isdigit` and `int` also accept other Unicode digits, and `$` also matches before a final newline; a single-line input field does not produce one.
- Tests and packaging: the test scripts only save images and assert nothing.
