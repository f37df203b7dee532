/** The stand-alone script main.py: a plain layout with fixed box width,
    line height, margin and first baseline, no word wrap and no captions;
    a space that is not in the keymap still takes a box. The figure is
    saved only when the output name ends in ".pdf" or ".png". */
module MainScript {
  import opened Text
  import opened Glyphs
  import opened Drawing
  import LineWrap

  type Pen = LineWrap.Pen
  type Placement = LineWrap.Placement

  /** `margen_izq` and the first `baseline_y`. */
  const MarginLeft: real := 10.0
  const InitialBaseline: real := 750.0

  /** `letter_box_width = size * 0.4`. */
  function BoxWidth(size: real): real
  {
    size * 0.4
  }

  /** `line_height = size * 0.6`. */
  function LineHeight(size: real): real
  {
    size * 0.6
  }

  function Start(): Pen
  {
    LineWrap.Pen(MarginLeft, InitialBaseline, [], [])
  }

  /** The end of an input line (blank or not): down one line, back to the margin. */
  function Break(size: real, pen: Pen): Pen
  {
    pen.(x := MarginLeft, baseline := pen.baseline - LineHeight(size))
  }

  /** One character: a keymap hit is drawn at the cursor and advances it; a
      space missing from the keymap only advances it; anything else is
      reported and advances nothing. */
  function PlaceChar(keymap: Keymap, size: real, pen: Pen, c: char): Pen
  {
    var key := LineWrap.KeyOf(c);
    if key in keymap then
      var glyph := keymap[key];
      LineWrap.Pen(pen.x + BoxWidth(size), pen.baseline,
                   pen.placed + [LineWrap.Placement(c, glyph, pen.x, pen.baseline)],
                   pen.warnings + LineWarnings(glyph))
    else if c == ' ' then
      pen.(x := pen.x + BoxWidth(size))
    else
      pen.(warnings := pen.warnings + [UnknownLetter(c)])
  }

  function PlaceChars(keymap: Keymap, size: real, pen: Pen, text: string): Pen
  {
    if text == [] then pen
    else PlaceChar(keymap, size, PlaceChars(keymap, size, pen, text[..|text| - 1]), text[|text| - 1])
  }

  /** One input line: after `strip('\n')`, a blank line is a bare break;
      otherwise its characters, then a break. */
  function PlaceLine(keymap: Keymap, size: real, pen: Pen, line: string): Pen
  {
    var text := StripNewlines(line);
    if text == "" then Break(size, pen) else Break(size, PlaceChars(keymap, size, pen, text))
  }

  function PlaceLines(keymap: Keymap, size: real, pen: Pen, lines: seq<string>): Pen
  {
    if lines == [] then pen
    else PlaceLine(keymap, size, PlaceLines(keymap, size, pen, lines[..|lines| - 1]), lines[|lines| - 1])
  }

  /** The whole of `draw_text(ax, keymap, input_content, size)`. */
  function MainLayout(keymap: Keymap, lines: seq<string>, size: real): Pen
  {
    PlaceLines(keymap, size, Start(), lines)
  }

  /** What the script paints: the glyph segments of every placement, in order. */
  function Segments(size: real, placed: seq<Placement>): seq<Mark>
  {
    if placed == [] then []
    else
      var p := placed[|placed| - 1];
      Segments(size, placed[..|placed| - 1]) + LetterSegments(p.glyph, p.x, p.baseline, size)
  }

  /** The characters of `text` that move the cursor: keymap hits and spaces. */
  function Advances(keymap: Keymap, text: string): (r: nat)
    ensures r <= |text|
  {
    if text == [] then 0
    else
      var c := text[|text| - 1];
      Advances(keymap, text[..|text| - 1]) + (if LineWrap.KeyOf(c) in keymap || c == ' ' then 1 else 0)
  }

  // ---------------------------------------------------------------------
  // Steps of the folds, for the loops of `draw_text`

  /** Proof step: the character fold unfolded once at `text[..k + 1]`. */
  lemma CharsStep(keymap: Keymap, size: real, pen: Pen, text: string, k: nat)
    requires k < |text|
    ensures PlaceChars(keymap, size, pen, text[..k + 1]) == PlaceChar(keymap, size, PlaceChars(keymap, size, pen, text[..k]), text[k])
  {
    assert text[..k + 1][..k] == text[..k];
  }

  /** What one character does to the cursor, the segments and the warnings. */
  lemma PlaceCharStep(keymap: Keymap, size: real, pen: Pen, c: char)
    ensures var r := PlaceChar(keymap, size, pen, c); var key := LineWrap.KeyOf(c);
      && r.baseline == pen.baseline
      && (key in keymap ==>
            && r.x == pen.x + BoxWidth(size)
            && Segments(size, r.placed) == Segments(size, pen.placed) + LetterSegments(keymap[key], pen.x, pen.baseline, size)
            && r.warnings == pen.warnings + LineWarnings(keymap[key]))
      && (key !in keymap && c == ' ' ==> r.x == pen.x + BoxWidth(size) && r.placed == pen.placed && r.warnings == pen.warnings)
      && (key !in keymap && c != ' ' ==> r.x == pen.x && r.placed == pen.placed && r.warnings == pen.warnings + [UnknownLetter(c)])
  {
    var key := LineWrap.KeyOf(c);
    if key in keymap {
      SegmentsStep(size, pen.placed, LineWrap.Placement(c, keymap[key], pen.x, pen.baseline));
    }
  }

  /** Proof step: the line fold unfolded once at `lines[..i + 1]`. */
  lemma LinesStep(keymap: Keymap, size: real, pen: Pen, lines: seq<string>, i: nat)
    requires i < |lines|
    ensures PlaceLines(keymap, size, pen, lines[..i + 1]) == PlaceLine(keymap, size, PlaceLines(keymap, size, pen, lines[..i]), lines[i])
  {
    assert lines[..i + 1][..i] == lines[..i];
  }

  /** Proof step: `Segments` unfolded once at `placed + [p]`. */
  lemma SegmentsStep(size: real, placed: seq<Placement>, p: Placement)
    ensures Segments(size, placed + [p]) == Segments(size, placed) + LetterSegments(p.glyph, p.x, p.baseline, size)
  {
    assert (placed + [p])[..|placed|] == placed;
  }

  // ---------------------------------------------------------------------
  // Properties of the layout

  /** The characters of one line stay on the line's baseline; the cursor
      ends one box further right per hit or space, however far that is
      (the script never wraps), and the hits are placed in order. */
  lemma {:induction false} PlaceCharsEffect(keymap: Keymap, size: real, pen: Pen, text: string)
    ensures var r := PlaceChars(keymap, size, pen, text); var hits := LineWrap.Hits(keymap, text);
      && r.baseline == pen.baseline
      && r.x == LineWrap.BoxEdge(pen.x, Advances(keymap, text), BoxWidth(size))
      && |r.placed| == |pen.placed| + |hits|
      && r.placed[..|pen.placed|] == pen.placed
      && (forall k :: |pen.placed| <= k < |r.placed| ==> r.placed[k].baseline == pen.baseline)
      && forall k :: 0 <= k < |hits| ==>
           r.placed[|pen.placed| + k].letter == hits[k] && r.placed[|pen.placed| + k].glyph == keymap[LineWrap.KeyOf(hits[k])]
    decreases |text|
  {
    if text != [] {
      var init := text[..|text| - 1];
      var c := text[|text| - 1];
      PlaceCharsEffect(keymap, size, pen, init);
      var mid := PlaceChars(keymap, size, pen, init);
      var before := LineWrap.Hits(keymap, init);
      var r := PlaceChar(keymap, size, mid, c);
      LineWrap.BoxEdgeNext(pen.x, Advances(keymap, init), BoxWidth(size));
      if LineWrap.KeyOf(c) in keymap {
        var hits := before + [c];
        assert LineWrap.Hits(keymap, text) == hits;
        var added := LineWrap.Placement(c, keymap[LineWrap.KeyOf(c)], mid.x, mid.baseline);
        assert r.placed == mid.placed + [added];
        forall k | 0 <= k < |hits|
          ensures r.placed[|pen.placed| + k].letter == hits[k] && r.placed[|pen.placed| + k].glyph == keymap[LineWrap.KeyOf(hits[k])]
        {
          if k < |before| {
            assert r.placed[|pen.placed| + k] == mid.placed[|pen.placed| + k];
            assert hits[k] == before[k];
          } else {
            assert r.placed[|pen.placed| + k] == added;
          }
        }
        assert r.placed[..|pen.placed|] == mid.placed[..|pen.placed|];
      } else {
        assert LineWrap.Hits(keymap, text) == before;
      }
    }
  }

  /** The `continue` for a blank line does what the end of any other line
      does: a line is its characters followed by one break. */
  lemma LineIsCharsThenBreak(keymap: Keymap, size: real, pen: Pen, line: string)
    ensures PlaceLine(keymap, size, pen, line) == Break(size, PlaceChars(keymap, size, pen, StripNewlines(line)))
  {
  }

  /** Every letter drawn for one input line sits on the baseline the line
      started on, after everything drawn before it. */
  lemma LineOnOneBaseline(keymap: Keymap, size: real, pen: Pen, line: string)
    ensures var r := PlaceLine(keymap, size, pen, line);
      && |pen.placed| <= |r.placed| && r.placed[..|pen.placed|] == pen.placed
      && forall k :: |pen.placed| <= k < |r.placed| ==> r.placed[k].baseline == pen.baseline
  {
    var text := StripNewlines(line);
    LineIsCharsThenBreak(keymap, size, pen, line);
    PlaceCharsEffect(keymap, size, pen, text);
  }

  /** Every input line, blank or not, ends at the margin one line height lower. */
  lemma LineEnd(keymap: Keymap, size: real, pen: Pen, line: string)
    ensures PlaceLine(keymap, size, pen, line).x == MarginLeft
    ensures PlaceLine(keymap, size, pen, line).baseline == pen.baseline - LineHeight(size)
  {
    LineIsCharsThenBreak(keymap, size, pen, line);
    PlaceCharsEffect(keymap, size, pen, StripNewlines(line));
  }

  /** After `n` input lines the cursor is back at the margin and the
      baseline has been lowered `n` times by one line height (that is, by
      `n * LineHeight(size)`, see `DropIsProduct`): each line of the file
      takes one row, however long it is. */
  lemma BaselineAfterLines(keymap: Keymap, size: real, lines: seq<string>)
    ensures var r := MainLayout(keymap, lines, size);
      && (lines != [] ==> r.x == MarginLeft)
      && r.baseline == Drop(InitialBaseline, |lines|, LineHeight(size))
  {
    LinesDrop(keymap, size, Start(), lines);
  }

  /** `b` lowered `n` times by `h`. */
  function Drop(b: real, n: nat, h: real): real
  {
    if n == 0 then b else Drop(b, n - 1, h) - h
  }

  /** Lowering `n` times by `h` is lowering once by `n * h`. */
  lemma {:induction false} DropIsProduct(b: real, n: nat, h: real)
    ensures Drop(b, n, h) == b - n as real * h
  {
    if n > 0 {
      DropIsProduct(b, n - 1, h);
      assert (n - 1) as real * h + h == n as real * h;
    }
  }

  /** Each input line lowers the baseline by one line height and returns
      the cursor to the margin, from any starting pen. */
  lemma {:induction false} LinesDrop(keymap: Keymap, size: real, pen: Pen, lines: seq<string>)
    ensures var r := PlaceLines(keymap, size, pen, lines);
      && (lines != [] ==> r.x == MarginLeft)
      && r.baseline == Drop(pen.baseline, |lines|, LineHeight(size))
    decreases |lines|
  {
    if lines != [] {
      var init := lines[..|lines| - 1];
      LinesDrop(keymap, size, pen, init);
      var mid := PlaceLines(keymap, size, pen, init);
      assert PlaceLines(keymap, size, pen, lines) == PlaceLine(keymap, size, mid, lines[|lines| - 1]);
      LineEnd(keymap, size, mid, lines[|lines| - 1]);
      assert Drop(pen.baseline, |lines|, LineHeight(size)) == Drop(pen.baseline, |init|, LineHeight(size)) - LineHeight(size);
    }
  }

  // ---------------------------------------------------------------------
  // Reading order

  lemma OrderedChar(keymap: Keymap, size: real, pen: Pen, c: char)
    requires size > 0.0
    requires LineWrap.Ordered(pen)
    ensures LineWrap.Ordered(PlaceChar(keymap, size, pen, c))
  {
    var r := PlaceChar(keymap, size, pen, c);
    if LineWrap.KeyOf(c) in keymap {
      assert r.placed == pen.placed + [r.placed[|r.placed| - 1]];
      forall i | 0 <= i < |r.placed| - 1 ensures LineWrap.Precedes(r.placed[i], r.placed[i + 1]) {
        if i < |pen.placed| - 1 {
          assert r.placed[i] == pen.placed[i] && r.placed[i + 1] == pen.placed[i + 1];
        }
      }
    }
  }

  lemma {:induction false} OrderedChars(keymap: Keymap, size: real, pen: Pen, text: string)
    requires size > 0.0
    requires LineWrap.Ordered(pen)
    ensures LineWrap.Ordered(PlaceChars(keymap, size, pen, text))
    decreases |text|
  {
    if text != [] {
      OrderedChars(keymap, size, pen, text[..|text| - 1]);
      OrderedChar(keymap, size, PlaceChars(keymap, size, pen, text[..|text| - 1]), text[|text| - 1]);
    }
  }

  lemma {:induction false} OrderedLines(keymap: Keymap, size: real, pen: Pen, lines: seq<string>)
    requires size > 0.0
    requires LineWrap.Ordered(pen)
    ensures LineWrap.Ordered(PlaceLines(keymap, size, pen, lines))
    decreases |lines|
  {
    if lines != [] {
      var init := lines[..|lines| - 1];
      OrderedLines(keymap, size, pen, init);
      var mid := PlaceLines(keymap, size, pen, init);
      OrderedChars(keymap, size, mid, StripNewlines(lines[|lines| - 1]));
    }
  }

  /** For a positive size the script draws letters left to right and top
      to bottom, never two at one spot. */
  lemma MainLayoutInReadingOrder(keymap: Keymap, lines: seq<string>, size: real)
    requires size > 0.0
    ensures LineWrap.InReadingOrder(MainLayout(keymap, lines, size).placed)
  {
    OrderedLines(keymap, size, Start(), lines);
  }

  // ---------------------------------------------------------------------
  // Drawing

  /** `draw_letter(ax, letter_config, position, size)`: one segment per
      known key of the entry, a warning for each other key. */
  method DrawLetter(ax: Trace, letterConfig: seq<string>, xOffset: real, baselineY: real, size: real)
    modifies ax
    ensures ax.marks == old(ax.marks) + LetterSegments(letterConfig, xOffset, baselineY, size)
    ensures ax.warnings == old(ax.warnings) + LineWarnings(letterConfig)
  {
    var scale := size / 50.0;
    assert scale == Scale(size);
    var i := 0;
    while i < |letterConfig|
      invariant 0 <= i <= |letterConfig|
      invariant ax.marks == old(ax.marks) + LetterSegments(letterConfig[..i], xOffset, baselineY, size)
      invariant ax.warnings == old(ax.warnings) + LineWarnings(letterConfig[..i])
    {
      var lineKey := letterConfig[i];
      Glyphs.SegmentsStep(letterConfig, xOffset, baselineY, size, i);
      if lineKey != "" && lineKey in LinesMap {
        var l := LinesMap[lineKey];
        var x1 := xOffset + l.x1 as real * scale;
        var x2 := xOffset + l.x2 as real * scale;
        var y1 := baselineY - l.y1 as real * scale;
        var y2 := baselineY - l.y2 as real * scale;
        assert Segment(x1, y1, x2, y2) == Place(l, xOffset, baselineY, scale);
        ax.Line(x1, y1, x2, y2);
        AppendAssoc(old(ax.marks), LetterSegments(letterConfig[..i], xOffset, baselineY, size), [Segment(x1, y1, x2, y2)]);
        assert LetterSegments(letterConfig[..i + 1], xOffset, baselineY, size)
          == LetterSegments(letterConfig[..i], xOffset, baselineY, size) + [Segment(x1, y1, x2, y2)];
        assert LineWarnings(letterConfig[..i + 1]) == LineWarnings(letterConfig[..i]);
      } else {
        ax.Warn(UnknownLine(lineKey));
        AppendAssoc(old(ax.warnings), LineWarnings(letterConfig[..i]), [UnknownLine(lineKey)]);
        assert LetterSegments(letterConfig[..i + 1], xOffset, baselineY, size)
          == LetterSegments(letterConfig[..i], xOffset, baselineY, size);
        assert LineWarnings(letterConfig[..i + 1]) == LineWarnings(letterConfig[..i]) + [UnknownLine(lineKey)];
      }
      i := i + 1;
    }
    assert letterConfig[..i] == letterConfig;
  }

  /** The character loop of `draw_text` for one line, from the cursor `pen`. */
  method DrawLineChars(ax: Trace, keymap: Keymap, size: real, ghost pen: Pen, ghost marks0: seq<Mark>,
                       ghost warnings0: seq<Warning>, textLine: string, letterBoxWidth: real,
                       x0: real, baselineY: real)
    returns (xPos: real)
    requires letterBoxWidth == BoxWidth(size)
    requires x0 == pen.x && baselineY == pen.baseline
    requires ax.marks == marks0 + Segments(size, pen.placed) && ax.warnings == warnings0 + pen.warnings
    modifies ax
    ensures var r := PlaceChars(keymap, size, pen, textLine);
      && xPos == r.x && baselineY == r.baseline
      && ax.marks == marks0 + Segments(size, r.placed) && ax.warnings == warnings0 + r.warnings
  {
    xPos := x0;
    ghost var cur := pen;
    var k := 0;
    while k < |textLine|
      invariant 0 <= k <= |textLine|
      invariant cur == PlaceChars(keymap, size, pen, textLine[..k])
      invariant xPos == cur.x && baselineY == cur.baseline
      invariant ax.marks == marks0 + Segments(size, cur.placed) && ax.warnings == warnings0 + cur.warnings
    {
      CharsStep(keymap, size, pen, textLine, k);
      var letter := textLine[k];
      var key := [LowerChar(letter)];
      PlaceCharStep(keymap, size, cur, letter);
      if key in keymap {
        DrawLetter(ax, keymap[key], xPos, baselineY, size);
        xPos := xPos + letterBoxWidth;
        AppendAssoc(marks0, Segments(size, cur.placed), LetterSegments(keymap[key], cur.x, cur.baseline, size));
        AppendAssoc(warnings0, cur.warnings, LineWarnings(keymap[key]));
      } else if letter == ' ' {
        xPos := xPos + letterBoxWidth;
      } else {
        ax.Warn(UnknownLetter(letter));
        AppendAssoc(warnings0, cur.warnings, [UnknownLetter(letter)]);
      }
      cur := PlaceChar(keymap, size, cur, letter);
      k := k + 1;
    }
    assert textLine[..k] == textLine;
  }

  /** The page shows what it held before (`marks0`, `warnings0`) followed
      by the rendering of `pen`, and the cursor variables agree with `pen`. */
  ghost predicate Shows(ax: Trace, size: real, marks0: seq<Mark>, warnings0: seq<Warning>, pen: Pen,
                        xPos: real, baselineY: real)
    reads ax
  {
    && xPos == pen.x && baselineY == pen.baseline
    && ax.marks == marks0 + Segments(size, pen.placed) && ax.warnings == warnings0 + pen.warnings
  }

  /** The body of the line loop of `draw_text` for line `i` of `lines`,
      drawn after the lines before it: strip the line; a blank one only
      moves the cursor down, otherwise its characters are drawn; either way
      the cursor ends at the margin one line height lower. */
  method DrawLine(ax: Trace, keymap: Keymap, size: real, ghost marks0: seq<Mark>, ghost warnings0: seq<Warning>,
                  ghost lines: seq<string>, ghost i: nat, line: string, letterBoxWidth: real, lineHeight: real,
                  margenIzq: real, x0: real, y0: real)
    returns (xPos: real, baselineY: real)
    requires i < |lines| && line == lines[i]
    requires letterBoxWidth == BoxWidth(size) && lineHeight == LineHeight(size) && margenIzq == MarginLeft
    requires Shows(ax, size, marks0, warnings0, PlaceLines(keymap, size, Start(), lines[..i]), x0, y0)
    modifies ax
    ensures Shows(ax, size, marks0, warnings0, PlaceLines(keymap, size, Start(), lines[..i + 1]), xPos, baselineY)
  {
    ghost var pen := PlaceLines(keymap, size, Start(), lines[..i]);
    LinesStep(keymap, size, Start(), lines, i);
    LineIsCharsThenBreak(keymap, size, pen, line);
    var textLine := StripNewlines(line);
    if textLine == "" {
      baselineY := y0 - lineHeight;
      xPos := margenIzq;
      assert PlaceChars(keymap, size, pen, textLine) == pen;
      return;
    }
    xPos := DrawLineChars(ax, keymap, size, pen, marks0, warnings0, textLine, letterBoxWidth, x0, y0);
    baselineY := y0 - lineHeight;
    xPos := margenIzq;
  }

  /** `draw_text(ax, keymap, input_content, size)`: what it paints and
      prints is `MainLayout` rendered. */
  method DrawText(ax: Trace, keymap: Keymap, inputContent: seq<string>, size: real)
    modifies ax
    ensures var r := MainLayout(keymap, inputContent, size);
      ax.marks == old(ax.marks) + Segments(size, r.placed) && ax.warnings == old(ax.warnings) + r.warnings
  {
    ghost var marks0 := ax.marks;
    ghost var warnings0 := ax.warnings;
    var letterBoxWidth := size * 0.4;
    var lineHeight := size * 0.6;
    var margenIzq := 10.0;
    var baselineY := 750.0;
    var xPos := margenIzq;
    var i := 0;
    while i < |inputContent|
      invariant 0 <= i <= |inputContent|
      invariant Shows(ax, size, marks0, warnings0, PlaceLines(keymap, size, Start(), inputContent[..i]), xPos, baselineY)
    {
      xPos, baselineY := DrawLine(ax, keymap, size, marks0, warnings0, inputContent, i, inputContent[i],
                                  letterBoxWidth, lineHeight, margenIzq, xPos, baselineY);
      i := i + 1;
    }
    assert inputContent[..i] == inputContent;
  }

  // ---------------------------------------------------------------------
  // The script

  /** The `output_filename.lower().endswith(...)` test of `main`. */
  predicate IsSupportedOutput(name: string)
  {
    EndsWith(Lower(name), ".pdf") || EndsWith(Lower(name), ".png")
  }

  /** Only the last four characters decide, in either case: the name is
      accepted exactly when it ends in ".pdf" or ".png" up to case. */
  lemma SupportedOutputByExtension(name: string)
    ensures IsSupportedOutput(name) <==>
      |name| >= 4 && (Lower(name[|name| - 4..]) == ".pdf" || Lower(name[|name| - 4..]) == ".png")
  {
    if |name| >= 4 {
      LowerSuffix(name, |name| - 4);
    }
  }

  datatype Option<T> = None | Some(value: T)

  /** How `main` ends: it stops early when the keymap or the input cannot
      be read; otherwise it draws and saves only for a known extension. */
  datatype Outcome =
    | KeymapError
    | InputError
    | Finished(saved: bool, marks: seq<Mark>, warnings: seq<Warning>)

  /** `main` after argument parsing: `keymap` and `content` are what
      `load_keymap` and `read_file_content` returned, `None` when they
      raised. */
  method RunMain(keymap: Option<Keymap>, content: Option<seq<string>>, output: string, size: int)
    returns (o: Outcome)
    ensures keymap.None? <==> o.KeymapError?
    ensures o.InputError? <==> keymap.Some? && content.None?
    ensures o.Finished? ==>
      var r := MainLayout(keymap.value, content.value, size as real);
      && o.saved == IsSupportedOutput(output)
      && o.marks == Segments(size as real, r.placed)
      && o.warnings == r.warnings
  {
    if keymap.None? {
      return KeymapError;
    }
    if content.None? {
      return InputError;
    }
    var ax := new Trace();
    DrawText(ax, keymap.value, content.value, size as real);
    var lowered := Lower(output);
    var saved := EndsWith(lowered, ".pdf") || EndsWith(lowered, ".png");
    o := Finished(saved, ax.marks, ax.warnings);
  }
}
