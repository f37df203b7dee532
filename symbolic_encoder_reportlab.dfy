/** `SymbolicEncoder` of the ReportLab variant (SymbolicEncoderReportLab.py):
    `draw_text` draws on a canvas it is handed, and each `generate_*` method
    opens a fresh letter-size canvas, draws on it and saves it. */
module ReportLabEncoder {
  import opened Text
  import opened Glyphs
  import opened LineWrap
  import opened Drawing

  const Alphabet: string := "ABCDEFGHIJKLMNOPQRSTUVWXYZ"

  /** `abc_line` of `generate_abc`: the alphabet cut into lines of five
      letters, by the slice comprehension over `range(0, 26, 5)`. */
  function AbcLines(): (r: seq<string>)
    ensures Concat(r) == Alphabet
    ensures forall i :: 0 <= i < |r| ==> 0 < |r[i]| <= 5
    ensures forall i :: 0 <= i < |r| - 1 ==> |r[i]| == 5
  {
    ChunksConcat(Alphabet, 5);
    Chunks(Alphabet, 5)
  }

  /** The alphabet comes out as five full lines and a last line "Z". */
  lemma AbcLinesAreFives()
    ensures AbcLines() == ["ABCDE", "FGHIJ", "KLMNO", "PQRST", "UVWXY", "Z"]
  {
    var s := Alphabet;
    assert s[..5] == "ABCDE";
    assert s[5..] == "FGHIJKLMNOPQRSTUVWXYZ";
    AbcFrom5();
  }

  lemma AbcFrom5()
    ensures Chunks("FGHIJKLMNOPQRSTUVWXYZ", 5) == ["FGHIJ", "KLMNO", "PQRST", "UVWXY", "Z"]
  {
    var s := "FGHIJKLMNOPQRSTUVWXYZ";
    assert s[..5] == "FGHIJ";
    assert s[5..] == "KLMNOPQRSTUVWXYZ";
    AbcFrom10();
  }

  lemma AbcFrom10()
    ensures Chunks("KLMNOPQRSTUVWXYZ", 5) == ["KLMNO", "PQRST", "UVWXY", "Z"]
  {
    var s := "KLMNOPQRSTUVWXYZ";
    assert s[..5] == "KLMNO";
    assert s[5..] == "PQRSTUVWXYZ";
    AbcFrom15();
  }

  lemma AbcFrom15()
    ensures Chunks("PQRSTUVWXYZ", 5) == ["PQRST", "UVWXY", "Z"]
  {
    var s := "PQRSTUVWXYZ";
    assert s[..5] == "PQRST";
    assert s[5..] == "UVWXYZ";
    assert s[5..][..5] == "UVWXY";
    assert s[5..][5..] == "Z";
    assert Chunks("Z", 5) == ["Z"];
  }

  class SymbolicEncoder {
    const keymap: Keymap
    const size: real
    const screenWidth: real
    const screenHeight: real
    const marginLeft: real
    const marginRight: real
    const initialBaseline: real
    /** `remove_accent` (Unicode NFKD without combining marks). */
    const removeAccent: string -> string
    /** `page_width, page_height = letter`. */
    const pageWidth: real
    const pageHeight: real

    /** The keymap is passed in already loaded. */
    constructor (keymap: Keymap, size: real, removeAccent: string -> string,
                 screenWidth: real := 612.0, screenHeight: real := 792.0,
                 marginLeft: real := 40.0, marginRight: real := 40.0,
                 initialBaseline: real := 700.0)
      ensures this.keymap == keymap && this.size == size && this.removeAccent == removeAccent
      ensures this.screenWidth == screenWidth && this.screenHeight == screenHeight
      ensures this.marginLeft == marginLeft && this.marginRight == marginRight
      ensures this.initialBaseline == initialBaseline
      ensures pageWidth == 612.0 && pageHeight == 792.0
    {
      this.pageWidth, this.pageHeight := 612.0, 792.0;
      this.keymap := keymap;
      this.size := size;
      this.removeAccent := removeAccent;
      this.screenWidth := screenWidth;
      this.screenHeight := screenHeight;
      this.marginLeft := marginLeft;
      this.marginRight := marginRight;
      this.initialBaseline := initialBaseline;
    }

    /** The layout parameters of one `draw_text` call on this encoder. */
    function Config(letterSpacing: real, lineSpacing: real, showLetters: bool, letterPosition: string, trimWords: bool): Setup
    {
      Setup(keymap, size, screenWidth, marginLeft, marginRight, initialBaseline, removeAccent,
            letterSpacing, lineSpacing, showLetters, letterPosition, trimWords)
    }

    /** `draw_letter`: one segment per known key of `letterConfig`, a warning
        for each other key, then the caption if one is asked for. */
    method DrawLetter(axes: Trace, letterConfig: seq<string>, xOffset: real, baselineY: real, size: real,
                      showLetters: bool := false, letterPosition: string := "below",
                      letterChar: string := "")
      modifies axes
      ensures axes.marks == old(axes.marks) + LetterMarks(letterConfig, xOffset, baselineY, size, showLetters, letterPosition, letterChar)
      ensures axes.warnings == old(axes.warnings) + LineWarnings(letterConfig)
    {
      var scale := size / 50.0;
      assert scale == Scale(size);
      var i := 0;
      while i < |letterConfig|
        invariant 0 <= i <= |letterConfig|
        invariant axes.marks == old(axes.marks) + LetterSegments(letterConfig[..i], xOffset, baselineY, size)
        invariant axes.warnings == old(axes.warnings) + LineWarnings(letterConfig[..i])
      {
        var lineKey := letterConfig[i];
        SegmentsStep(letterConfig, xOffset, baselineY, size, i);
        if lineKey != "" && lineKey in LinesMap {
          var l := LinesMap[lineKey];
          var x1 := xOffset + l.x1 as real * scale;
          var x2 := xOffset + l.x2 as real * scale;
          var y1 := baselineY - l.y1 as real * scale;
          var y2 := baselineY - l.y2 as real * scale;
          assert Segment(x1, y1, x2, y2) == Place(l, xOffset, baselineY, scale);
          axes.Line(x1, y1, x2, y2);
          AppendAssoc(old(axes.marks), LetterSegments(letterConfig[..i], xOffset, baselineY, size), [Segment(x1, y1, x2, y2)]);
          assert LetterSegments(letterConfig[..i + 1], xOffset, baselineY, size)
            == LetterSegments(letterConfig[..i], xOffset, baselineY, size) + [Segment(x1, y1, x2, y2)];
          assert LineWarnings(letterConfig[..i + 1]) == LineWarnings(letterConfig[..i]);
        } else {
          axes.Warn(UnknownLine(lineKey));
          AppendAssoc(old(axes.warnings), LineWarnings(letterConfig[..i]), [UnknownLine(lineKey)]);
          assert LetterSegments(letterConfig[..i + 1], xOffset, baselineY, size)
            == LetterSegments(letterConfig[..i], xOffset, baselineY, size);
          assert LineWarnings(letterConfig[..i + 1]) == LineWarnings(letterConfig[..i]) + [UnknownLine(lineKey)];
        }
        i := i + 1;
      }
      assert letterConfig[..i] == letterConfig;
      DrawCaption(axes, xOffset, baselineY, size, showLetters, letterPosition, letterChar);
      AppendAssoc(old(axes.marks), LetterSegments(letterConfig, xOffset, baselineY, size),
                  CaptionMarks(xOffset, baselineY, size, showLetters, letterPosition, letterChar));
    }

    /** The tail of `draw_letter`: the upper-cased caption below or inside
        the glyph cell, when captions are on and a letter is given. */
    method DrawCaption(axes: Trace, xOffset: real, baselineY: real, size: real,
                       showLetters: bool, letterPosition: string, letterChar: string)
      modifies axes
      ensures axes.marks == old(axes.marks) + CaptionMarks(xOffset, baselineY, size, showLetters, letterPosition, letterChar)
      ensures axes.warnings == old(axes.warnings)
    {
      ghost var caption := CaptionMarks(xOffset, baselineY, size, showLetters, letterPosition, letterChar);
      if showLetters && letterChar != "" {
        if letterPosition == "below" {
          assert caption == [Caption(xOffset + size * 0.4, baselineY - size * 1.2, size * 0.2, Upper(letterChar))];
          axes.Label(xOffset + size * 0.4, baselineY - size * 1.2, size * 0.2, Upper(letterChar));
        } else if letterPosition == "inside" {
          assert caption == [Caption(xOffset + size * 0.2, baselineY - size * 0.5, size * 0.4, Upper(letterChar))];
          axes.Label(xOffset + size * 0.2, baselineY - size * 0.5, size * 0.4, Upper(letterChar));
        } else {
          assert caption == [];
        }
      } else {
        assert caption == [];
      }
    }

    /** `check_fit`. For a non-negative box width a word fits exactly when
        every one of its box edges, laid from `xPos`, stays left of the right
        margin. */
    function CheckFit(word: string, xPos: real, letterBoxSpacing: real): (fits: bool)
      ensures letterBoxSpacing >= 0.0 ==>
        (fits <==> forall k :: 0 <= k <= |word| ==> BoxEdge(xPos, k, letterBoxSpacing) <= screenWidth - marginRight)
    {
      var limit := screenWidth - marginRight;
      if letterBoxSpacing >= 0.0 then
        FitsIffEveryEdgeInside(word, xPos, letterBoxSpacing, limit);
        Fits(word, xPos, letterBoxSpacing, limit)
      else
        Fits(word, xPos, letterBoxSpacing, limit)
    }

    /** The innermost loop of `draw_text`: the letters of one word from the
        cursor `pen`, each keymap hit drawn by `draw_letter` and each miss
        reported; the cursor ends where `PlaceLetters` puts it. */
    method DrawWordLetters(axes: Trace, ghost s: Setup, ghost pen: Pen, ghost marks0: seq<Mark>,
                           ghost warnings0: seq<Warning>, word: string, letterBoxWidth: real,
                           x0: real, baselineY: real, showLetters: bool, letterPosition: string)
      returns (xPos: real)
      requires s.keymap == keymap && s.size == size && BoxWidth(s) == letterBoxWidth
      requires s.showLetters == showLetters && s.letterPosition == letterPosition
      requires x0 == pen.x && baselineY == pen.baseline
      requires axes.marks == marks0 + Render(s, pen.placed) && axes.warnings == warnings0 + pen.warnings
      modifies axes
      ensures var r := PlaceLetters(s, pen, word);
        && xPos == r.x && baselineY == r.baseline
        && axes.marks == marks0 + Render(s, r.placed) && axes.warnings == warnings0 + r.warnings
    {
      xPos := x0;
      ghost var cur := pen;
      var k := 0;
      while k < |word|
        invariant 0 <= k <= |word|
        invariant cur == PlaceLetters(s, pen, word[..k])
        invariant xPos == cur.x && baselineY == cur.baseline
        invariant axes.marks == marks0 + Render(s, cur.placed) && axes.warnings == warnings0 + cur.warnings
      {
        LettersStep(s, pen, word, k);
        var letter := word[k];
        var key := [LowerChar(letter)];
        PlaceLetterStep(s, cur, letter);
        if key in keymap {
          DrawLetter(axes, keymap[key], xPos, baselineY, size, showLetters := showLetters,
                     letterPosition := letterPosition, letterChar := [letter]);
          xPos := xPos + letterBoxWidth;
          AppendAssoc(marks0, Render(s, cur.placed),
                      LetterMarks(keymap[key], cur.x, cur.baseline, size, showLetters, letterPosition, [letter]));
          AppendAssoc(warnings0, cur.warnings, LineWarnings(keymap[key]));
        } else {
          axes.Warn(UnknownLetter(letter));
          AppendAssoc(warnings0, cur.warnings, [UnknownLetter(letter)]);
        }
        cur := PlaceLetter(s, cur, letter);
        k := k + 1;
      }
      assert word[..k] == word;
    }

    /** The word loop of `draw_text` for one line: each word wraps to a new
        line when it does not fit, then its letters are drawn, then the cursor
        advances by one box unless words are trimmed. */
    method DrawLineWords(axes: Trace, ghost s: Setup, ghost pen: Pen, ghost marks0: seq<Mark>,
                         ghost warnings0: seq<Warning>, words: seq<string>, letterBoxWidth: real,
                         lineHeight: real, x0: real, y0: real, showLetters: bool, letterPosition: string,
                         trimWords: bool)
      returns (xPos: real, baselineY: real)
      requires s.keymap == keymap && s.size == size && BoxWidth(s) == letterBoxWidth
      requires s.showLetters == showLetters && s.letterPosition == letterPosition && s.trimWords == trimWords
      requires LineHeight(s) == lineHeight && RightLimit(s) == screenWidth - marginRight
      requires s.marginLeft == marginLeft
      requires x0 == pen.x && y0 == pen.baseline
      requires axes.marks == marks0 + Render(s, pen.placed) && axes.warnings == warnings0 + pen.warnings
      modifies axes
      ensures var r := PlaceWords(s, pen, words);
        && xPos == r.x && baselineY == r.baseline
        && axes.marks == marks0 + Render(s, r.placed) && axes.warnings == warnings0 + r.warnings
    {
      xPos, baselineY := x0, y0;
      ghost var cur := pen;
      var j := 0;
      while j < |words|
        invariant 0 <= j <= |words|
        invariant cur == PlaceWords(s, pen, words[..j])
        invariant xPos == cur.x && baselineY == cur.baseline
        invariant axes.marks == marks0 + Render(s, cur.placed) && axes.warnings == warnings0 + cur.warnings
      {
        WordsStep(s, pen, words, j);
        ghost var before := cur;
        var word := words[j];
        var wordFits := CheckFit(word, xPos, letterBoxWidth);
        if !wordFits {
          baselineY := baselineY - lineHeight;
          xPos := marginLeft;
        }
        cur := WordStart(s, cur, word);
        xPos := DrawWordLetters(axes, s, cur, marks0, warnings0, word, letterBoxWidth, xPos, baselineY,
                                showLetters, letterPosition);
        cur := PlaceLetters(s, cur, word);
        if !trimWords {
          xPos := xPos + letterBoxWidth;
        }
        cur := if s.trimWords then cur else cur.(x := cur.x + BoxWidth(s));
        assert cur == PlaceWord(s, before, word);
        j := j + 1;
      }
      assert words[..j] == words;
    }

    /** The body of the line loop of `draw_text`: strip and normalise one
        input line; a blank one only moves the cursor down, otherwise its
        words are drawn; either way the cursor ends at the margin one line
        height lower. */
    method DrawLine(axes: Trace, ghost s: Setup, ghost marks0: seq<Mark>, ghost warnings0: seq<Warning>,
                    ghost pen: Pen, line: string, letterBoxWidth: real,
                    lineHeight: real, x0: real, y0: real, showLetters: bool, letterPosition: string,
                    trimWords: bool)
      returns (xPos: real, baselineY: real)
      requires s.keymap == keymap && s.size == size && BoxWidth(s) == letterBoxWidth
      requires s.showLetters == showLetters && s.letterPosition == letterPosition && s.trimWords == trimWords
      requires LineHeight(s) == lineHeight && RightLimit(s) == screenWidth - marginRight
      requires s.marginLeft == marginLeft && s.normalize == removeAccent
      requires Shows(axes, s, marks0, warnings0, pen, x0, y0)
      modifies axes
      ensures Shows(axes, s, marks0, warnings0, PlaceLine(s, pen, line), xPos, baselineY)
    {
      var textLine := removeAccent(StripNewlines(line));
      assert textLine == LineText(s, line);
      if textLine == "" {
        ShowsLineEnd(axes, s, marks0, warnings0, pen, line, x0, y0);
        baselineY := y0 - lineHeight;
        xPos := marginLeft;
        return;
      }
      var words := Split(textLine);
      xPos, baselineY := DrawLineWords(axes, s, pen, marks0, warnings0, words, letterBoxWidth, lineHeight,
                                       x0, y0, showLetters, letterPosition, trimWords);
      ShowsLineEnd(axes, s, marks0, warnings0, pen, line, xPos, baselineY);
      baselineY := baselineY - lineHeight;
      xPos := marginLeft;
    }

    /** Line `i` of the input, drawn after the lines before it. */
    method DrawNextLine(axes: Trace, ghost s: Setup, ghost marks0: seq<Mark>, ghost warnings0: seq<Warning>,
                        ghost lines: seq<string>, ghost i: nat, line: string, letterBoxWidth: real,
                        lineHeight: real, x0: real, y0: real, showLetters: bool, letterPosition: string,
                        trimWords: bool)
      returns (xPos: real, baselineY: real)
      requires i < |lines| && line == lines[i]
      requires s.keymap == keymap && s.size == size && BoxWidth(s) == letterBoxWidth
      requires s.showLetters == showLetters && s.letterPosition == letterPosition && s.trimWords == trimWords
      requires LineHeight(s) == lineHeight && RightLimit(s) == screenWidth - marginRight
      requires s.marginLeft == marginLeft && s.normalize == removeAccent
      requires Shows(axes, s, marks0, warnings0, PlaceLines(s, Start(s), lines[..i]), x0, y0)
      modifies axes
      ensures Shows(axes, s, marks0, warnings0, PlaceLines(s, Start(s), lines[..i + 1]), xPos, baselineY)
    {
      LinesStep(s, Start(s), lines, i);
      xPos, baselineY := DrawLine(axes, s, marks0, warnings0, PlaceLines(s, Start(s), lines[..i]), line,
                                  letterBoxWidth, lineHeight, x0, y0, showLetters, letterPosition, trimWords);
    }

    /** `draw_text` on the canvas `c`. What it paints and prints is the
        rendering of `Layout` for this encoder and these arguments. */
    method DrawText(c: Trace, inputContent: seq<string>, letterSpacing: real := 0.4, lineSpacing: real := 0.6,
                    showLetters: bool := false, letterPosition: string := "below", trimWords: bool := false)
      modifies c
      ensures var s := Config(letterSpacing, lineSpacing, showLetters, letterPosition, trimWords);
        var r := Layout(s, inputContent);
        && c.marks == old(c.marks) + Render(s, r.placed)
        && c.warnings == old(c.warnings) + r.warnings
    {
      var axes := c;
      ghost var s := Config(letterSpacing, lineSpacing, showLetters, letterPosition, trimWords);
      ghost var marks0 := axes.marks;
      ghost var warnings0 := axes.warnings;
      Measures(s, size, letterSpacing, lineSpacing, showLetters, letterPosition);
      var letterBoxWidth := size * letterSpacing;
      var lineHeight := size * lineSpacing;
      if showLetters && letterPosition == "below" {
        lineHeight := lineHeight + size * 0.3;
      }
      assert letterBoxWidth == BoxWidth(s) && lineHeight == LineHeight(s);
      var baselineY := initialBaseline;
      var xPos := marginLeft;
      var i := 0;
      while i < |inputContent|
        invariant 0 <= i <= |inputContent|
        invariant Shows(axes, s, marks0, warnings0, PlaceLines(s, Start(s), inputContent[..i]), xPos, baselineY)
      {
        xPos, baselineY := DrawNextLine(axes, s, marks0, warnings0, inputContent, i, inputContent[i], letterBoxWidth,
                                    lineHeight, xPos, baselineY, showLetters, letterPosition, trimWords);
        i := i + 1;
      }
      assert inputContent[..i] == inputContent;
    }

    /** `generate_text_encoded`: a fresh canvas with the glyphs only. */
    method GenerateTextEncoded(inputContent: seq<string>, letterSpacing: real := 0.4, lineSpacing: real := 0.6)
      returns (c: Trace)
      ensures fresh(c)
      ensures var s := Config(letterSpacing, lineSpacing, false, "none", false);
        var r := Layout(s, inputContent);
        c.marks == Render(s, r.placed) && c.warnings == r.warnings
    {
      c := new Trace();
      DrawText(c, inputContent, letterSpacing := letterSpacing, lineSpacing := lineSpacing,
               showLetters := false, letterPosition := "none");
    }

    /** `generate_text_solution`: a fresh canvas, glyphs with captions below. */
    method GenerateTextSolution(inputContent: seq<string>, letterSpacing: real := 0.4, lineSpacing: real := 0.6)
      returns (c: Trace)
      ensures fresh(c)
      ensures var s := Config(letterSpacing, lineSpacing, true, "below", false);
        var r := Layout(s, inputContent);
        c.marks == Render(s, r.placed) && c.warnings == r.warnings
    {
      c := new Trace();
      DrawText(c, inputContent, letterSpacing := letterSpacing, lineSpacing := lineSpacing,
               showLetters := true, letterPosition := "below");
    }

    /** `generate_abc`: the alphabet in lines of five, with captions below. */
    method GenerateAbc(letterSpacing: real := 0.4, lineSpacing: real := 0.6)
      returns (c: Trace)
      ensures fresh(c)
      ensures var s := Config(letterSpacing, lineSpacing, true, "below", false);
        var r := Layout(s, AbcLines());
        c.marks == Render(s, r.placed) && c.warnings == r.warnings
    {
      var abcLine := AbcLines();
      c := new Trace();
      DrawText(c, abcLine, letterSpacing := letterSpacing, lineSpacing := lineSpacing,
               showLetters := true, letterPosition := "below");
    }
  }
}
