/** The line-wrap engine shared by the two `SymbolicEncoder` classes
    (`draw_text` with greedy word wrap), stated as a fold over the input:
    a pen holds the cursor `(x_pos, baseline_y)`, the letters placed so far
    and the warnings printed so far. `Render` turns the placements into the
    marks `draw_letter` paints. */
module LineWrap {
  import opened Text
  import opened Glyphs
  import opened Drawing

  /** Everything `draw_text` reads: the encoder's fields and its own
      arguments. `normalize` stands for `remove_accent`. */
  datatype Setup = Setup(
    keymap: Keymap,
    size: real,
    screenWidth: real,
    marginLeft: real,
    marginRight: real,
    initialBaseline: real,
    normalize: string -> string,
    letterSpacing: real,
    lineSpacing: real,
    showLetters: bool,
    letterPosition: string,
    trimWords: bool)

  /** One call of `draw_letter`: the letter, its keymap entry and its anchor. */
  datatype Placement = Placement(letter: char, glyph: seq<string>, x: real, baseline: real)

  /** The layout state after a prefix of the input. */
  datatype Pen = Pen(x: real, baseline: real, placed: seq<Placement>, warnings: seq<Warning>)

  /** `letter_box_width`. */
  function BoxWidth(s: Setup): real
  {
    s.size * s.letterSpacing
  }

  /** `line_height`, with the extra room for captions below the glyphs. */
  function LineHeight(s: Setup): real
  {
    var h := s.size * s.lineSpacing;
    if s.showLetters && s.letterPosition == "below" then h + s.size * 0.3 else h
  }

  /** Proof step: the two measures in terms of `draw_text`'s own arguments. */
  lemma Measures(s: Setup, size: real, letterSpacing: real, lineSpacing: real, showLetters: bool, letterPosition: string)
    requires s.size == size && s.letterSpacing == letterSpacing && s.lineSpacing == lineSpacing
    requires s.showLetters == showLetters && s.letterPosition == letterPosition
    ensures BoxWidth(s) == size * letterSpacing
    ensures LineHeight(s) == if showLetters && letterPosition == "below" then size * lineSpacing + size * 0.3 else size * lineSpacing
  {
  }

  /** The right edge that `check_fit` compares against. */
  function RightLimit(s: Setup): real
  {
    s.screenWidth - s.marginRight
  }

  /** The x of box edge number `k` of a run of boxes of width `w` starting at `x`. */
  function BoxEdge(x: real, k: int, w: real): real
  {
    x + k as real * w
  }

  /** `check_fit`: the word's boxes, laid from `x`, end no further right than `limit`. */
  predicate Fits(word: string, x: real, w: real, limit: real)
  {
    BoxEdge(x, |word|, w) <= limit
  }

  lemma MulMono(a: int, b: int, w: real)
    requires a <= b && w >= 0.0
    ensures a as real * w <= b as real * w
  {
    assert (b - a) as real * w >= 0.0;
  }

  /** For a non-negative box width a word fits exactly when every one of its
      box edges lies left of the limit (the bound is inclusive). */
  lemma FitsIffEveryEdgeInside(word: string, x: real, w: real, limit: real)
    requires w >= 0.0
    ensures Fits(word, x, w, limit) <==> forall k :: 0 <= k <= |word| ==> BoxEdge(x, k, w) <= limit
  {
    if Fits(word, x, w, limit) {
      forall k | 0 <= k <= |word| ensures BoxEdge(x, k, w) <= limit {
        MulMono(k, |word|, w);
      }
    }
  }

  /** `letter.lower()` as a keymap key. */
  function KeyOf(letter: char): string
  {
    [LowerChar(letter)]
  }

  /** The letters of `word` found in the keymap, in order. */
  function Hits(keymap: Keymap, word: string): (r: string)
    ensures |r| <= |word|
    ensures forall i :: 0 <= i < |r| ==> KeyOf(r[i]) in keymap
  {
    if word == [] then []
    else
      var init := Hits(keymap, word[..|word| - 1]);
      var c := word[|word| - 1];
      if KeyOf(c) in keymap then init + [c] else init
  }

  /** A character is a hit exactly when it occurs in the word and its
      lower-case form is in the keymap. */
  lemma {:induction false} HitsMembers(keymap: Keymap, word: string)
    ensures forall c :: c in Hits(keymap, word) <==> c in word && KeyOf(c) in keymap
    decreases |word|
  {
    if word != [] {
      var init := word[..|word| - 1];
      HitsMembers(keymap, init);
      assert word == init + [word[|word| - 1]];
    }
  }

  /** The hits of a concatenation are the hits of each part, in order, so
      a word's hits keep the word's order. */
  lemma {:induction false} HitsConcat(keymap: Keymap, a: string, b: string)
    ensures Hits(keymap, a + b) == Hits(keymap, a) + Hits(keymap, b)
    decreases |b|
  {
    if b == [] {
      assert a + b == a;
    } else {
      var b' := b[..|b| - 1];
      var c := b[|b| - 1];
      HitsConcat(keymap, a, b');
      var ab := a + b;
      assert ab[..|ab| - 1] == a + b';
      assert ab[|ab| - 1] == c;
      var tail := if KeyOf(c) in keymap then [c] else [];
      assert Hits(keymap, ab) == Hits(keymap, a + b') + tail;
      assert Hits(keymap, b) == Hits(keymap, b') + tail;
      assert (Hits(keymap, a) + Hits(keymap, b')) + tail == Hits(keymap, a) + (Hits(keymap, b') + tail);
    }
  }

  function Start(s: Setup): Pen
  {
    Pen(s.marginLeft, s.initialBaseline, [], [])
  }

  /** `baseline_y -= line_height; x_pos = MARGIN_LEFT`. */
  function Break(s: Setup, pen: Pen): Pen
  {
    pen.(x := s.marginLeft, baseline := pen.baseline - LineHeight(s))
  }

  /** One letter of a word: a keymap hit is drawn at the cursor and advances
      it; a miss is reported and advances nothing. */
  function PlaceLetter(s: Setup, pen: Pen, letter: char): Pen
  {
    var key := KeyOf(letter);
    if key in s.keymap then
      var glyph := s.keymap[key];
      Pen(pen.x + BoxWidth(s), pen.baseline,
          pen.placed + [Placement(letter, glyph, pen.x, pen.baseline)],
          pen.warnings + LineWarnings(glyph))
    else
      pen.(warnings := pen.warnings + [UnknownLetter(letter)])
  }

  function PlaceLetters(s: Setup, pen: Pen, word: string): Pen
  {
    if word == [] then pen
    else PlaceLetter(s, PlaceLetters(s, pen, word[..|word| - 1]), word[|word| - 1])
  }

  /** Where the word starts: at the cursor if it fits, after a break if not. */
  function WordStart(s: Setup, pen: Pen, word: string): Pen
  {
    if Fits(word, pen.x, BoxWidth(s), RightLimit(s)) then pen else Break(s, pen)
  }

  /** One word: wrap if needed, its letters, then the inter-word advance. */
  function PlaceWord(s: Setup, pen: Pen, word: string): Pen
  {
    var done := PlaceLetters(s, WordStart(s, pen, word), word);
    if s.trimWords then done else done.(x := done.x + BoxWidth(s))
  }

  function PlaceWords(s: Setup, pen: Pen, words: seq<string>): Pen
  {
    if words == [] then pen
    else PlaceWord(s, PlaceWords(s, pen, words[..|words| - 1]), words[|words| - 1])
  }

  /** The text of one input line after `strip('\n')` and `remove_accent`. */
  function LineText(s: Setup, line: string): string
  {
    s.normalize(StripNewlines(line))
  }

  /** One input line: a blank one is a bare break; otherwise its words, then
      a break. */
  function PlaceLine(s: Setup, pen: Pen, line: string): Pen
  {
    var text := LineText(s, line);
    if text == "" then Break(s, pen) else Break(s, PlaceWords(s, pen, Split(text)))
  }

  function PlaceLines(s: Setup, pen: Pen, lines: seq<string>): Pen
  {
    if lines == [] then pen
    else PlaceLine(s, PlaceLines(s, pen, lines[..|lines| - 1]), lines[|lines| - 1])
  }

  /** The whole of `draw_text`. */
  function Layout(s: Setup, lines: seq<string>): Pen
  {
    PlaceLines(s, Start(s), lines)
  }

  /** What `draw_letter` paints for every placement, in order. */
  function Render(s: Setup, placed: seq<Placement>): seq<Mark>
  {
    if placed == [] then []
    else
      var p := placed[|placed| - 1];
      Render(s, placed[..|placed| - 1])
        + LetterMarks(p.glyph, p.x, p.baseline, s.size, s.showLetters, s.letterPosition, [p.letter])
  }

  /** The page `t` shows what it held before (`marks0`, `warnings0`)
      followed by the rendering of `pen`, and the cursor variables agree
      with `pen`. */
  ghost predicate Shows(t: Trace, s: Setup, marks0: seq<Mark>, warnings0: seq<Warning>, pen: Pen,
                        xPos: real, baselineY: real)
    reads t
  {
    && xPos == pen.x && baselineY == pen.baseline
    && t.marks == marks0 + Render(s, pen.placed) && t.warnings == warnings0 + pen.warnings
  }

  /** The end of an input line: once its words are on the page (nothing,
      for a blank line), the break completes `PlaceLine`. */
  lemma ShowsLineEnd(t: Trace, s: Setup, marks0: seq<Mark>, warnings0: seq<Warning>, pen: Pen, line: string,
                     xPos: real, baselineY: real)
    requires var text := LineText(s, line);
      Shows(t, s, marks0, warnings0, if text == "" then pen else PlaceWords(s, pen, Split(text)), xPos, baselineY)
    ensures Shows(t, s, marks0, warnings0, PlaceLine(s, pen, line), s.marginLeft, baselineY - LineHeight(s))
  {
  }

  // ---------------------------------------------------------------------
  // One step of each fold, for the loops that compute them

  /** Proof step: the letter fold unfolded once at `word[..k + 1]`. */
  lemma LettersStep(s: Setup, pen: Pen, word: string, k: nat)
    requires k < |word|
    ensures PlaceLetters(s, pen, word[..k + 1]) == PlaceLetter(s, PlaceLetters(s, pen, word[..k]), word[k])
  {
    assert word[..k + 1][..k] == word[..k];
  }

  /** Proof step: the word fold unfolded once at `words[..j + 1]`. */
  lemma WordsStep(s: Setup, pen: Pen, words: seq<string>, j: nat)
    requires j < |words|
    ensures PlaceWords(s, pen, words[..j + 1]) == PlaceWord(s, PlaceWords(s, pen, words[..j]), words[j])
  {
    assert words[..j + 1][..j] == words[..j];
  }

  /** Proof step: the line fold unfolded once at `lines[..i + 1]`. */
  lemma LinesStep(s: Setup, pen: Pen, lines: seq<string>, i: nat)
    requires i < |lines|
    ensures PlaceLines(s, pen, lines[..i + 1]) == PlaceLine(s, PlaceLines(s, pen, lines[..i]), lines[i])
  {
    assert lines[..i + 1][..i] == lines[..i];
  }

  /** What one letter does to the cursor, the rendering and the warnings. */
  lemma PlaceLetterStep(s: Setup, pen: Pen, letter: char)
    ensures var r := PlaceLetter(s, pen, letter); var key := KeyOf(letter);
      && r.baseline == pen.baseline
      && (key in s.keymap ==>
            && r.x == pen.x + BoxWidth(s)
            && Render(s, r.placed) == Render(s, pen.placed)
                 + LetterMarks(s.keymap[key], pen.x, pen.baseline, s.size, s.showLetters, s.letterPosition, [letter])
            && r.warnings == pen.warnings + LineWarnings(s.keymap[key]))
      && (key !in s.keymap ==>
            && r.x == pen.x && r.placed == pen.placed
            && r.warnings == pen.warnings + [UnknownLetter(letter)])
  {
    var key := KeyOf(letter);
    if key in s.keymap {
      RenderStep(s, pen.placed, Placement(letter, s.keymap[key], pen.x, pen.baseline));
    }
  }

  /** Proof step: `Render` unfolded once at `placed + [p]`. */
  lemma RenderStep(s: Setup, placed: seq<Placement>, p: Placement)
    ensures Render(s, placed + [p])
      == Render(s, placed) + LetterMarks(p.glyph, p.x, p.baseline, s.size, s.showLetters, s.letterPosition, [p.letter])
  {
    assert (placed + [p])[..|placed|] == placed;
  }

  // ---------------------------------------------------------------------
  // Properties of the layout

  /** Placing the letters of one word: the baseline stays, the cursor moves
      one box per keymap hit and not at all for a miss, and the hits are
      drawn in order at consecutive box edges. */
  lemma {:induction false} PlaceLettersEffect(s: Setup, pen: Pen, word: string)
    ensures var r := PlaceLetters(s, pen, word); var hits := Hits(s.keymap, word); var w := BoxWidth(s);
      && r.baseline == pen.baseline
      && r.x == BoxEdge(pen.x, |hits|, w)
      && |r.placed| == |pen.placed| + |hits|
      && r.placed[..|pen.placed|] == pen.placed
      && forall k :: 0 <= k < |hits| ==>
           r.placed[|pen.placed| + k] == Placement(hits[k], s.keymap[KeyOf(hits[k])], BoxEdge(pen.x, k, w), pen.baseline)
    decreases |word|
  {
    if word != [] {
      var init := word[..|word| - 1];
      var c := word[|word| - 1];
      var w := BoxWidth(s);
      PlaceLettersEffect(s, pen, init);
      var mid := PlaceLetters(s, pen, init);
      var before := Hits(s.keymap, init);
      var r := PlaceLetter(s, mid, c);
      assert PlaceLetters(s, pen, word) == r;
      if KeyOf(c) in s.keymap {
        var hits := before + [c];
        assert Hits(s.keymap, word) == hits;
        var n := |before|;
        BoxEdgeNext(pen.x, n, w);
        var added := Placement(c, s.keymap[KeyOf(c)], mid.x, mid.baseline);
        assert r.placed == mid.placed + [added];
        forall k | 0 <= k < |hits|
          ensures r.placed[|pen.placed| + k] == Placement(hits[k], s.keymap[KeyOf(hits[k])], BoxEdge(pen.x, k, w), pen.baseline)
        {
          if k < n {
            assert r.placed[|pen.placed| + k] == mid.placed[|pen.placed| + k];
            assert hits[k] == before[k];
          } else {
            assert r.placed[|pen.placed| + k] == added;
          }
        }
        assert r.placed[..|pen.placed|] == mid.placed[..|pen.placed|];
      } else {
        assert Hits(s.keymap, word) == before;
      }
    }
  }

  lemma BoxEdgeNext(x: real, k: int, w: real)
    ensures BoxEdge(x, k + 1, w) == BoxEdge(x, k, w) + w
  {
    assert (k + 1) as real * w == k as real * w + w;
  }

  /** Placing one word. The break, if any, comes before the word, even at
      the start of a line; the word is then placed whole on one baseline at
      consecutive box edges, and the cursor stops one box past its last hit
      unless words are trimmed. */
  lemma PlaceWordEffect(s: Setup, pen: Pen, word: string)
    ensures var fits := Fits(word, pen.x, BoxWidth(s), RightLimit(s));
      var x0 := if fits then pen.x else s.marginLeft;
      var b0 := if fits then pen.baseline else pen.baseline - LineHeight(s);
      var r := PlaceWord(s, pen, word); var hits := Hits(s.keymap, word); var w := BoxWidth(s);
      && r.baseline == b0
      && r.x == BoxEdge(x0, |hits| + (if s.trimWords then 0 else 1), w)
      && |r.placed| == |pen.placed| + |hits|
      && r.placed[..|pen.placed|] == pen.placed
      && forall k :: 0 <= k < |hits| ==>
           r.placed[|pen.placed| + k] == Placement(hits[k], s.keymap[KeyOf(hits[k])], BoxEdge(x0, k, w), b0)
  {
    var start := WordStart(s, pen, word);
    PlaceLettersEffect(s, start, word);
    BoxEdgeNext(start.x, |Hits(s.keymap, word)|, BoxWidth(s));
  }

  /** A line whose text is empty after stripping and normalising moves the
      baseline down by exactly one line height, returns to the margin and
      places and reports nothing. */
  lemma BlankLine(s: Setup, pen: Pen, line: string)
    requires LineText(s, line) == ""
    ensures var r := PlaceLine(s, pen, line);
      && r.baseline == pen.baseline - LineHeight(s) && r.x == s.marginLeft
      && r.placed == pen.placed && r.warnings == pen.warnings
  {
  }

  /** The baseline never rises while a line's words are placed (for a
      non-negative line height), and nothing placed earlier is lost. */
  lemma {:induction false} PlaceWordsLowers(s: Setup, pen: Pen, words: seq<string>)
    requires LineHeight(s) >= 0.0
    ensures var r := PlaceWords(s, pen, words);
      r.baseline <= pen.baseline && |pen.placed| <= |r.placed| && r.placed[..|pen.placed|] == pen.placed
    decreases |words|
  {
    if words != [] {
      var init := words[..|words| - 1];
      PlaceWordsLowers(s, pen, init);
      var mid := PlaceWords(s, pen, init);
      PlaceWordEffect(s, mid, words[|words| - 1]);
      assert mid.placed[..|pen.placed|] == pen.placed;
    }
  }

  /** Every processed line ends at the left margin at least one line height
      lower than it began. */
  lemma LineEndsWithBreak(s: Setup, pen: Pen, line: string)
    requires LineHeight(s) >= 0.0
    ensures var r := PlaceLine(s, pen, line);
      r.x == s.marginLeft && r.baseline <= pen.baseline - LineHeight(s)
  {
    var text := LineText(s, line);
    if text != "" {
      PlaceWordsLowers(s, pen, Split(text));
    }
  }

  // ---------------------------------------------------------------------
  // A line that fits is never wrapped

  /** The boxes a run of words takes up: its letters plus one separator
      after each word. */
  function Span(words: seq<string>): nat
  {
    if words == [] then 0 else Span(words[..|words| - 1]) + |words[|words| - 1]| + 1
  }

  lemma {:induction false} SpanFront(w: string, rest: seq<string>)
    ensures Span([w] + rest) == |w| + 1 + Span(rest)
    decreases |rest|
  {
    if rest == [] {
      assert ([w] + rest)[..0] == [];
    } else {
      var init := rest[..|rest| - 1];
      SpanFront(w, init);
      assert ([w] + rest)[..|[w] + rest| - 1] == [w] + init;
    }
  }

  /** A joined line takes one box per character, plus the final separator. */
  lemma {:induction false} SpanOfJoin(words: seq<string>)
    requires |words| >= 1
    ensures Span(words) == |Join(words)| + 1
  {
    if |words| == 1 {
      assert words[..0] == [];
    } else {
      SpanOfJoin(words[1..]);
      SpanFront(words[0], words[1..]);
      assert [words[0]] + words[1..] == words;
    }
  }

  lemma BoxEdgeMono(x: real, a: int, b: int, w: real)
    requires a <= b && w >= 0.0
    ensures BoxEdge(x, a, w) <= BoxEdge(x, b, w)
  {
    MulMono(a, b, w);
  }

  lemma BoxEdgeAdd(x: real, a: int, b: int, w: real)
    ensures BoxEdge(BoxEdge(x, a, w), b, w) == BoxEdge(x, a + b, w)
  {
    assert (a + b) as real * w == a as real * w + b as real * w;
  }

  /** Words laid from the left margin whose span (less the last separator)
      fits never wrap: they all sit on the starting baseline. */
  lemma {:induction false} NoWrapWords(s: Setup, pen: Pen, words: seq<string>)
    requires BoxWidth(s) >= 0.0
    requires pen.x <= s.marginLeft
    requires BoxEdge(s.marginLeft, Span(words) - 1, BoxWidth(s)) <= RightLimit(s)
    ensures var r := PlaceWords(s, pen, words);
      && r.baseline == pen.baseline
      && r.x <= BoxEdge(s.marginLeft, Span(words), BoxWidth(s))
      && |pen.placed| <= |r.placed| && r.placed[..|pen.placed|] == pen.placed
      && forall k :: |pen.placed| <= k < |r.placed| ==> r.placed[k].baseline == pen.baseline
    decreases |words|
  {
    var w := BoxWidth(s);
    var ml := s.marginLeft;
    if words == [] {
      assert BoxEdge(ml, 0, w) == ml;
    } else {
      var init := words[..|words| - 1];
      var last := words[|words| - 1];
      var r := PlaceWords(s, pen, words);
      var mid := PlaceWords(s, pen, init);
      assert r == PlaceWord(s, mid, last);
      BoxEdgeMono(ml, Span(init) - 1, Span(words) - 1, w);
      NoWrapWords(s, pen, init);
      // the last word fits where the earlier ones left the cursor
      BoxEdgeAdd(ml, Span(init), |last|, w);
      assert BoxEdge(mid.x, |last|, w) <= BoxEdge(BoxEdge(ml, Span(init), w), |last|, w);
      assert Fits(last, mid.x, w, RightLimit(s));
      PlaceWordEffect(s, mid, last);
      var n := |Hits(s.keymap, last)| + (if s.trimWords then 0 else 1);
      assert r.x == BoxEdge(mid.x, n, w);
      BoxEdgeMono(mid.x, n, |last| + 1, w);
      BoxEdgeAdd(ml, Span(init), |last| + 1, w);
      assert BoxEdge(mid.x, |last| + 1, w) <= BoxEdge(BoxEdge(ml, Span(init), w), |last| + 1, w);
      // every placement of the last word is on the same baseline
      FittingWordStaysOnBaseline(s, mid, last);
      assert r.placed[..|pen.placed|] == pen.placed;
      forall k | |pen.placed| <= k < |r.placed| ensures r.placed[k].baseline == pen.baseline {
        if k < |mid.placed| {
          assert r.placed[k] == mid.placed[k];
        }
      }
    }
  }

  /** A word that fits where the cursor is goes on the cursor's baseline,
      after everything placed before it. */
  lemma FittingWordStaysOnBaseline(s: Setup, pen: Pen, word: string)
    requires Fits(word, pen.x, BoxWidth(s), RightLimit(s))
    ensures var r := PlaceWord(s, pen, word);
      && r.baseline == pen.baseline
      && |pen.placed| <= |r.placed| && r.placed[..|pen.placed|] == pen.placed
      && forall k :: |pen.placed| <= k < |r.placed| ==> r.placed[k].baseline == pen.baseline
  {
    var r := PlaceWord(s, pen, word);
    PlaceWordEffect(s, pen, word);
    forall k | |pen.placed| <= k < |r.placed| ensures r.placed[k].baseline == pen.baseline {
      var hits := Hits(s.keymap, word);
      var j := k - |pen.placed|;
      assert r.placed[|pen.placed| + j] == Placement(hits[j], s.keymap[KeyOf(hits[j])], BoxEdge(pen.x, j, BoxWidth(s)), pen.baseline);
    }
  }

  /** A line whose text, one box per character, fits between the margins is
      placed on a single baseline: no break is inserted inside it, and only
      the end-of-line break follows. */
  lemma NoWrapWhenLineFits(s: Setup, pen: Pen, line: string)
    requires LineText(s, line) != ""
    requires BoxWidth(s) >= 0.0
    requires pen.x == s.marginLeft
    requires BoxEdge(s.marginLeft, |LineText(s, line)|, BoxWidth(s)) <= RightLimit(s)
    ensures var r := PlaceLine(s, pen, line);
      && r.baseline == pen.baseline - LineHeight(s)
      && |pen.placed| <= |r.placed| && r.placed[..|pen.placed|] == pen.placed
      && forall k :: |pen.placed| <= k < |r.placed| ==> r.placed[k].baseline == pen.baseline
  {
    var text := LineText(s, line);
    var words := Split(text);
    JoinSplit(text);
    SpanOfJoin(words);
    NoWrapWords(s, pen, words);
  }

  // ---------------------------------------------------------------------
  // Reading order

  /** `b` comes after `a` when read top to bottom, left to right. */
  predicate Precedes(a: Placement, b: Placement)
  {
    b.baseline < a.baseline || (b.baseline == a.baseline && a.x < b.x)
  }

  predicate InReadingOrder(placed: seq<Placement>)
  {
    forall i :: 0 <= i < |placed| - 1 ==> Precedes(placed[i], placed[i + 1])
  }

  /** The placements are in reading order and the cursor lies past the last one. */
  predicate Ordered(pen: Pen)
  {
    && InReadingOrder(pen.placed)
    && (pen.placed != [] ==>
          var last := pen.placed[|pen.placed| - 1];
          pen.baseline < last.baseline || (pen.baseline == last.baseline && last.x < pen.x))
  }

  lemma OrderedLetter(s: Setup, pen: Pen, letter: char)
    requires BoxWidth(s) > 0.0
    requires Ordered(pen)
    ensures Ordered(PlaceLetter(s, pen, letter))
  {
    var r := PlaceLetter(s, pen, letter);
    if KeyOf(letter) in s.keymap {
      assert r.placed == pen.placed + [r.placed[|r.placed| - 1]];
      forall i | 0 <= i < |r.placed| - 1 ensures Precedes(r.placed[i], r.placed[i + 1]) {
        if i < |pen.placed| - 1 {
          assert r.placed[i] == pen.placed[i] && r.placed[i + 1] == pen.placed[i + 1];
        }
      }
    }
  }

  lemma {:induction false} OrderedLetters(s: Setup, pen: Pen, word: string)
    requires BoxWidth(s) > 0.0
    requires Ordered(pen)
    ensures Ordered(PlaceLetters(s, pen, word))
    decreases |word|
  {
    if word != [] {
      OrderedLetters(s, pen, word[..|word| - 1]);
      OrderedLetter(s, PlaceLetters(s, pen, word[..|word| - 1]), word[|word| - 1]);
    }
  }

  lemma OrderedWord(s: Setup, pen: Pen, word: string)
    requires BoxWidth(s) > 0.0 && LineHeight(s) > 0.0
    requires Ordered(pen)
    ensures Ordered(PlaceWord(s, pen, word))
  {
    OrderedLetters(s, WordStart(s, pen, word), word);
  }

  lemma {:induction false} OrderedWords(s: Setup, pen: Pen, words: seq<string>)
    requires BoxWidth(s) > 0.0 && LineHeight(s) > 0.0
    requires Ordered(pen)
    ensures Ordered(PlaceWords(s, pen, words))
    decreases |words|
  {
    if words != [] {
      OrderedWords(s, pen, words[..|words| - 1]);
      OrderedWord(s, PlaceWords(s, pen, words[..|words| - 1]), words[|words| - 1]);
    }
  }

  lemma OrderedBreak(s: Setup, pen: Pen)
    requires LineHeight(s) > 0.0
    requires Ordered(pen)
    ensures Ordered(Break(s, pen))
  {
  }

  lemma OrderedLine(s: Setup, pen: Pen, line: string)
    requires BoxWidth(s) > 0.0 && LineHeight(s) > 0.0
    requires Ordered(pen)
    ensures Ordered(PlaceLine(s, pen, line))
  {
    var text := LineText(s, line);
    if text == "" {
      OrderedBreak(s, pen);
    } else {
      OrderedWords(s, pen, Split(text));
      OrderedBreak(s, PlaceWords(s, pen, Split(text)));
    }
  }

  lemma {:induction false} OrderedLines(s: Setup, pen: Pen, lines: seq<string>)
    requires BoxWidth(s) > 0.0 && LineHeight(s) > 0.0
    requires Ordered(pen)
    ensures Ordered(PlaceLines(s, pen, lines))
    decreases |lines|
  {
    if lines != [] {
      var init := lines[..|lines| - 1];
      OrderedLines(s, pen, init);
      OrderedLine(s, PlaceLines(s, pen, init), lines[|lines| - 1]);
    }
  }

  /** With positive box width and line height, `draw_text` places letters
      left to right and top to bottom, never twice at one spot. */
  lemma LayoutInReadingOrder(s: Setup, lines: seq<string>)
    requires BoxWidth(s) > 0.0 && LineHeight(s) > 0.0
    ensures InReadingOrder(Layout(s, lines).placed)
  {
    OrderedLines(s, Start(s), lines);
  }

  // ---------------------------------------------------------------------
  // Words longer than a line

  /** A word whose boxes would pass the right limit even from the margin,
      and whose letters are all in the keymap, gets a line of its own: it
      starts after a break, at the margin, and the word after it starts
      after another break. It is never split. */
  lemma LongWordOwnLine(s: Setup, pen: Pen, word: string, next: string)
    requires BoxWidth(s) >= 0.0
    requires pen.x >= s.marginLeft
    requires |Hits(s.keymap, word)| == |word|
    requires !Fits(word, s.marginLeft, BoxWidth(s), RightLimit(s))
    ensures var r := PlaceWord(s, pen, word);
      && r.baseline == pen.baseline - LineHeight(s)
      && |r.placed| == |pen.placed| + |word|
      && (word != [] ==> r.placed[|pen.placed|].x == s.marginLeft)
      && (forall k :: |pen.placed| <= k < |r.placed| ==> r.placed[k].baseline == r.baseline)
      && PlaceWord(s, r, next).baseline == r.baseline - LineHeight(s)
  {
    var w := BoxWidth(s);
    var lim := RightLimit(s);
    var ml := s.marginLeft;
    assert BoxEdge(pen.x, |word|, w) >= BoxEdge(ml, |word|, w);
    assert !Fits(word, pen.x, w, lim);
    PlaceWordEffect(s, pen, word);
    var r := PlaceWord(s, pen, word);
    var hits := Hits(s.keymap, word);
    var n := |hits| + (if s.trimWords then 0 else 1);
    BoxEdgeMono(ml, |word|, n, w);
    assert r.x > lim;
    forall k | |pen.placed| <= k < |r.placed| ensures r.placed[k].baseline == r.baseline {
      var j := k - |pen.placed|;
      assert 0 <= j < |hits|;
      assert r.placed[|pen.placed| + j] == Placement(hits[j], s.keymap[KeyOf(hits[j])], BoxEdge(ml, j, w), r.baseline);
    }
    if word != [] {
      assert r.placed[|pen.placed| + 0] == Placement(hits[0], s.keymap[KeyOf(hits[0])], BoxEdge(ml, 0, w), r.baseline);
    }
    MulMono(0, |next|, w);
    assert BoxEdge(r.x, |next|, w) >= r.x;
    assert !Fits(next, r.x, w, lim);
    PlaceWordEffect(s, r, next);
  }

  // ---------------------------------------------------------------------
  // A worked example

  /** Keymap {"a": ["center"], "b": ["top_left", "bottom_right"]}, the line
      "ab" at size 50 and letter spacing 0.4, with room on the line: "a" is
      placed at the margin and "b" one box (20 units) to its right, on the
      first baseline, and the segment of "a" is `center` at scale 1. */
  lemma TwoLetterExample(s: Setup)
    requires s.keymap == map["a" := ["center"], "b" := ["top_left", "bottom_right"]]
    requires s.size == 50.0 && s.letterSpacing == 0.4 && !s.showLetters
    requires s.normalize("ab") == "ab"
    requires s.marginLeft + 40.0 <= RightLimit(s)
    ensures var r := Layout(s, ["ab"]); var ml, b := s.marginLeft, s.initialBaseline;
      && r.placed == [Placement('a', ["center"], ml, b), Placement('b', ["top_left", "bottom_right"], ml + 20.0, b)]
      && Render(s, r.placed)[0] == Segment(ml + 10.0, b - 30.0, ml + 30.0, b - 30.0)
  {
    ExampleLetters(s);
    ExampleLayout(s);
    ExampleRender(s, Layout(s, ["ab"]).placed);
  }

  /** The first mark of a rendering whose first letter is "a" at `(x, b)`,
      without captions, is the `center` segment at scale 1. */
  lemma ExampleRender(s: Setup, placed: seq<Placement>)
    requires s.size == 50.0 && !s.showLetters
    requires |placed| == 2 && placed[0].glyph == ["center"]
    ensures |Render(s, placed)| > 0
    ensures Render(s, placed)[0] == Segment(placed[0].x + 10.0, placed[0].baseline - 30.0,
                                            placed[0].x + 30.0, placed[0].baseline - 30.0)
  {
    var p := placed[0];
    RenderStep(s, [p], placed[1]);
    RenderStep(s, [], p);
    assert [p] + [placed[1]] == placed;
    assert LetterSegments(["center"], p.x, p.baseline, 50.0) == [Place(LinesMap["center"], p.x, p.baseline, Scale(50.0))] by {
      assert ["center"][..0] == [];
    }
    assert Render(s, [p]) == LetterSegments(["center"], p.x, p.baseline, 50.0);
  }

  /** The one-line, one-word input "ab" that fits is placed as its letters. */
  lemma ExampleLayout(s: Setup)
    requires s.normalize("ab") == "ab"
    requires Fits("ab", s.marginLeft, BoxWidth(s), RightLimit(s))
    ensures Layout(s, ["ab"]).placed == PlaceLetters(s, Start(s), "ab").placed
  {
    var st := Start(s);
    ExampleText();
    assert LineText(s, "ab") == "ab";
    assert ["ab"][..0] == [];
    assert PlaceLines(s, st, ["ab"]) == PlaceLine(s, st, "ab");
    assert PlaceWords(s, st, ["ab"]) == PlaceWord(s, st, "ab");
  }

  lemma ExampleText()
    ensures StripNewlines("ab") == "ab" && Split("ab") == ["ab"]
  {
    assert StripLeading("ab") == "ab";
    assert StripTrailing("ab") == "ab";
    assert ' ' !in "ab";
    SplitWord("ab");
  }

  lemma ExampleLetters(s: Setup)
    requires s.keymap == map["a" := ["center"], "b" := ["top_left", "bottom_right"]]
    requires s.size == 50.0 && s.letterSpacing == 0.4
    ensures PlaceLetters(s, Start(s), "ab").placed
      == [Placement('a', ["center"], s.marginLeft, s.initialBaseline),
          Placement('b', ["top_left", "bottom_right"], s.marginLeft + 20.0, s.initialBaseline)]
  {
    var ml, b := s.marginLeft, s.initialBaseline;
    var st := Start(s);
    assert KeyOf('a') == "a" && KeyOf('b') == "b";
    assert BoxWidth(s) == 20.0;
    var p1 := PlaceLetter(s, st, 'a');
    assert p1.placed == [Placement('a', ["center"], ml, b)] && p1.x == ml + 20.0;
    assert "ab"[..1] == "a" && "a"[..0] == [];
    assert PlaceLetters(s, st, "a") == p1;
    assert PlaceLetters(s, st, "ab") == PlaceLetter(s, p1, 'b');
  }
}
