/** The glyph vocabulary (`LINES_MAP`) and what `draw_letter` hands to the
    backend for one letter: one segment per known primitive of the letter's
    keymap entry, in entry order, and at most one caption. */
module Glyphs {
  import opened Text

  /** Letter (as a one-character string) to the names of its primitives. */
  type Keymap = map<string, seq<string>>

  /** One primitive in the unscaled 0..50 glyph space. */
  datatype Line = Line(x1: int, y1: int, x2: int, y2: int)

  /** `LINES_MAP`, identical in all three variants. */
  const LinesMap: map<string, Line> := map[
    "bottom_left" := Line(10, 30, 20, 15),
    "bottom_right" := Line(30, 30, 20, 15),
    "center" := Line(10, 30, 30, 30),
    "top_left" := Line(10, 30, 20, 45),
    "top_right" := Line(30, 30, 20, 45)
  ]

  /** What the drawing backend is asked to paint. */
  datatype Mark =
    | Segment(x1: real, y1: real, x2: real, y2: real)
    | Caption(x: real, y: real, fontSize: real, text: string)

  /** What the encoders print when they skip something. */
  datatype Warning = UnknownLine(key: string) | UnknownLetter(letter: char)

  function Scale(size: real): real { size / 50.0 }

  /** The primitive `l` scaled by `k` (`draw_letter` uses `k = size/50`),
      shifted right by `x` and hung below `baseline` (a larger unscaled y
      lies lower on the page). */
  function Place(l: Line, x: real, baseline: real, k: real): Mark
  {
    Segment(x + l.x1 as real * k, baseline - l.y1 as real * k,
            x + l.x2 as real * k, baseline - l.y2 as real * k)
  }

  /** The unscaled coordinates a placed point came from. */
  function LocalX(px: real, x: real, k: real): real
    requires k != 0.0
  {
    (px - x) / k
  }

  function LocalY(py: real, baseline: real, k: real): real
    requires k != 0.0
  {
    (baseline - py) / k
  }

  /** Proof step: for a non-zero scale the unscaled coordinates of a
      primitive are recovered from its placed endpoints and the anchor. */
  lemma PlaceIsInvertible(l: Line, x: real, baseline: real, k: real)
    requires k != 0.0
    ensures var m := Place(l, x, baseline, k);
      && LocalX(m.x1, x, k) == l.x1 as real && LocalY(m.y1, baseline, k) == l.y1 as real
      && LocalX(m.x2, x, k) == l.x2 as real && LocalY(m.y2, baseline, k) == l.y2 as real
  {
    assert (l.x1 as real * k) / k == l.x1 as real;
    assert (l.y1 as real * k) / k == l.y1 as real;
    assert (l.x2 as real * k) / k == l.x2 as real;
    assert (l.y2 as real * k) / k == l.y2 as real;
  }

  /** Proof step: two primitives placed at the same anchor and non-zero
      scale give the same segment only if they are the same primitive. */
  lemma PlaceDeterminesLine(l1: Line, l2: Line, x: real, baseline: real, k: real)
    requires k != 0.0
    ensures Place(l1, x, baseline, k) == Place(l2, x, baseline, k) ==> l1 == l2
  {
    PlaceIsInvertible(l1, x, baseline, k);
    PlaceIsInvertible(l2, x, baseline, k);
  }

  /** No two names of the vocabulary denote the same primitive. */
  lemma VocabularyInjective(a: string, b: string)
    requires a in LinesMap && b in LinesMap && a != b
    ensures LinesMap[a] != LinesMap[b]
  {
  }

  /** Different primitive names, drawn at the same position and a non-zero
      size, give different segments: a picture of one glyph tells which
      vocabulary entries it was drawn from. */
  lemma PlacedEntriesDistinct(a: string, b: string, x: real, baseline: real, size: real)
    requires a in LinesMap && b in LinesMap && a != b && size != 0.0
    ensures Place(LinesMap[a], x, baseline, Scale(size)) != Place(LinesMap[b], x, baseline, Scale(size))
  {
    VocabularyInjective(a, b);
    PlaceDeterminesLine(LinesMap[a], LinesMap[b], x, baseline, Scale(size));
  }

  /** The test `line_key and line_key in LINES_MAP`. */
  predicate IsKnownLine(key: string)
  {
    key != "" && key in LinesMap
  }

  /** The keys of a keymap entry that `draw_letter` draws, in entry order. */
  function KnownLines(config: seq<string>): (r: seq<string>)
    ensures |r| <= |config|
    ensures forall k :: k in r <==> k in config && IsKnownLine(k)
    ensures forall i :: 0 <= i < |r| ==> IsKnownLine(r[i])
  {
    if config == [] then []
    else
      var init := KnownLines(config[..|config| - 1]);
      var key := config[|config| - 1];
      assert config == config[..|config| - 1] + [key];
      if IsKnownLine(key) then init + [key] else init
  }

  /** The segments `draw_letter` emits, one per entry key, skipping unknown
      ones. */
  function LetterSegments(config: seq<string>, x: real, baseline: real, size: real): seq<Mark>
  {
    if config == [] then []
    else
      var init := LetterSegments(config[..|config| - 1], x, baseline, size);
      var key := config[|config| - 1];
      if IsKnownLine(key) then init + [Place(LinesMap[key], x, baseline, Scale(size))] else init
  }

  /** The warnings `draw_letter` prints, one per unknown or empty key. */
  function LineWarnings(config: seq<string>): seq<Warning>
  {
    if config == [] then []
    else
      var init := LineWarnings(config[..|config| - 1]);
      var key := config[|config| - 1];
      if IsKnownLine(key) then init else init + [UnknownLine(key)]
  }

  /** Proof step: one pass of the loop in `draw_letter`, unfolding both
      folds at `config[..i + 1]`. */
  lemma SegmentsStep(config: seq<string>, x: real, baseline: real, size: real, i: nat)
    requires i < |config|
    ensures LetterSegments(config[..i + 1], x, baseline, size)
      == LetterSegments(config[..i], x, baseline, size)
         + (if IsKnownLine(config[i]) then [Place(LinesMap[config[i]], x, baseline, Scale(size))] else [])
    ensures LineWarnings(config[..i + 1])
      == LineWarnings(config[..i]) + (if IsKnownLine(config[i]) then [] else [UnknownLine(config[i])])
  {
    assert config[..i + 1][..i] == config[..i];
  }

  /** Segment number `i` is the `i`-th known key of the entry, placed. */
  lemma {:induction false} SegmentsFollowKnownLines(config: seq<string>, x: real, baseline: real, size: real)
    ensures var segs := LetterSegments(config, x, baseline, size); var known := KnownLines(config);
      && |segs| == |known|
      && forall i :: 0 <= i < |segs| ==> segs[i] == Place(LinesMap[known[i]], x, baseline, Scale(size))
  {
    if config != [] {
      SegmentsFollowKnownLines(config[..|config| - 1], x, baseline, size);
    }
  }

  /** Every key of the entry is drawn or warned about, never both: each
      warning names a key of the entry that is not drawn, and every key of
      the entry that is not drawn is warned about. */
  lemma {:induction false} EveryKeyDrawnOrWarned(config: seq<string>)
    ensures |KnownLines(config)| + |LineWarnings(config)| == |config|
    ensures forall i :: 0 <= i < |LineWarnings(config)| ==>
      LineWarnings(config)[i].UnknownLine? && !IsKnownLine(LineWarnings(config)[i].key)
      && LineWarnings(config)[i].key in config
    ensures forall k :: k in config && !IsKnownLine(k) ==> UnknownLine(k) in LineWarnings(config)
  {
    if config != [] {
      var init := config[..|config| - 1];
      EveryKeyDrawnOrWarned(init);
      assert config == init + [config[|config| - 1]];
      assert forall k :: k in init ==> k in config;
    }
  }

  /** `LineWarnings` respects concatenation, so the warnings come in the
      entry's order, one per key that is not drawn. */
  lemma {:induction false} LineWarningsAppend(a: seq<string>, b: seq<string>)
    ensures LineWarnings(a + b) == LineWarnings(a) + LineWarnings(b)
    decreases |b|
  {
    if b == [] {
      assert a + b == a;
    } else {
      var b' := b[..|b| - 1];
      var key := b[|b| - 1];
      LineWarningsAppend(a, b');
      var ab := a + b;
      assert ab[..|ab| - 1] == a + b';
      assert ab[|ab| - 1] == key;
      var tail := if IsKnownLine(key) then [] else [UnknownLine(key)];
      assert LineWarnings(ab) == LineWarnings(a + b') + tail;
      assert LineWarnings(b) == LineWarnings(b') + tail;
      assert (LineWarnings(a) + LineWarnings(b')) + tail == LineWarnings(a) + (LineWarnings(b') + tail);
    }
  }

  /** `KnownLines` respects concatenation, so the drawn keys keep the
      entry's order. */
  lemma {:induction false} KnownLinesAppend(a: seq<string>, b: seq<string>)
    ensures KnownLines(a + b) == KnownLines(a) + KnownLines(b)
    decreases |b|
  {
    if b == [] {
      assert a + b == a;
    } else {
      var b' := b[..|b| - 1];
      var key := b[|b| - 1];
      KnownLinesAppend(a, b');
      var ab := a + b;
      assert ab[..|ab| - 1] == a + b';
      assert ab[|ab| - 1] == key;
      var tail := if IsKnownLine(key) then [key] else [];
      assert KnownLines(ab) == KnownLines(a + b') + tail;
      assert KnownLines(b) == KnownLines(b') + tail;
      AppendAssoc(KnownLines(a), KnownLines(b'), tail);
    }
  }

  /** Every vocabulary entry lies in the box [10, 30] x [15, 45]. */
  lemma VocabularyBounds(key: string)
    requires key in LinesMap
    ensures var l := LinesMap[key];
      10 <= l.x1 <= 30 && 10 <= l.x2 <= 30 && 15 <= l.y1 <= 45 && 15 <= l.y2 <= 45
  {
  }

  lemma ScaledBetween(a: int, lo: int, hi: int, size: real)
    requires lo <= a <= hi && size >= 0.0
    ensures lo as real * Scale(size) <= a as real * Scale(size) <= hi as real * Scale(size)
  {
    var k := Scale(size);
    assert k >= 0.0;
    NonNegProduct((a - lo) as real, k);
    NonNegProduct((hi - a) as real, k);
    assert (a - lo) as real * k == a as real * k - lo as real * k;
    assert (hi - a) as real * k == hi as real * k - a as real * k;
  }

  lemma NonNegProduct(u: real, v: real)
    requires u >= 0.0 && v >= 0.0
    ensures u * v >= 0.0
  {
  }

  /** For a non-negative size every glyph segment stays inside the cell
      [x + 0.2 size, x + 0.6 size] x [baseline - 0.9 size, baseline - 0.3 size]. */
  lemma {:induction false} GlyphInsideCell(config: seq<string>, x: real, baseline: real, size: real)
    requires size >= 0.0
    ensures forall m :: m in LetterSegments(config, x, baseline, size) ==>
      && m.Segment?
      && x + 0.2 * size <= m.x1 <= x + 0.6 * size && x + 0.2 * size <= m.x2 <= x + 0.6 * size
      && baseline - 0.9 * size <= m.y1 <= baseline - 0.3 * size
      && baseline - 0.9 * size <= m.y2 <= baseline - 0.3 * size
  {
    if config != [] {
      GlyphInsideCell(config[..|config| - 1], x, baseline, size);
      var key := config[|config| - 1];
      if IsKnownLine(key) {
        var l := LinesMap[key];
        VocabularyBounds(key);
        ScaledBetween(l.x1, 10, 30, size);
        ScaledBetween(l.x2, 10, 30, size);
        ScaledBetween(l.y1, 15, 45, size);
        ScaledBetween(l.y2, 15, 45, size);
      }
    }
  }

  /** The caption `draw_letter` adds, if any: upper-cased, anchored and
      sized by one of two fixed formulas. */
  function CaptionMarks(x: real, baseline: real, size: real, showLetters: bool, letterPosition: string, letterChar: string): (r: seq<Mark>)
    ensures |r| <= 1
    ensures r != [] <==> showLetters && letterChar != "" && (letterPosition == "below" || letterPosition == "inside")
    ensures forall m :: m in r ==> m.Caption? && m.text == Upper(letterChar)
  {
    if showLetters && letterChar != "" then
      if letterPosition == "below" then [Caption(x + size * 0.4, baseline - size * 1.2, size * 0.2, Upper(letterChar))]
      else if letterPosition == "inside" then [Caption(x + size * 0.2, baseline - size * 0.5, size * 0.4, Upper(letterChar))]
      else []
    else []
  }

  /** Where the caption sits relative to the glyph cell of `GlyphInsideCell`,
      for a positive size: 'below' is centred under the cell, beneath its
      lowest point, in a font of 0.2 size; 'inside' is on the cell's left
      edge, between its top and bottom, in a font of 0.4 size. */
  lemma CaptionPlacement(x: real, baseline: real, size: real, showLetters: bool, letterPosition: string, letterChar: string)
    requires size > 0.0
    ensures forall m :: m in CaptionMarks(x, baseline, size, showLetters, letterPosition, letterChar) ==>
      && (letterPosition == "below" ==>
            && 2.0 * m.x == (x + 0.2 * size) + (x + 0.6 * size)
            && m.y < baseline - 0.9 * size
            && m.fontSize == 0.2 * size)
      && (letterPosition == "inside" ==>
            && m.x == x + 0.2 * size
            && baseline - 0.9 * size < m.y < baseline - 0.3 * size
            && m.fontSize == 0.4 * size)
  {
  }

  /** A caption names the letter it annotates: lower-casing its text gives
      back the keymap key the letter was looked up under. */
  lemma CaptionNamesLetter(x: real, baseline: real, size: real, showLetters: bool, letterPosition: string, letter: char)
    ensures forall m :: m in CaptionMarks(x, baseline, size, showLetters, letterPosition, [letter]) ==>
      Lower(m.text) == [LowerChar(letter)]
  {
    LowerOfUpper([letter]);
  }

  /** Everything `draw_letter` paints for one letter. */
  function LetterMarks(config: seq<string>, x: real, baseline: real, size: real, showLetters: bool, letterPosition: string, letterChar: string): seq<Mark>
  {
    LetterSegments(config, x, baseline, size) + CaptionMarks(x, baseline, size, showLetters, letterPosition, letterChar)
  }
}
