# triangles-cypher: glyph geometry and line layout

triangles-cypher turns text into a "cypher" made of short line segments.
Each letter is looked up (lower-cased) in a keymap. The keymap maps the
letter to a list of primitive names from the fixed vocabulary `LINES_MAP`.
Each known primitive is scaled by `size / 50`, shifted to the cursor and
hung below the current baseline. The layout loop `draw_text` walks the
input lines:

- In both `SymbolicEncoder` classes it splits each line on single spaces
  and wraps before any word that does not fit.
- It advances the cursor by one letter box per drawn letter.
- It adds one more box after each word, unless words are trimmed.
- It moves down by one line height at the end of every line.

The stand-alone script `main.py` runs a simpler loop over the same
glyphs. It walks each line character by character, with:

- no word wrap and no splitting into words;
- no box added after a word, and no `trim_words`;
- no captions and no accent removal;
- fixed constants.

A space that is not in the keymap takes one box. "## Left out" lists
the remaining differences.

This project models the three copies of that engine in Dafny:

- the matplotlib class (`SymbolicEncoder.py`);
- the ReportLab class (`SymbolicEncoderReportLab.py`);
- the script (`main.py`).

It proves that each copy paints exactly what a functional layout
specification says it paints, and it proves properties of that
specification.

Structure:

- `Text`: the parts of Python's `str` that the engine uses. This covers
  ASCII `lower`/`upper`, `strip('\n')`, `split(" ")`, `" ".join`, slicing
  into chunks, and `endswith`.
- `Glyphs`: `LINES_MAP`, the marks and warnings, and what `draw_letter`
  emits for one letter (`LetterSegments`, `LineWarnings`, `CaptionMarks`).
- `Drawing`: the class `Trace`. It stands for a matplotlib axes or a
  ReportLab canvas together with the console. Its methods append a
  segment, a caption or a warning.
- `LineWrap`: the wrap engine of the two classes as a fold over the input.
  A `Pen` holds the cursor `(x_pos, baseline_y)`, the letters placed so far
  and the warnings printed so far. `Render` turns the placements into
  marks.
- `MatplotlibEncoder` and `ReportLabEncoder`: the two classes, as Dafny
  classes with imperative methods. Their loops carry invariants that tie
  the cursor variables and the trace to the fold. The nested loops of
  `draw_text` are split into one method per loop level:
  - `DrawNextLine` and `DrawLine` for the line loop;
  - `DrawLineWords` for the words of a line;
  - `DrawWordLetters` for the letters of a word;
  - `DrawLetter` and `DrawCaption` for `draw_letter`.
- `MainScript`: `main.py`. It has its own fold (`PlaceChars`/`PlaceLines`)
  with the fixed constants of the script, the imperative `draw_letter` and
  `draw_text`, and `main` after argument parsing.
- `Agreement`: both classes, built from the same arguments, put the same
  marks on their page and print the same warnings.

Coordinates are exact rationals (`real`).

## Model

| member | source | states |
|---|---|---|
| Text.Lower | SymbolicEncoder.py:146 | defines `s.lower()`: each ASCII capital maps to its small letter, every other character is kept |
| Text.Upper | SymbolicEncoder.py:94 | defines `s.upper()`: each ASCII small letter maps to its capital, every other character is kept |
| Text.Join | SymbolicEncoder.py:138 | defines `" ".join(words)`, the partner of `split(" ")` in `JoinSplit` and `SplitJoin` |
| Text.EndsWith | main.py:147 | defines `s.endswith(suffix)`: the suffix is no longer than `s` and equals its last characters |
| Text.StripNewlines | SymbolicEncoder.py:130 | `strip('\n')` leaves no newline at either end, and its result is empty exactly when the line holds only newlines |
| Text.StripLeading | SymbolicEncoder.py:130 | the result is a suffix of the line, everything dropped is '\n', and the result does not start with '\n' |
| Text.StripTrailing | SymbolicEncoder.py:130 | the result is a prefix of the line, everything dropped is '\n', and the result does not end with '\n' |
| Text.Split | SymbolicEncoder.py:138 | `split(" ")` gives at least one piece, and no piece contains a space |
| Text.JoinSplit | SymbolicEncoder.py:138 | joining the pieces of a split with single spaces gives back the line |
| Text.SplitJoin | SymbolicEncoder.py:138 | splitting a space-join of space-free words gives back the words |
| Text.Chunks | SymbolicEncoderReportLab.py:176 | the slice comprehension gives no chunk for an empty string, chunks of 1..n characters, and all chunks but the last of exactly n |
| Text.ChunksConcat | SymbolicEncoderReportLab.py:176 | the chunks, concatenated, are the original string |
| Text.LowerOfUpper | SymbolicEncoder.py:94 | lower-casing the upper-cased caption text gives the lower-cased letter the keymap was searched with |
| Text.LowerSuffix | main.py:147 | lower-casing commutes with taking a suffix, so only the file name's last characters decide `endswith` |
| Glyphs.LinesMap | SymbolicEncoder.py:9-15 | defines `LINES_MAP`, the five primitives with their unscaled endpoints, the same in all three files |
| Glyphs.Scale | SymbolicEncoder.py:71 | defines `scale = size / 50` |
| Glyphs.Place | SymbolicEncoder.py:75-80 | defines one plotted segment: x ↦ x_offset + x·scale and y ↦ baseline_y − y·scale for both endpoints |
| Glyphs.IsKnownLine | SymbolicEncoder.py:74 | defines the test `line_key and line_key in LINES_MAP` |
| Glyphs.LetterSegments | SymbolicEncoder.py:73-85 | defines the segments of `draw_letter`: the entry's keys in order, each known key placed, the others skipped |
| Glyphs.LineWarnings | SymbolicEncoder.py:73-87 | defines the warnings of `draw_letter`: one per key that is empty or not in `LINES_MAP`, in order |
| Glyphs.LetterMarks | SymbolicEncoder.py:66-105 | defines everything `draw_letter` paints: its segments, then its caption if any |
| Glyphs.VocabularyInjective | SymbolicEncoder.py:9-15 | no two names of `LINES_MAP` denote the same primitive |
| Glyphs.PlacedEntriesDistinct | SymbolicEncoder.py:75-80 | two different `LINES_MAP` names drawn at the same position and a non-zero size give different segments |
| Glyphs.KnownLines | SymbolicEncoder.py:73-74 | the keys `draw_letter` draws are exactly the entry's keys that are non-empty and in `LINES_MAP` |
| Glyphs.SegmentsFollowKnownLines | SymbolicEncoder.py:73-85 | segment `i` is the `i`-th known key's `LINES_MAP` entry under x ↦ x_offset + x·size/50, y ↦ baseline_y − y·size/50 |
| Glyphs.EveryKeyDrawnOrWarned | SymbolicEncoder.py:73-87 | every key is drawn or warned about, never both: each warning names a key of the entry that is not drawn, and every key of the entry that is not drawn is warned about |
| Glyphs.LineWarningsAppend | SymbolicEncoder.py:73-87 | the warnings of a concatenation are the warnings of each part, in order |
| Glyphs.KnownLinesAppend | SymbolicEncoder.py:73-74 | the drawn keys of a concatenation are the drawn keys of each part, in order |
| Glyphs.VocabularyBounds | SymbolicEncoder.py:9-15 | every `LINES_MAP` entry lies within [10, 30] × [15, 45] |
| Glyphs.GlyphInsideCell | SymbolicEncoder.py:70-80 | for a non-negative size every segment of a letter lies in [x + 0.2·size, x + 0.6·size] × [baseline − 0.9·size, baseline − 0.3·size] |
| Glyphs.CaptionMarks | SymbolicEncoder.py:89-105 | there is at most one caption, exactly when captions are on, the letter is non-empty and the position is 'below' or 'inside'; its text is the upper-cased letter |
| Glyphs.CaptionPlacement | SymbolicEncoder.py:89-105 | for a positive size, a 'below' caption is centred under the glyph cell, beneath its lowest point, in a font of 0.2·size; an 'inside' caption is on the cell's left edge, between its top and bottom, in a font of 0.4·size |
| Glyphs.CaptionNamesLetter | SymbolicEncoder.py:91-94 | the caption's text, lower-cased, is the key the letter was looked up under |
| Drawing.Trace.constructor | SymbolicEncoder.py:172 | a fresh axes or canvas has no marks and no warnings |
| Drawing.Trace.Line | SymbolicEncoder.py:85 | `ax.plot` appends exactly that segment and prints nothing |
| Drawing.Trace.Label | SymbolicEncoder.py:91-97 | `ax.text` appends exactly that caption and prints nothing |
| Drawing.Trace.Warn | SymbolicEncoder.py:87 | a warning `print` appends exactly that warning and draws nothing |
| LineWrap.BoxWidth | SymbolicEncoder.py:119 | defines `letter_box_width = size * letter_spacing` |
| LineWrap.LineHeight | SymbolicEncoder.py:120-124 | defines `line_height`: size·line_spacing, plus size·0.3 when captions go below |
| LineWrap.RightLimit | SymbolicEncoder.py:113 | defines the right edge `SCREEN_WIDTH - MARGIN_RIGHT` |
| LineWrap.BoxEdge | SymbolicEncoder.py:112-113 | defines the x reached after k boxes of width w from x |
| LineWrap.Fits | SymbolicEncoder.py:107-113 | defines `check_fit`: x_pos + len(word)·W is at most the right edge |
| LineWrap.KeyOf | SymbolicEncoder.py:146 | defines the key `letter.lower()` a letter is looked up under |
| LineWrap.Start | SymbolicEncoder.py:126-127 | defines the cursor before the first line: x at MARGIN_LEFT, the baseline at INITIAL_BASELINE, nothing placed |
| LineWrap.Break | SymbolicEncoder.py:165-166 | defines a line break: baseline lowered by one line height, x back to MARGIN_LEFT |
| LineWrap.PlaceLetter | SymbolicEncoder.py:145-160 | defines one letter: a keymap hit is drawn at the cursor and advances it one box; a miss is only reported |
| LineWrap.PlaceLetters | SymbolicEncoder.py:145-160 | defines the letter loop of a word, letter by letter |
| LineWrap.WordStart | SymbolicEncoder.py:140-143 | defines the wrap test: the cursor if the word fits, else a break |
| LineWrap.PlaceWord | SymbolicEncoder.py:139-163 | defines one word: the wrap test, its letters, then one box unless words are trimmed |
| LineWrap.PlaceWords | SymbolicEncoder.py:139-163 | defines the word loop of a line, word by word |
| LineWrap.LineText | SymbolicEncoder.py:130-131 | defines the text of a line: `strip('\n')`, then `remove_accent` |
| LineWrap.PlaceLine | SymbolicEncoder.py:130-166 | defines one input line: a blank one is a bare break; otherwise its words split on " ", then a break |
| LineWrap.PlaceLines | SymbolicEncoder.py:129-166 | defines the line loop, line by line |
| LineWrap.Layout | SymbolicEncoder.py:115-166 | defines the whole of `draw_text`: the line loop from the start cursor |
| LineWrap.Render | SymbolicEncoder.py:145-156 | defines what the `draw_letter` calls of `draw_text` paint, placement by placement, in order |
| LineWrap.FitsIffEveryEdgeInside | SymbolicEncoder.py:107-113 | for a non-negative box width, a word fits if and only if every box edge of it is at or left of the limit (the bound is inclusive) |
| LineWrap.Hits | SymbolicEncoder.py:145-146 | there are no more hits than letters, and every hit's lower-case form is in the keymap |
| LineWrap.HitsMembers | SymbolicEncoder.py:145-146 | a character is a hit exactly when it occurs in the word and its lower-case form is in the keymap |
| LineWrap.HitsConcat | SymbolicEncoder.py:145-146 | the hits of a concatenation are the hits of each part, in order, so the hits keep the word's order |
| LineWrap.PlaceLettersEffect | SymbolicEncoder.py:145-160 | the letters of a word keep the baseline, the hits are drawn in order at consecutive box edges, and the cursor ends one box past the last hit |
| LineWrap.PlaceWordEffect | SymbolicEncoder.py:139-163 | a word that does not fit is preceded by one break, even at the start of a line; it is then drawn whole on one baseline, and the cursor adds a box unless words are trimmed |
| LineWrap.BlankLine | SymbolicEncoder.py:130-136 | a line that is empty after stripping and `remove_accent` lowers the baseline by one line height, resets x to the margin, and places and reports nothing |
| LineWrap.PlaceWordsLowers | SymbolicEncoder.py:139-163 | for a non-negative line height the baseline never rises within a line, and nothing placed before is lost |
| LineWrap.LineEndsWithBreak | SymbolicEncoder.py:165-166 | every line ends at the margin, at least one line height below where it began |
| LineWrap.NoWrapWords | SymbolicEncoder.py:139-143 | words laid from the margin whose span fits never wrap: every placement keeps the starting baseline |
| LineWrap.FittingWordStaysOnBaseline | SymbolicEncoder.py:140-157 | a word that fits at the cursor stays on the cursor's baseline, after everything placed before |
| LineWrap.NoWrapWhenLineFits | SymbolicEncoder.py:138-166 | a line whose text fits between the margins is placed on one baseline, followed by only the end-of-line break |
| LineWrap.OrderedLines | SymbolicEncoder.py:129-166 | with a positive box width and line height, the lines keep placements in reading order and the cursor past the last one |
| LineWrap.LayoutInReadingOrder | SymbolicEncoder.py:129-166 | with a positive box width and line height, letters are placed top to bottom and left to right, never two at one spot |
| LineWrap.LongWordOwnLine | SymbolicEncoder.py:139-157 | a word of keymap letters that is too wide even from the margin gets a line of its own: a break before it, the word whole at the margin, a break after it |
| LineWrap.TwoLetterExample | SymbolicEncoder.py:138-157 | "ab" at size 50 with spacing 0.4 places 'a' at the margin and 'b' 20 units to its right, on the first baseline, and 'a' is the `center` segment at scale 1 |
| MatplotlibEncoder.AbcLines | SymbolicEncoder.py:210-211 | the legend is one line holding the 26 letters A..Z in order |
| MatplotlibEncoder.SymbolicEncoder.constructor | SymbolicEncoder.py:17-29 | the fields are the arguments, with the defaults 1200, 800, 10, 10, 750, and there are no axes yet |
| MatplotlibEncoder.SymbolicEncoder.DrawLetter | SymbolicEncoder.py:66-105 | `draw_letter` appends one placed segment per known key in entry order, then the caption if any, and prints one warning per other key |
| MatplotlibEncoder.SymbolicEncoder.DrawCaption | SymbolicEncoder.py:89-105 | the caption branch appends exactly `CaptionMarks` and prints nothing |
| MatplotlibEncoder.SymbolicEncoder.CheckFit | SymbolicEncoder.py:107-113 | for a non-negative box width, `check_fit` holds if and only if every box edge of the word is at or left of SCREEN_WIDTH − MARGIN_RIGHT |
| MatplotlibEncoder.SymbolicEncoder.DrawWordLetters | SymbolicEncoder.py:145-160 | the letter loop paints and prints what `PlaceLetters` renders, and leaves the cursor where `PlaceLetters` puts it |
| MatplotlibEncoder.SymbolicEncoder.DrawLineWords | SymbolicEncoder.py:139-163 | the word loop (a wrap check, the letters, then the inter-word advance) paints what `PlaceWords` renders and ends at its cursor |
| MatplotlibEncoder.SymbolicEncoder.DrawLine | SymbolicEncoder.py:130-166 | one pass of the line loop (strip, `remove_accent`, the blank-line `continue` or the words, then the break) paints what `PlaceLine` renders and ends at its cursor |
| MatplotlibEncoder.SymbolicEncoder.DrawNextLine | SymbolicEncoder.py:129-166 | after input line `i` the page shows the layout of lines 0..i |
| MatplotlibEncoder.SymbolicEncoder.DrawText | SymbolicEncoder.py:115-166 | `draw_text` appends to the axes exactly the rendering of `Layout` for these arguments, and prints exactly its warnings |
| MatplotlibEncoder.SymbolicEncoder.GenerateTextEncoded | SymbolicEncoder.py:168-185 | fresh axes that hold the layout of the input without captions |
| MatplotlibEncoder.SymbolicEncoder.GenerateTextSolution | SymbolicEncoder.py:187-204 | fresh axes that hold the layout of the input with captions below |
| MatplotlibEncoder.SymbolicEncoder.GenerateAbc | SymbolicEncoder.py:206-226 | fresh axes that hold the one-line alphabet with captions below |
| ReportLabEncoder.AbcLines | SymbolicEncoderReportLab.py:175-176 | the chunks concatenate to the alphabet, each has 1..5 letters, and all but the last have exactly 5 |
| ReportLabEncoder.AbcLinesAreFives | SymbolicEncoderReportLab.py:175-176 | the legend is the six lines "ABCDE", "FGHIJ", "KLMNO", "PQRST", "UVWXY", "Z" |
| ReportLabEncoder.SymbolicEncoder.constructor | SymbolicEncoderReportLab.py:17-26 | the fields are the arguments, with the defaults 612, 792, 40, 40, 700, and the page is US letter (612 × 792) |
| ReportLabEncoder.SymbolicEncoder.DrawLetter | SymbolicEncoderReportLab.py:61-93 | `draw_letter` appends one placed segment per known key in entry order, then the caption if any, and prints one warning per other key |
| ReportLabEncoder.SymbolicEncoder.DrawCaption | SymbolicEncoderReportLab.py:79-93 | the caption branch appends exactly `CaptionMarks` and prints nothing |
| ReportLabEncoder.SymbolicEncoder.CheckFit | SymbolicEncoderReportLab.py:95-97 | for a non-negative box width, `check_fit` holds if and only if every box edge of the word is at or left of SCREEN_WIDTH − MARGIN_RIGHT |
| ReportLabEncoder.SymbolicEncoder.DrawWordLetters | SymbolicEncoderReportLab.py:125-138 | the letter loop paints and prints what `PlaceLetters` renders, and leaves the cursor where `PlaceLetters` puts it |
| ReportLabEncoder.SymbolicEncoder.DrawLineWords | SymbolicEncoderReportLab.py:119-141 | the word loop paints what `PlaceWords` renders and ends at its cursor |
| ReportLabEncoder.SymbolicEncoder.DrawLine | SymbolicEncoderReportLab.py:110-144 | one pass of the line loop paints what `PlaceLine` renders and ends at its cursor |
| ReportLabEncoder.SymbolicEncoder.DrawNextLine | SymbolicEncoderReportLab.py:109-144 | after input line `i` the canvas shows the layout of lines 0..i |
| ReportLabEncoder.SymbolicEncoder.DrawText | SymbolicEncoderReportLab.py:99-144 | `draw_text` appends to the canvas exactly the rendering of `Layout` for these arguments, and prints exactly its warnings |
| ReportLabEncoder.SymbolicEncoder.GenerateTextEncoded | SymbolicEncoderReportLab.py:146-158 | a fresh canvas that holds the layout of the input without captions |
| ReportLabEncoder.SymbolicEncoder.GenerateTextSolution | SymbolicEncoderReportLab.py:160-172 | a fresh canvas that holds the layout of the input with captions below |
| ReportLabEncoder.SymbolicEncoder.GenerateAbc | SymbolicEncoderReportLab.py:174-189 | a fresh canvas that holds the alphabet in lines of five with captions below |
| Agreement.SameDrawing | SymbolicEncoderReportLab.py:99-144 | for the same arguments the ReportLab canvas receives the same marks in the same order as the matplotlib axes, and the same warnings are printed |
| MainScript.BoxWidth | main.py:74 | defines `letter_box_width = size * 0.4` |
| MainScript.LineHeight | main.py:75 | defines `line_height = size * 0.6` |
| MainScript.Start | main.py:76-79 | defines the start cursor: x at 10, the baseline at 750, nothing placed |
| MainScript.Break | main.py:99-101 | defines the end of a line: baseline lowered by one line height, x back to 10 |
| MainScript.PlaceChar | main.py:90-97 | defines one character: a keymap hit is drawn and advances; a space not in the keymap only advances; any other miss is reported |
| MainScript.PlaceChars | main.py:90-97 | defines the character loop of a line |
| MainScript.PlaceLine | main.py:82-101 | defines one input line: `strip('\n')`; a blank line is a bare break, otherwise its characters, then a break |
| MainScript.PlaceLines | main.py:81-101 | defines the line loop, line by line |
| MainScript.MainLayout | main.py:69-101 | defines the whole of `draw_text(ax, keymap, input_content, size)` |
| MainScript.Segments | main.py:92 | defines what the `draw_letter` calls paint, placement by placement, in order |
| MainScript.IsSupportedOutput | main.py:147 | defines the test `lower().endswith(".pdf") or lower().endswith(".png")` |
| MainScript.Advances | main.py:90-95 | no more characters move the cursor than the line has |
| MainScript.PlaceCharsEffect | main.py:90-97 | the baseline stays, the cursor ends one box per hit or space further right, and the hits are drawn in order |
| MainScript.LineOnOneBaseline | main.py:90-97 | there is no wrap: every letter of an input line is on that line's baseline |
| MainScript.LineEnd | main.py:84-101 | every input line, blank or not, ends at x = 10, one line height (0.6·size) lower |
| MainScript.BaselineAfterLines | main.py:74-101 | after n lines from the start, the cursor is at x = 10 and the baseline has dropped n times by 0.6·size from 750 |
| MainScript.DropIsProduct | main.py:86-100 | lowering n times by h is lowering once by n·h |
| MainScript.LinesDrop | main.py:81-101 | from any cursor, n input lines return x to the margin and lower the baseline n times by one line height |
| MainScript.MainLayoutInReadingOrder | main.py:81-101 | for a positive size, letters are placed top to bottom and left to right, never two at one spot |
| MainScript.DrawLetter | main.py:45-66 | `draw_letter` appends one placed segment per known key in entry order, and prints one warning per other key |
| MainScript.DrawLineChars | main.py:90-97 | the character loop paints what `PlaceChars` renders, and leaves the cursor where it puts it |
| MainScript.DrawLine | main.py:82-101 | after input line `i` the page shows the layout of lines 0..i |
| MainScript.DrawText | main.py:69-101 | `draw_text` appends exactly the segments of `MainLayout`, and prints exactly its warnings |
| MainScript.SupportedOutputByExtension | main.py:147 | the file is saved if and only if its last four characters, lower-cased, are ".pdf" or ".png" |
| MainScript.RunMain | main.py:117-151 | a keymap that cannot be loaded ends the script before reading the input, and input that cannot be read ends it before drawing; otherwise it draws `MainLayout` and saves exactly for a supported extension |

## Left out

- `load_keymap` and `read_file_content` are file I/O and JSON parsing. The
  keymap and the list of lines are parameters; `RunMain` takes an option
  for each and gets `None` when the Python function raised.
- `remove_accent` is Unicode NFKD followed by dropping combining marks. It
  is a parameter `string -> string` of each encoder, and the model does
  not describe it.
- `lower()` and `upper()` are modelled for ASCII letters only. Other
  characters are left unchanged.
- Floating point is replaced by exact rationals. `size` is `real` in the
  classes. In `main.py` it is an `int` converted to `real`.
- The backends keep only what the encoders ask of them, in order: segments
  and captions. The following have no effect on them in the model:
  - line width, colour, font names and `ha='center'`;
  - `set_xlim`, `set_ylim` and `axis('off')`;
  - `setLineWidth`;
  - `plt.subplots(figsize=...)`.
  The text of the console messages is reduced to which key or letter was
  unknown. The "loaded" and "read" messages are not modelled.
- Saving is not modelled: `save_output`, `savefig`, `showPage`/`save` and
  their success messages. In `main.py`, only the decision whether to save
  is kept (`RunMain`'s `saved`). An exception raised while saving is not
  modelled.
- Argument parsing in `main.py` and the whole of `main_reportlab.py` are
  not part of this model. That file only parses arguments and names output
  files.
- `dotted_guidelines` is accepted and ignored, as in the source, where the
  line that would use it is commented out.
- `MatplotlibEncoder.SymbolicEncoder.DrawText` requires `ax != null`. In
  Python, calling `draw_text` before a `generate_*` method has created the
  axes raises an `AttributeError` on `None`. That raise is not modelled;
  every `generate_*` method creates the axes first.
- `MatplotlibEncoder.SymbolicEncoder.CheckFit` states its meaning only for
  a non-negative letter box width. For a negative width the function
  computes the same comparison as the source, but the contract says
  nothing about it.
- `ReportLabEncoder.SymbolicEncoder.CheckFit` is stated the same way, for
  the same reason.
- `Text.Chunks` does not state the number of chunks as a formula. Its
  contract, together with `ChunksConcat`, determines the chunks uniquely.
- Where the code behaves differently from what a reader might expect, the
  model follows the code:
  - `strip('\n')` removes newlines at both ends of a line, not only
    trailing ones.
  - The inter-word advance is suppressed only by `trim_words`, never by
    caption mode.
  - `main.py` applies no accent removal.
  - In `main.py` a space is checked against the keymap before the space
    rule, so a space that is in the keymap is drawn like any other letter.
