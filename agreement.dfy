/** The two `SymbolicEncoder` classes share their layout: built with the same
    keymap, size and page geometry, the ReportLab canvas receives exactly
    the segments and captions the matplotlib axes receive, in the same
    order, and the console the same warnings. */
module Agreement {
  import opened Glyphs
  import opened Drawing
  import M = MatplotlibEncoder
  import R = ReportLabEncoder

  method SameDrawing(keymap: Keymap, size: real, normalize: string -> string,
                     screenWidth: real, screenHeight: real, marginLeft: real, marginRight: real,
                     initialBaseline: real, content: seq<string>, letterSpacing: real, lineSpacing: real,
                     showLetters: bool, letterPosition: string, trimWords: bool)
    returns (axesMarks: seq<Mark>, canvasMarks: seq<Mark>, axesWarnings: seq<Warning>, canvasWarnings: seq<Warning>)
    ensures axesMarks == canvasMarks && axesWarnings == canvasWarnings
  {
    var plot := new M.SymbolicEncoder(keymap, size, normalize, screenWidth, screenHeight,
                                      marginLeft, marginRight, initialBaseline);
    plot.ax := new Trace();
    plot.DrawText(content, letterSpacing := letterSpacing, lineSpacing := lineSpacing,
                  showLetters := showLetters, letterPosition := letterPosition, trimWords := trimWords);
    var pdf := new R.SymbolicEncoder(keymap, size, normalize, screenWidth, screenHeight,
                                     marginLeft, marginRight, initialBaseline);
    var c := new Trace();
    pdf.DrawText(c, content, letterSpacing := letterSpacing, lineSpacing := lineSpacing,
                 showLetters := showLetters, letterPosition := letterPosition, trimWords := trimWords);
    axesMarks, canvasMarks := plot.ax.marks, c.marks;
    axesWarnings, canvasWarnings := plot.ax.warnings, c.warnings;
  }
}
