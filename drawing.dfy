/** The drawing backends (matplotlib axes, ReportLab canvas) and the console,
    reduced to what the encoders do with them: append marks and warnings. */
module Drawing {
  import opened Glyphs

  /** A page being drawn: every segment and caption the encoder has asked
      the backend for, in order, and every warning it has printed. */
  class Trace {
    var marks: seq<Mark>
    var warnings: seq<Warning>

    constructor ()
      ensures marks == [] && warnings == []
    {
      marks := [];
      warnings := [];
    }

    /** `ax.plot([x1, x2], [y1, y2], ...)` or `c.line(x1, y1, x2, y2)`. */
    method Line(x1: real, y1: real, x2: real, y2: real)
      modifies this
      ensures marks == old(marks) + [Segment(x1, y1, x2, y2)]
      ensures warnings == old(warnings)
    {
      marks := marks + [Segment(x1, y1, x2, y2)];
    }

    /** `ax.text(x, y, text, fontsize=..., ha='center')` or
        `c.setFont(..., fontSize)` followed by `c.drawCentredString(x, y, text)`. */
    method Label(x: real, y: real, fontSize: real, text: string)
      modifies this
      ensures marks == old(marks) + [Caption(x, y, fontSize, text)]
      ensures warnings == old(warnings)
    {
      marks := marks + [Caption(x, y, fontSize, text)];
    }

    /** A `print` of a warning. */
    method Warn(w: Warning)
      modifies this
      ensures warnings == old(warnings) + [w]
      ensures marks == old(marks)
    {
      warnings := warnings + [w];
    }
  }
}
