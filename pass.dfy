/**
 * `GCodeChange.Change` as the source writes it: a loop over the lines that writes
 * each line, the `M900` value after an object start and, once, the labels with
 * their nested loops over values, characters and glyph points, keeping
 * `digitsWrited`, `waitNoInfillLayer`, `retracted`, `old_x` and `old_y` in local
 * variables. Every method is proved to write the texts of the pieces that the
 * functions of `Rewrite` build.
 */
module ChangePass {
  import opened Wrappers
  import opened Python
  import opened Text
  import opened Boxes
  import opened Settings
  import opened ExtruderModel
  import opened Analysis
  import opened Rewrite

  /**
   * The extruder helper's settings once `Change` has copied the analyser's nozzle,
   * firmware-retraction flag and retraction length and speed into it; its extrusion
   * width and layer height stay as they were.
   */
  function ChangedExtruder(e: ExtruderCfg, c: Config): (r: ExtruderCfg)
    ensures r.extrusionWidth == e.extrusionWidth && r.layerHeight == e.layerHeight
    ensures r.nozzleDiameter == c.nozzleDiameter && r.useFirmwareRetraction == c.useFirmwareRetraction
    ensures r.retractLength == c.retractLength && r.retractSpeed == c.retractSpeed
  {
    e.(nozzleDiameter := c.nozzleDiameter, useFirmwareRetraction := c.useFirmwareRetraction,
       retractLength := c.retractLength, retractSpeed := c.retractSpeed)
  }

  /** What `Change` reads from the analyser and the extruder helper. */
  function ChangeJob(steps: seq<int>, sizes: map<int, Box>, infillLayers: seq<string>, c: Config,
                     e: ExtruderCfg, host: Host): (j: Job)
    ensures j.steps == steps && j.sizes == sizes && j.infillLayers == infillLayers
    ensures j.travelSpeed == c.travelSpeed && j.perimeterSpeed == c.externalPerimeterSpeed
    ensures j.ext == ChangedExtruder(e, c) && j.host == host
  {
    Job(steps, sizes, infillLayers, c.travelSpeed, c.externalPerimeterSpeed, ChangedExtruder(e, c), host)
  }

  /** The texts `Change` writes for the lines of a file, and the exception that ends it. */
  function ChangeText(j: Job, lines: seq<string>): (seq<string>, Option<Exception>)
  {
    var r := ChangeUpTo(j, Labels(j), MarksOf(lines), |lines|);
    (Texts(j, r.0), r.2)
  }

  /**
   * Without an exception, `Change` writes the texts of `Layout`: each line, right after an
   * object start the `M900` of that object, and after the first object end past a layer
   * without infill the labels and `G92 E0`.
   */
  lemma ChangeTextLayout(j: Job, lines: seq<string>)
    ensures var t := ChangeText(j, lines);
            t.1.None? ==> t.0 == Texts(j, Layout(j, Labels(j), MarksOf(lines), |lines|))
  {
    ChangeLayout(j, Labels(j), MarksOf(lines), |lines|);
  }

  // ------------------------------------------------------------ one glyph

  /** The texts of one glyph point. */
  lemma StrokeTexts(j: Job, p: Pen, s: Stroke, ox: real, oy: real)
    ensures var x, y := ox + s.dx, oy + s.dy;
            Texts(j, StrokeStep(p, s, ox, oy).0)
              == if s.pen then (if p.retracted then [UnretractText(j.ext, j.host)] else []) + [DrawText(j, p.x, p.y, x, y)]
                 else (if p.retracted then [] else [RetractText(j.ext, j.host)]) + [TravelText(j, x, y) + "\n"]
  {
    var ps := StrokeStep(p, s, ox, oy).0;
    if |ps| == 1 {
      TextsOne(j, ps[0]);
    } else {
      TextsTwo(j, ps[0], ps[1]);
    }
  }

  /** `out` holds the texts of the first `n` points of a glyph, after which the pen is `pen`. */
  predicate GlyphDrawn(j: Job, p0: Pen, g: seq<Stroke>, ox: real, oy: real, n: nat, out: seq<string>, pen: Pen)
    requires n <= |g|
  {
    var r := StrokesUpTo(p0, g, ox, oy, n);
    out == Texts(j, r.0) && pen == r.1
  }

  /** Drawing point `n` after the first `n`. */
  lemma GlyphStep(j: Job, p0: Pen, g: seq<Stroke>, ox: real, oy: real, n: nat, out: seq<string>, pen: Pen,
                  step: seq<string>, next: Pen)
    requires n < |g| && GlyphDrawn(j, p0, g, ox, oy, n, out, pen)
    requires var b := StrokeStep(pen, g[n], ox, oy); step == Texts(j, b.0) && next == b.1
    ensures GlyphDrawn(j, p0, g, ox, oy, n + 1, out + step, next)
  {
    var a := StrokesUpTo(p0, g, ox, oy, n);
    var b := StrokeStep(a.1, g[n], ox, oy);
    assert StrokesUpTo(p0, g, ox, oy, n + 1) == (a.0 + b.0, b.1);
    TextsAppend(j, a.0, b.0);
  }

  /**
   * One point of a glyph whose cell starts at `(ox, oy)`, drawn from the pen at
   * `(oldX, oldY)`: pen down unretracts if need be and extrudes from the previous point,
   * pen up retracts if need be and travels; the pen ends on the point.
   */
  method DrawPoint(ext: Extruder, j: Job, coords: Stroke, ox: real, oy: real,
                   oldX: real, oldY: real, retracted0: bool)
    returns (step: seq<string>, retracted: bool)
    requires ext.Cfg() == j.ext
    ensures var b := StrokeStep(Pen(oldX, oldY, retracted0), coords, ox, oy);
            step == Texts(j, b.0) && Pen(ox + coords.dx, oy + coords.dy, retracted) == b.1
  {
    var pointX := ox + coords.dx;
    var pointY := oy + coords.dy;
    retracted := retracted0;
    step := [];
    if coords.pen {
      var lE := ext.CalcExtrusionOnLengthByCoords(j.host, oldX, oldY, pointX, pointY);
      if retracted {
        var u := ext.Unretract(j.host);
        step := [u];
        retracted := false;
      }
      var line := "G1 X" + j.host.fixed(pointX, 4) + " Y" + j.host.fixed(pointY, 4) + " E" + lE + " \n";
      assert line == DrawText(j, oldX, oldY, pointX, pointY);
      step := step + [line];
    } else {
      if !retracted {
        var t := ext.Retract(j.host);
        step := [t];
      }
      retracted := true;
      var line := "G1 X" + j.host.fixed(pointX, 5) + " Y" + j.host.fixed(pointY, 5)
                  + " F" + j.host.fixed(j.travelSpeed * 60.0, 0) + "\n";
      assert line == TravelText(j, pointX, pointY) + "\n";
      step := step + [line];
    }
    StrokeTexts(j, Pen(oldX, oldY, retracted0), coords, ox, oy);
  }

  /**
   * The `for coords in digit` loop: the points of a glyph whose cell starts at `(ox, oy)`,
   * entered with the pen at `(oldX0, oldY0)`.
   */
  method DrawGlyph(ext: Extruder, j: Job, g: seq<Stroke>, ox: real, oy: real,
                   oldX0: real, oldY0: real, retracted0: bool)
    returns (out: seq<string>, oldX: real, oldY: real, retracted: bool)
    requires ext.Cfg() == j.ext
    ensures var r := StrokesUpTo(Pen(oldX0, oldY0, retracted0), g, ox, oy, |g|);
            out == Texts(j, r.0) && Pen(oldX, oldY, retracted) == r.1
  {
    ghost var p0 := Pen(oldX0, oldY0, retracted0);
    out := [];
    oldX, oldY, retracted := oldX0, oldY0, retracted0;
    for i := 0 to |g|
      invariant GlyphDrawn(j, p0, g, ox, oy, i, out, Pen(oldX, oldY, retracted))
    {
      ghost var pen := Pen(oldX, oldY, retracted);
      var step;
      step, retracted := DrawPoint(ext, j, g[i], ox, oy, oldX, oldY, retracted);
      oldX, oldY := ox + g[i].dx, oy + g[i].dy;
      GlyphStep(j, p0, g, ox, oy, i, out, pen, step, Pen(oldX, oldY, retracted));
      out := out + step;
    }
  }

  // ------------------------------------------------------------ one label

  /** `out` holds the texts of `head` and of the first `n` characters of a label, which raised nothing. */
  predicate CharsDrawn(j: Job, head: seq<Piece>, c0: Cursor, text: string, sx: real, sy: real,
                       n: nat, out: seq<string>, cur: Cursor)
    requires n <= |text|
  {
    var r := CharsUpTo(c0, text, sx, sy, n);
    r.2.None? && out == Texts(j, head + r.0) && cur == r.1
  }

  /** Drawing character `n` after the first `n`: the label goes on, or ends on its exception. */
  lemma CharsStep(j: Job, head: seq<Piece>, c0: Cursor, text: string, sx: real, sy: real,
                  n: nat, out: seq<string>, cur: Cursor)
    requires n < |text| && CharsDrawn(j, head, c0, text, sx, sy, n, out, cur)
    ensures var b := CharStep(cur, text[n], sx, sy);
            var r := CharsUpTo(c0, text, sx, sy, n + 1);
            && (b.2.None? ==> CharsDrawn(j, head, c0, text, sx, sy, n + 1, out + Texts(j, b.0), b.1))
            && (b.2.Some? ==> out == Texts(j, head + r.0) && r.2 == b.2)
  {
    var a := CharsUpTo(c0, text, sx, sy, n);
    var b := CharStep(cur, text[n], sx, sy);
    assert CharsUpTo(c0, text, sx, sy, n + 1) == (a.0 + b.0, b.1, b.2);
    CharMissing(cur, text[n], sx, sy);
    TextsThree(j, head, a.0, b.0);
  }

  /**
   * Character `n` drawn after the first `n`, with the texts `drawn`, the cursor `next` and
   * the exception `e` of `CharStep`: the label goes on, or it is the whole label.
   */
  lemma CharsAfter(j: Job, head: seq<Piece>, c0: Cursor, text: string, sx: real, sy: real,
                   n: nat, out: seq<string>, cur: Cursor, drawn: seq<string>, next: Cursor, e: Option<Exception>)
    requires n < |text| && CharsDrawn(j, head, c0, text, sx, sy, n, out, cur)
    requires var b := CharStep(cur, text[n], sx, sy); drawn == Texts(j, b.0) && next == b.1 && e == b.2
    ensures e.None? ==> CharsDrawn(j, head, c0, text, sx, sy, n + 1, out + drawn, next)
    ensures e.Some? ==>
              var r := CharsUpTo(c0, text, sx, sy, |text|); out == Texts(j, head + r.0) && r.2 == e
  {
    CharsStep(j, head, c0, text, sx, sy, n, out, cur);
    if e.Some? {
      CharsStop(c0, text, sx, sy, n + 1, |text|);
    }
  }

  /** A character without a glyph draws nothing. */
  lemma CharMissing(c: Cursor, ch: char, sx: real, sy: real)
    ensures CharStep(c, ch, sx, sy).2.Some? ==> CharStep(c, ch, sx, sy).0 == []
  {
  }

  /** The texts of `head`, then `a`, then `b`. */
  lemma TextsThree(j: Job, head: seq<Piece>, a: seq<Piece>, b: seq<Piece>)
    ensures Texts(j, head + (a + b)) == Texts(j, head + a) + Texts(j, b)
    ensures b == [] ==> Texts(j, head + (a + b)) == Texts(j, head + a)
  {
    assert head + (a + b) == (head + a) + b;
    TextsAppend(j, head + a, b);
  }

  /** The texts of a drawn character: the feed rate, then its glyph. */
  lemma CharTexts(j: Job, c: Cursor, ch: char, sx: real, sy: real)
    requires Glyph(ch).Some?
    ensures var g := Glyph(ch).value;
            var s := StrokesUpTo(c.pen, g, sx + c.deltaX, sy, |g|);
            Texts(j, CharStep(c, ch, sx, sy).0) == [FeedText(j)] + Texts(j, s.0)
  {
    var g := Glyph(ch).value;
    var s := StrokesUpTo(c.pen, g, sx + c.deltaX, sy, |g|);
    TextsAppend(j, [Feed], s.0);
    TextsOne(j, Feed);
  }

  /** A glyph drawn from the cursor `c`, ending with the pen at `pen`, makes the whole character. */
  lemma CharDrawn(j: Job, c: Cursor, ch: char, sx: real, sy: real, drawn: seq<string>, pen: Pen)
    requires Glyph(ch).Some?
    requires var g := Glyph(ch).value;
             var s := StrokesUpTo(c.pen, g, sx + c.deltaX, sy, |g|);
             drawn == Texts(j, s.0) && pen == s.1
    ensures var b := CharStep(c, ch, sx, sy);
            [FeedText(j)] + drawn == Texts(j, b.0) && Cursor(pen, pen.x - sx) == b.1 && b.2.None?
  {
    CharTexts(j, c, ch, sx, sy);
  }

  /**
   * One character of a label that starts at `(sx, sy)`, `deltaX0` along it: its glyph
   * (KeyError when it has none, before anything is written), the feed rate, then the glyph's
   * points; `delta_x` becomes the offset of the last point from the label start.
   */
  method DrawChar(ext: Extruder, j: Job, ch: char, sx: real, sy: real,
                  oldX0: real, oldY0: real, retracted0: bool, deltaX0: real)
    returns (step: seq<string>, oldX: real, oldY: real, retracted: bool, deltaX: real, err: Option<Exception>)
    requires ext.Cfg() == j.ext
    ensures var b := CharStep(Cursor(Pen(oldX0, oldY0, retracted0), deltaX0), ch, sx, sy);
            step == Texts(j, b.0) && Cursor(Pen(oldX, oldY, retracted), deltaX) == b.1 && err == b.2
  {
    oldX, oldY, retracted, deltaX := oldX0, oldY0, retracted0, deltaX0;
    var digit := Glyph(ch);
    if digit.None? {
      return [], oldX, oldY, retracted, deltaX, Some(MissingGlyph(ch));
    }
    ghost var c := Cursor(Pen(oldX0, oldY0, retracted0), deltaX0);
    var feed := "G1 F" + j.host.fixed(j.perimeterSpeed * 60.0, 0) + "\n";
    assert feed == FeedText(j);
    var drawn;
    drawn, oldX, oldY, retracted := DrawGlyph(ext, j, digit.value, sx + deltaX, sy, oldX, oldY, retracted);
    step := [feed] + drawn;
    deltaX := oldX - sx;
    err := None;
    CharDrawn(j, c, ch, sx, sy, drawn, Pen(oldX, oldY, retracted));
  }

  /** The start of a label and all its characters make the whole label of the value. */
  lemma LabelEnds(j: Job, k: int, b: Box, sx: real, sy: real, text: string,
                  out: seq<string>, err: Option<Exception>)
    requires sx == b.minX + OffsetX && sy == b.minY + OffsetY && text == PaText(k)
    requires var r := CharsUpTo(Cursor(Pen(sx, sy, false), 0.0), text, sx, sy, |text|);
             out == Texts(j, [LabelStart(sx, sy), Unretract] + r.0) && r.2 == err
    ensures out == Texts(j, LabelPieces(k, b).0) && err == LabelPieces(k, b).1
  {
  }

  /** The move to the start of a label, then the unretract. */
  method StartLabel(ext: Extruder, j: Job, startX: real, startY: real) returns (out: seq<string>)
    requires ext.Cfg() == j.ext
    ensures out == Texts(j, [LabelStart(startX, startY), Unretract])
  {
    out := ["G1 X" + j.host.fixed(startX, 5) + " Y" + j.host.fixed(startY, 5)
            + " F" + j.host.fixed(j.travelSpeed * 60.0, 0) + "; number start point\n"];
    var u := ext.Unretract(j.host);
    out := out + [u];
    TextsTwo(j, LabelStart(startX, startY), Unretract);
  }

  /**
   * The `for c in str(step)` loop of a label that starts at `(sx, sy)`, after the texts
   * `out0` of the pieces `head`: for each character the feed rate and its glyph, until a
   * character without a glyph raises KeyError.
   */
  method DrawChars(ext: Extruder, j: Job, ghost head: seq<Piece>, text: string, sx: real, sy: real,
                   out0: seq<string>)
    returns (out: seq<string>, err: Option<Exception>)
    requires ext.Cfg() == j.ext && out0 == Texts(j, head)
    ensures var r := CharsUpTo(Cursor(Pen(sx, sy, false), 0.0), text, sx, sy, |text|);
            out == Texts(j, head + r.0) && err == r.2
  {
    out := out0;
    var oldX, oldY, retracted, deltaX := sx, sy, false, 0.0;
    ghost var c0 := Cursor(Pen(sx, sy, false), 0.0);
    assert head + [] == head;
    for i := 0 to |text|
      invariant CharsDrawn(j, head, c0, text, sx, sy, i, out, Cursor(Pen(oldX, oldY, retracted), deltaX))
    {
      ghost var cur := Cursor(Pen(oldX, oldY, retracted), deltaX);
      var drawn, e;
      drawn, oldX, oldY, retracted, deltaX, e := DrawChar(ext, j, text[i], sx, sy, oldX, oldY, retracted, deltaX);
      CharsAfter(j, head, c0, text, sx, sy, i, out, cur, drawn, Cursor(Pen(oldX, oldY, retracted), deltaX), e);
      if e.Some? {
        return out, e;
      }
      out := out + drawn;
    }
    err := None;
  }

  /**
   * One label of the `for idx, step in enumerate(GcA.steps)` loop: the move to its start,
   * an unretract, then for each character of `str(step)` the feed rate and its glyph.
   * A character without a glyph raises KeyError.
   */
  method DrawLabel(ext: Extruder, j: Job, step: int, size: Box) returns (out: seq<string>, err: Option<Exception>)
    requires ext.Cfg() == j.ext
    ensures var r := LabelPieces(step, size); out == Texts(j, r.0) && err == r.1
  {
    var startX := size.minX + OffsetX;
    var startY := size.minY + OffsetY;
    out := StartLabel(ext, j, startX, startY);
    var text := PaText(step);
    out, err := DrawChars(ext, j, [LabelStart(startX, startY), Unretract], text, startX, startY, out);
    LabelEnds(j, step, size, startX, startY, text, out, err);
  }

  /** `out` holds the texts of the labels of the first `n` values, which raised nothing. */
  predicate LabelsDrawn(j: Job, n: nat, out: seq<string>)
    requires n <= |j.steps|
  {
    var r := LabelsUpTo(j.steps, j.sizes, n);
    r.1.None? && out == Texts(j, r.0)
  }

  /** The label of value `n` after those of the first `n`: its box is missing, or it is drawn. */
  lemma LabelsStep(j: Job, n: nat, out: seq<string>)
    requires n < |j.steps| && LabelsDrawn(j, n, out)
    ensures var r := LabelsUpTo(j.steps, j.sizes, n + 1);
            && (n + 1 !in j.sizes ==> out == Texts(j, r.0) && r.1 == Some(MissingBox(n + 1)))
            && (n + 1 in j.sizes ==>
                  var b := LabelPieces(j.steps[n], j.sizes[n + 1]);
                  Texts(j, r.0) == out + Texts(j, b.0) && r.1 == b.1)
  {
    var a := LabelsUpTo(j.steps, j.sizes, n);
    if n + 1 in j.sizes {
      var b := LabelPieces(j.steps[n], j.sizes[n + 1]);
      assert LabelsUpTo(j.steps, j.sizes, n + 1) == (a.0 + b.0, b.1);
      TextsAppend(j, a.0, b.0);
    } else {
      assert LabelsUpTo(j.steps, j.sizes, n + 1) == (a.0, Some(MissingBox(n + 1)));
    }
  }

  /**
   * The labels of the first `n` values, stopped there on an exception or at the last
   * value, are all the labels.
   */
  lemma LabelsEnd(j: Job, n: nat, out: seq<string>, err: Option<Exception>)
    requires n <= |j.steps| && (err.None? ==> n == |j.steps|)
    requires out == Texts(j, LabelsUpTo(j.steps, j.sizes, n).0) && err == LabelsUpTo(j.steps, j.sizes, n).1
    ensures out == Texts(j, Labels(j).0) && err == Labels(j).1
  {
    if err.Some? {
      LabelsStop(j.steps, j.sizes, n, |j.steps|);
    }
  }

  /** The labels of every value; value `idx` goes next to box `idx + 1`, which may be missing. */
  method DrawLabels(ext: Extruder, j: Job) returns (out: seq<string>, err: Option<Exception>)
    requires ext.Cfg() == j.ext
    ensures out == Texts(j, Labels(j).0) && err == Labels(j).1
  {
    out := [];
    for idx := 0 to |j.steps|
      invariant LabelsDrawn(j, idx, out)
    {
      LabelsStep(j, idx, out);
      var box := idx + 1;
      if box !in j.sizes {
        LabelsEnd(j, idx + 1, out, Some(MissingBox(box)));
        return out, Some(MissingBox(box));
      }
      var drawn, e := DrawLabel(ext, j, j.steps[idx], j.sizes[box]);
      out := out + drawn;
      if e.Some? {
        LabelsEnd(j, idx + 1, out, e);
        return out, e;
      }
    }
    err := None;
    LabelsEnd(j, |j.steps|, out, err);
  }

  // ------------------------------------------------------------ the file

  /**
   * The copy of one line, and after an object start `M900 K` and `steps[id - 1]`;
   * IndexError when the line has no number or the index is out of range.
   */
  method CopyLine(j: Job, line: string) returns (step: seq<string>, err: Option<Exception>)
    ensures var a := CopyPieces(j, Mark(line)); step == Texts(j, a.0) && err == a.1
  {
    TextsOne(j, Echo(line));
    step := [line];
    err := None;
    if Contains(line, ObjectStart) {
      var instance := FirstNumber(line);
      if instance.None? {
        return step, Some(IndexError);
      }
      var value := PyIndex(j.steps, instance.value as int - 1);
      if value.None? {
        return step, Some(IndexError);
      }
      TextsTwo(j, Echo(line), SetPA(value.value));
      step := step + [SetPAText(value.value)];
    }
  }

  /**
   * The label stage of one line: a layer line of a layer without infill ends the wait;
   * after it, the first object end draws the labels and writes `G92 E0`.
   */
  method WriteLabels(ext: Extruder, j: Job, line: string, waiting0: bool, written0: bool)
    returns (step: seq<string>, waiting: bool, written: bool, err: Option<Exception>)
    requires ext.Cfg() == j.ext
    ensures var b := LabelStage(j, Labels(j), Progress(waiting0, written0), Mark(line));
            step == Texts(j, b.0) && Progress(waiting, written) == b.1 && err == b.2
  {
    waiting, written := waiting0, written0;
    step := [];
    err := None;
    if StartsWith(line, LayerMark) && line !in j.infillLayers {
      waiting := false;
    }
    if !waiting && Contains(line, ObjectEnd) && !written {
      var drawn, e := DrawLabels(ext, j);
      if e.Some? {
        return drawn, waiting, written, e;
      }
      written := true;
      TextsAppend(j, Labels(j).0, [ResetE]);
      TextsOne(j, ResetE);
      step := drawn + [ResetEText];
    }
  }

  /** The body of the `for line in file` loop for one line. */
  method ChangeLine(ext: Extruder, j: Job, line: string, waiting0: bool, written0: bool)
    returns (step: seq<string>, waiting: bool, written: bool, err: Option<Exception>)
    requires ext.Cfg() == j.ext
    ensures var b := LineStep(j, Labels(j), Progress(waiting0, written0), Mark(line));
            step == Texts(j, b.0) && Progress(waiting, written) == b.1 && err == b.2
  {
    waiting, written := waiting0, written0;
    step, err := CopyLine(j, line);
    if err.Some? {
      return;
    }
    var more;
    more, waiting, written, err := WriteLabels(ext, j, line, waiting, written);
    TextsAppend(j, CopyPieces(j, Mark(line)).0,
                LabelStage(j, Labels(j), Progress(waiting0, written0), Mark(line)).0);
    step := step + more;
  }

  /** `out` holds the texts of the rewrite of the first `n` lines, which raised nothing. */
  predicate ChangedUpTo(j: Job, ms: seq<Marks>, n: nat, out: seq<string>, p: Progress)
    requires n <= |ms|
  {
    var r := ChangeUpTo(j, Labels(j), ms, n);
    r.2.None? && out == Texts(j, r.0) && r.1 == p
  }

  /** The rewrite of line `n` after the first `n`. */
  lemma ChangeStep(j: Job, ms: seq<Marks>, n: nat, out: seq<string>, p: Progress)
    requires n < |ms| && ChangedUpTo(j, ms, n, out, p)
    ensures var b := LineStep(j, Labels(j), p, ms[n]);
            var r := ChangeUpTo(j, Labels(j), ms, n + 1);
            && (b.2.None? ==> ChangedUpTo(j, ms, n + 1, out + Texts(j, b.0), b.1))
            && (b.2.Some? ==> out + Texts(j, b.0) == Texts(j, r.0) && r.2 == b.2)
  {
    var a := ChangeUpTo(j, Labels(j), ms, n);
    var b := LineStep(j, Labels(j), p, ms[n]);
    assert ChangeUpTo(j, Labels(j), ms, n + 1) == (a.0 + b.0, b.1, b.2);
    TextsAppend(j, a.0, b.0);
  }

  /** The rewrite stopped after `n` lines, on an exception or at the last line, is the whole rewrite. */
  lemma ChangeEnds(j: Job, lines: seq<string>, n: nat, out: seq<string>, err: Option<Exception>)
    requires n <= |lines| && (err.None? ==> n == |lines|)
    requires var r := ChangeUpTo(j, Labels(j), MarksOf(lines), n);
             out == Texts(j, r.0) && err == r.2
    ensures (out, err) == ChangeText(j, lines)
  {
    if err.Some? {
      ChangeStop(j, Labels(j), MarksOf(lines), n, |lines|);
    }
  }

  /** The first lines of `Change`: the analyser's nozzle, retraction flag, length and speed go into the extruder helper. */
  method SetExtruder(ext: Extruder, c: Config)
    modifies ext
    ensures ext.Cfg() == ChangedExtruder(old(ext.Cfg()), c)
  {
    ext.nozzleDiameter := c.nozzleDiameter;
    ext.useFirmwareRetraction := c.useFirmwareRetraction;
    ext.retractLength := c.retractLength;
    ext.retractSpeed := c.retractSpeed;
  }

  /**
   * `Change(GcA, Extruder)` over the lines of the input file: the analyser's nozzle,
   * retraction flag, length and speed go into the extruder helper; each line is written;
   * after an object start `M900 K` and `steps[id - 1]` (IndexError when the line has no
   * number or the index is out of range); after the first layer line without infill, the
   * first object end draws the labels and writes `G92 E0`.
   */
  method Change(gca: GCodeAnalyze, ext: Extruder, lines: seq<string>, host: Host)
    returns (out: seq<string>, err: Option<Exception>)
    modifies ext
    ensures ext.Cfg() == ChangedExtruder(old(ext.Cfg()), gca.config)
    ensures var j := ChangeJob(gca.steps, gca.sizes, gca.infillLayers, gca.config, old(ext.Cfg()), host);
            (out, err) == ChangeText(j, lines)
  {
    var e0 := ext.Cfg();
    SetExtruder(ext, gca.config);
    var j := ChangeJob(gca.steps, gca.sizes, gca.infillLayers, gca.config, e0, host);
    ghost var ms := MarksOf(lines);
    var digitsWrited := false;
    var waitNoInfillLayer := true;
    out := [];
    for i := 0 to |lines|
      invariant ext.Cfg() == j.ext
      invariant ChangedUpTo(j, ms, i, out, Progress(waitNoInfillLayer, digitsWrited))
    {
      MarkAt(lines, i);
      ChangeStep(j, ms, i, out, Progress(waitNoInfillLayer, digitsWrited));
      var step, e;
      step, waitNoInfillLayer, digitsWrited, e := ChangeLine(ext, j, lines[i], waitNoInfillLayer, digitsWrited);
      out := out + step;
      if e.Some? {
        ChangeEnds(j, lines, i + 1, out, e);
        return out, e;
      }
    }
    err := None;
    ChangeEnds(j, lines, |lines|, out, err);
  }
}
