/**
 * The rewrite pass (`GCodeChange.Change`): it copies the G-code line by line,
 * writes the pressure-advance value of an object after each line that starts
 * the object, and at the first object end on a layer without infill draws every
 * value as a number next to its object's box.
 *
 * The output is the sequence of texts handed to `tmp.write`. The functions
 * below build it as `Piece`s, which `Render` turns into text, and the lemmas
 * state what the rewritten file holds. The methods of module `ChangePass` write
 * the text directly, as the source does, and are proved to write the rendered
 * pieces.
 */
module Rewrite {
  import opened Wrappers
  import opened Python
  import opened Text
  import opened Boxes
  import opened Settings
  import opened ExtruderModel
  import opened Analysis
  import opened PaSteps

  // ------------------------------------------------------------------ glyphs

  /** The cell of a glyph: `x0`, `xmax`, `y0`, `ymax`. */
  const X0: real := 0.0
  const XMax: real := 2.5
  const Y0: real := 0.0
  const YMax: real := 5.0

  /** A label starts `offset_x` right of and `offset_y` behind the front-left corner of its box. */
  const OffsetX: real := 3.2
  const OffsetY: real := 5.0

  /** One entry `[x, y, pen]` of a glyph: a move to `(x, y)` in the cell, extruding when `pen`. */
  datatype Stroke = Stroke(dx: real, dy: real, pen: bool)

  function Up(x: real, y: real): Stroke
  {
    Stroke(x, y, false)
  }

  function Down(x: real, y: real): Stroke
  {
    Stroke(x, y, true)
  }

  /** The strokes of `.` and `,`: a small square on the base line. */
  function Dot(): seq<Stroke>
  {
    var x := XMax / 2.0;
    [Up(x - 0.3, Y0), Down(x - 0.3, Y0 + 0.3), Down(x, Y0 + 0.3), Down(x, Y0), Up(XMax + 0.8, Y0)]
  }

  /** The move, pen up, that ends a digit at the start of the next cell. */
  const Next: Stroke := Up(XMax + 1.0, Y0)

  const Half: real := YMax / 2.0

  /** The `digits` table. */
  const Digits: map<char, seq<Stroke>> := map[
    '0' := [Down(X0, YMax), Down(XMax, YMax), Down(XMax, Y0), Down(X0, Y0), Next],
    '1' := [Up(XMax * 0.4, Y0), Down(XMax * 0.4, YMax), Next],
    '2' := [Up(XMax, Y0), Down(X0, Y0), Down(X0, Half), Down(XMax, Half), Down(XMax, YMax), Down(X0, YMax), Next],
    '3' := [Down(XMax, Y0), Down(XMax, Half), Up(X0, Half), Down(XMax, Half), Down(XMax, YMax), Down(X0, YMax), Next],
    '4' := [Up(XMax, Y0), Down(XMax, YMax), Up(XMax, Half), Down(X0, Half), Down(X0, YMax), Next],
    '5' := [Down(XMax, Y0), Down(XMax, Half), Down(X0, Half), Down(X0, YMax), Down(XMax, YMax), Next],
    '6' := [Up(XMax, YMax), Down(X0, YMax), Down(X0, Y0), Down(XMax, Y0), Down(XMax, Half), Down(X0, Half), Next],
    '7' := [Up(XMax, Y0), Down(XMax, YMax), Down(X0, YMax), Next],
    '8' := [Down(X0, YMax), Down(XMax, YMax), Down(XMax, Y0), Down(X0, Y0), Up(X0, Half), Down(XMax, Half), Next],
    '9' := [Down(XMax, Y0), Down(XMax, YMax), Down(X0, YMax), Down(X0, Half), Down(XMax, Half), Next],
    '.' := Dot(),
    ',' := Dot()]

  /** `digits[c]`; None where it raises KeyError. */
  function Glyph(c: char): Option<seq<Stroke>>
  {
    if c in Digits then Some(Digits[c]) else None
  }

  /** A stroke that stays in the cell, or moves at most one unit past it to the next cell. */
  predicate InCell(s: Stroke)
  {
    0.0 <= s.dx <= XMax + 1.0 && Y0 <= s.dy <= YMax
  }

  /**
   * Exactly the digits, the point and the comma have glyphs; every glyph stays in
   * its cell and ends with a move, pen up, to the start of the next cell.
   */
  lemma GlyphShape(c: char)
    ensures Glyph(c).Some? <==> IsDigit(c) || c == '.' || c == ','
    ensures Glyph(c).Some? ==>
              var g := Glyph(c).value;
              && g != [] && !g[|g| - 1].pen
              && (forall i :: 0 <= i < |g| ==> InCell(g[i]))
  {
    if Glyph(c).Some? {
      var g := Glyph(c).value;
      assert forall i :: 0 <= i < |g| ==> InCell(g[i]);
    }
  }

  /** The text `str` writes for a value has a glyph for every character exactly when the value is not negative. */
  lemma PaTextGlyphs(k: int)
    ensures k >= 0 ==> forall i :: 0 <= i < |PaText(k)| ==> Glyph(PaText(k)[i]).Some?
    ensures k < 0 ==> PaText(k)[0] == '-' && Glyph(PaText(k)[0]).None?
  {
    var a: nat := if k < 0 then -k else k;
    var ip, fs := NatText(a / 1000), FracText(a % 1000);
    if k >= 0 {
      var t := PaText(k);
      assert t == ip + "." + fs;
      forall i | 0 <= i < |t| ensures Glyph(t[i]).Some? {
        GlyphShape(t[i]);
        if i < |ip| {
          assert t[i] == ip[i];
        } else if i > |ip| {
          assert t[i] == fs[i - |ip| - 1];
        }
      }
    }
  }

  // ------------------------------------------------------------------ pieces

  /** What one `tmp.write` writes, before it is formatted. */
  datatype Piece =
    | Echo(line: string)                               // the input line itself
    | SetPA(k: int)                                    // `M900 K<value>`
    | LabelStart(x: real, y: real)                     // the move to the first point of a label
    | Unretract
    | Retract
    | Feed                                             // the drawing feed rate, before each character
    | Draw(fromX: real, fromY: real, x: real, y: real) // an extruding glyph move
    | Travel(x: real, y: real)                         // a glyph move with the pen up
    | ResetE                                           // `G92 E0` after the labels

  /**
   * What `Change` reads: the analyser's values, boxes and infill layers, its travel and
   * perimeter speeds, the extruder helper's settings, and the number formatting.
   */
  datatype Job = Job(steps: seq<int>, sizes: map<int, Box>, infillLayers: seq<string>,
                     travelSpeed: real, perimeterSpeed: real, ext: ExtruderCfg, host: Host)

  function TravelText(j: Job, x: real, y: real): string
  {
    "G1 X" + j.host.fixed(x, 5) + " Y" + j.host.fixed(y, 5) + " F" + j.host.fixed(j.travelSpeed * 60.0, 0)
  }

  function DrawText(j: Job, fromX: real, fromY: real, x: real, y: real): string
  {
    "G1 X" + j.host.fixed(x, 4) + " Y" + j.host.fixed(y, 4)
      + " E" + ExtrusionText(j.ext, j.host, fromX, fromY, x, y) + " \n"
  }

  function FeedText(j: Job): string
  {
    "G1 F" + j.host.fixed(j.perimeterSpeed * 60.0, 0) + "\n"
  }

  function SetPAText(k: int): string
  {
    "M900 K" + PaText(k) + "\n"
  }

  const ResetEText := "G92 E0\n"

  /** The text of a piece. */
  function Render(j: Job, p: Piece): string
  {
    match p
    case Echo(line) => line
    case SetPA(k) => SetPAText(k)
    case LabelStart(x, y) => TravelText(j, x, y) + "; number start point\n"
    case Unretract => UnretractText(j.ext, j.host)
    case Retract => RetractText(j.ext, j.host)
    case Feed => FeedText(j)
    case Draw(fx, fy, x, y) => DrawText(j, fx, fy, x, y)
    case Travel(x, y) => TravelText(j, x, y) + "\n"
    case ResetE => ResetEText
  }

  function Texts(j: Job, ps: seq<Piece>): seq<string>
  {
    if ps == [] then [] else Texts(j, ps[..|ps| - 1]) + [Render(j, ps[|ps| - 1])]
  }

  lemma {:induction false} TextsAppend(j: Job, a: seq<Piece>, b: seq<Piece>)
    ensures Texts(j, a + b) == Texts(j, a) + Texts(j, b)
    decreases |b|
  {
    if b != [] {
      var c := b[..|b| - 1];
      assert (a + b)[..|a + b| - 1] == a + c;
      TextsAppend(j, a, c);
    } else {
      assert a + b == a;
    }
  }

  lemma TextsOne(j: Job, p: Piece)
    ensures Texts(j, [p]) == [Render(j, p)]
  {
    assert [p][..0] == [];
  }

  lemma TextsTwo(j: Job, p: Piece, q: Piece)
    ensures Texts(j, [p, q]) == [Render(j, p), Render(j, q)]
  {
    assert [p, q][..1] == [p];
    TextsOne(j, p);
  }

  // ------------------------------------------------------------ one glyph

  /** `old_x`, `old_y` and `retracted` while a label is drawn. */
  datatype Pen = Pen(x: real, y: real, retracted: bool)

  /**
   * One stroke of a glyph whose cell starts at `(ox, oy)`: pen down unretracts if need be and
   * extrudes from the previous point; pen up retracts if need be and travels.
   */
  function StrokeStep(p: Pen, s: Stroke, ox: real, oy: real): (seq<Piece>, Pen)
  {
    var x, y := ox + s.dx, oy + s.dy;
    if s.pen then ((if p.retracted then [Unretract] else []) + [Draw(p.x, p.y, x, y)], Pen(x, y, false))
    else ((if p.retracted then [] else [Retract]) + [Travel(x, y)], Pen(x, y, true))
  }

  /** The first `n` strokes of a glyph. */
  function StrokesUpTo(p: Pen, g: seq<Stroke>, ox: real, oy: real, n: nat): (seq<Piece>, Pen)
    requires n <= |g|
    decreases n
  {
    if n == 0 then ([], p)
    else
      var a := StrokesUpTo(p, g, ox, oy, n - 1);
      var b := StrokeStep(a.1, g[n - 1], ox, oy);
      (a.0 + b.0, b.1)
  }

  // -------------------------------------------------------- one label

  /** The pen and `delta_x`, the offset of the next character's cell from the label start. */
  datatype Cursor = Cursor(pen: Pen, deltaX: real)

  /** One character of a label that starts at `(sx, sy)`: the feed rate, then its glyph. */
  function CharStep(c: Cursor, ch: char, sx: real, sy: real): (seq<Piece>, Cursor, Option<Exception>)
  {
    match Glyph(ch)
    case None => ([], c, Some(MissingGlyph(ch)))
    case Some(g) =>
      var s := StrokesUpTo(c.pen, g, sx + c.deltaX, sy, |g|);
      ([Feed] + s.0, Cursor(s.1, s.1.x - sx), None)
  }

  /** The first `n` characters of a label; a character without a glyph ends it. */
  function CharsUpTo(c: Cursor, text: string, sx: real, sy: real, n: nat): (seq<Piece>, Cursor, Option<Exception>)
    requires n <= |text|
    decreases n
  {
    if n == 0 then ([], c, None)
    else
      var a := CharsUpTo(c, text, sx, sy, n - 1);
      if a.2.Some? then a
      else
        var b := CharStep(a.1, text[n - 1], sx, sy);
        (a.0 + b.0, b.1, b.2)
  }

  /** Where the label of a box starts. */
  function LabelOrigin(b: Box): (real, real)
  {
    (b.minX + OffsetX, b.minY + OffsetY)
  }

  /** The label of one value: the move to its start, an unretract, then the characters of `str(step)`. */
  function LabelPieces(k: int, b: Box): (seq<Piece>, Option<Exception>)
  {
    var (sx, sy) := LabelOrigin(b);
    var text := PaText(k);
    var r := CharsUpTo(Cursor(Pen(sx, sy, false), 0.0), text, sx, sy, |text|);
    ([LabelStart(sx, sy), Unretract] + r.0, r.2)
  }

  /** The labels of the first `n` values; value `idx` goes next to box `idx + 1`. */
  function LabelsUpTo(steps: seq<int>, sizes: map<int, Box>, n: nat): (seq<Piece>, Option<Exception>)
    requires n <= |steps|
    decreases n
  {
    if n == 0 then ([], None)
    else
      var a := LabelsUpTo(steps, sizes, n - 1);
      if a.1.Some? then a
      else if n !in sizes then (a.0, Some(MissingBox(n)))
      else
        var b := LabelPieces(steps[n - 1], sizes[n]);
        (a.0 + b.0, b.1)
  }

  /** An exception ends a glyph label: the later characters add nothing. */
  lemma {:induction false} CharsStop(c: Cursor, text: string, sx: real, sy: real, i: nat, n: nat)
    requires i <= n <= |text| && CharsUpTo(c, text, sx, sy, i).2.Some?
    ensures CharsUpTo(c, text, sx, sy, n) == CharsUpTo(c, text, sx, sy, i)
    decreases n
  {
    if n > i {
      CharsStop(c, text, sx, sy, i, n - 1);
    }
  }

  /** An exception ends the labels: the later values add nothing. */
  lemma {:induction false} LabelsStop(steps: seq<int>, sizes: map<int, Box>, i: nat, n: nat)
    requires i <= n <= |steps| && LabelsUpTo(steps, sizes, i).1.Some?
    ensures LabelsUpTo(steps, sizes, n) == LabelsUpTo(steps, sizes, i)
    decreases n
  {
    if n > i {
      LabelsStop(steps, sizes, i, n - 1);
    }
  }

  // -------------------------------------------------------- one line

  /** `waitNoInfillLayer` and `digitsWrited`. */
  datatype Progress = Progress(waiting: bool, written: bool)

  /**
   * What the loop body of `Change` tests on one line. Every test depends on the line
   * alone, so the line is read off once and the rewrite uses the results.
   */
  datatype Marks = Marks(
    text: string,
    starts: bool,          // `"EXCLUDE_OBJECT_START" in line`
    id: Option<nat>,       // the first run of digits of the line
    ends: bool,            // `"EXCLUDE_OBJECT_END" in line`
    layer: bool)           // `line.startswith(";Z:")`

  function Mark(line: string): (m: Marks)
    ensures m.text == line
  {
    Marks(line, Contains(line, ObjectStart), FirstNumber(line), Contains(line, ObjectEnd),
          StartsWith(line, LayerMark))
  }

  /** The lines of a file, read off one by one. */
  function MarksOf(lines: seq<string>): (r: seq<Marks>)
    ensures |r| == |lines|
    decreases |lines|
  {
    if lines == [] then [] else MarksOf(lines[..|lines| - 1]) + [Mark(lines[|lines| - 1])]
  }

  /** Line `i` read off. */
  lemma {:induction false} MarkAt(lines: seq<string>, i: nat)
    requires i < |lines|
    ensures MarksOf(lines)[i] == Mark(lines[i])
    decreases |lines|
  {
    if i < |lines| - 1 {
      MarkAt(lines[..|lines| - 1], i);
    }
  }

  /** A layer line of a layer that has no infill line. */
  predicate FreeLayer(j: Job, m: Marks)
  {
    m.layer && m.text !in j.infillLayers
  }

  /**
   * The copy of a line, and after an object start the value of that object:
   * `steps[id - 1]` for the first number on the line, with Python's negative indices.
   */
  function CopyPieces(j: Job, m: Marks): (seq<Piece>, Option<Exception>)
  {
    if !m.starts then ([Echo(m.text)], None)
    else match m.id
      case None => ([Echo(m.text)], Some(IndexError))
      case Some(id) =>
        match PyIndex(j.steps, id - 1)
        case None => ([Echo(m.text)], Some(IndexError))
        case Some(k) => ([Echo(m.text), SetPA(k)], None)
  }

  /** The labels of all values, as the loop over `enumerate(GcA.steps)` draws them. */
  function Labels(j: Job): (seq<Piece>, Option<Exception>)
  {
    LabelsUpTo(j.steps, j.sizes, |j.steps|)
  }

  /**
   * After the first free layer, the first object end draws the labels `labels`, then resets
   * the extruder position. The labels are the same whenever they are drawn, so they are
   * passed in once.
   */
  function LabelStage(j: Job, labels: (seq<Piece>, Option<Exception>), st: Progress, m: Marks)
    : (seq<Piece>, Progress, Option<Exception>)
  {
    var waiting := st.waiting && !FreeLayer(j, m);
    if !waiting && m.ends && !st.written then
      if labels.1.Some? then (labels.0, Progress(waiting, false), labels.1)
      else (labels.0 + [ResetE], Progress(waiting, true), None)
    else ([], Progress(waiting, st.written), None)
  }

  /** The body of the `for line in file` loop of `Change`. */
  function LineStep(j: Job, labels: (seq<Piece>, Option<Exception>), st: Progress, m: Marks)
    : (seq<Piece>, Progress, Option<Exception>)
  {
    var a := CopyPieces(j, m);
    if a.1.Some? then (a.0, st, a.1)
    else
      var b := LabelStage(j, labels, st, m);
      (a.0 + b.0, b.1, b.2)
  }

  const Start := Progress(true, false)

  /** The rewrite of the first `n` lines; the first exception ends it. */
  function ChangeUpTo(j: Job, labels: (seq<Piece>, Option<Exception>), ms: seq<Marks>, n: nat)
    : (seq<Piece>, Progress, Option<Exception>)
    requires n <= |ms|
    decreases n
  {
    if n == 0 then ([], Start, None)
    else
      var a := ChangeUpTo(j, labels, ms, n - 1);
      if a.2.Some? then a
      else
        var b := LineStep(j, labels, a.1, ms[n - 1]);
        (a.0 + b.0, b.1, b.2)
  }

  /** An exception ends the rewrite: the later lines are not copied. */
  lemma {:induction false} ChangeStop(j: Job, labels: (seq<Piece>, Option<Exception>), ms: seq<Marks>, i: nat, n: nat)
    requires i <= n <= |ms| && ChangeUpTo(j, labels, ms, i).2.Some?
    ensures ChangeUpTo(j, labels, ms, n) == ChangeUpTo(j, labels, ms, i)
    decreases n
  {
    if n > i {
      ChangeStop(j, labels, ms, i, n - 1);
    }
  }

  // ------------------------------------------------------------ retraction

  /**
   * How a piece of a label changes whether the filament is pulled back; None where the
   * piece breaks the rules: extruding moves run unretracted, pen-up moves and the move to
   * a label run retracted, and retracts and unretracts alternate.
   */
  function RetractStep(p: Piece, retracted: bool): Option<bool>
  {
    match p
    case Retract => if retracted then None else Some(true)
    case Unretract => if retracted then Some(false) else None
    case Draw(_, _, _, _) => if retracted then None else Some(false)
    case Travel(_, _) => if retracted then Some(true) else None
    case LabelStart(_, _) => if retracted then Some(true) else None
    case Feed => Some(retracted)
    case _ => None
  }

  /** Whether the pieces keep the rules from the given state on, and the state they end in. */
  function RetractWalk(ps: seq<Piece>, retracted: bool): Option<bool>
    decreases |ps|
  {
    if ps == [] then Some(retracted)
    else match RetractWalk(ps[..|ps| - 1], retracted)
      case None => None
      case Some(r) => RetractStep(ps[|ps| - 1], r)
  }

  lemma {:induction false} RetractWalkAppend(a: seq<Piece>, b: seq<Piece>, r: bool)
    ensures RetractWalk(a + b, r) == match RetractWalk(a, r) case None => None case Some(m) => RetractWalk(b, m)
    decreases |b|
  {
    if b == [] {
      assert a + b == a;
    } else {
      var c := b[..|b| - 1];
      assert (a + b)[..|a + b| - 1] == a + c;
      RetractWalkAppend(a, c, r);
    }
  }

  lemma RetractWalkOne(p: Piece, r: bool)
    ensures RetractWalk([p], r) == RetractStep(p, r)
  {
    assert [p][..0] == [];
  }

  lemma RetractWalkTwo(p: Piece, q: Piece, r: bool)
    ensures RetractWalk([p, q], r) == match RetractStep(p, r) case None => None case Some(m) => RetractStep(q, m)
  {
    assert [p, q][..1] == [p];
    RetractWalkOne(p, r);
  }

  /** One stroke keeps the rules and leaves the filament as its pen says. */
  lemma StrokeRetract(p: Pen, s: Stroke, ox: real, oy: real)
    ensures var r := StrokeStep(p, s, ox, oy);
            RetractWalk(r.0, p.retracted) == Some(r.1.retracted) && r.1.retracted == !s.pen
  {
    var r := StrokeStep(p, s, ox, oy);
    if s.pen {
      if p.retracted {
        RetractWalkTwo(Unretract, r.0[1], true);
      } else {
        RetractWalkOne(r.0[0], false);
      }
    } else {
      if p.retracted {
        RetractWalkOne(r.0[0], true);
      } else {
        RetractWalkTwo(Retract, r.0[1], false);
      }
    }
  }

  /** The strokes of a glyph keep the rules. */
  lemma {:induction false} StrokesRetract(p: Pen, g: seq<Stroke>, ox: real, oy: real, n: nat)
    requires n <= |g|
    ensures var r := StrokesUpTo(p, g, ox, oy, n);
            && RetractWalk(r.0, p.retracted) == Some(r.1.retracted)
            && (n > 0 ==> r.1.retracted == !g[n - 1].pen)
    decreases n
  {
    if n > 0 {
      var a := StrokesUpTo(p, g, ox, oy, n - 1);
      StrokesRetract(p, g, ox, oy, n - 1);
      StrokeRetract(a.1, g[n - 1], ox, oy);
      RetractWalkAppend(a.0, StrokeStep(a.1, g[n - 1], ox, oy).0, p.retracted);
    }
  }

  /** The first `n` characters of a label keep the rules; once one is drawn the filament is retracted. */
  predicate CharsKept(c: Cursor, text: string, sx: real, sy: real, n: nat)
    requires n <= |text|
  {
    var r := CharsUpTo(c, text, sx, sy, n);
    RetractWalk(r.0, c.pen.retracted) == Some(r.1.pen.retracted) && (n > 0 && r.2.None? ==> r.1.pen.retracted)
  }

  /** The characters of a label keep the rules; each one drawn leaves the filament retracted. */
  lemma {:induction false} CharsRetract(c: Cursor, text: string, sx: real, sy: real, n: nat)
    requires n <= |text|
    ensures CharsKept(c, text, sx, sy, n)
    decreases n
  {
    if n > 0 {
      var a := CharsUpTo(c, text, sx, sy, n - 1);
      CharsRetract(c, text, sx, sy, n - 1);
      if a.2.None? {
        var b := CharStep(a.1, text[n - 1], sx, sy);
        CharKept(c.pen.retracted, a, b, text[n - 1], sx, sy);
        assert CharsUpTo(c, text, sx, sy, n) == (a.0 + b.0, b.1, b.2);
      } else {
        assert CharsUpTo(c, text, sx, sy, n) == a;
      }
    }
  }

  /** The characters `a` drawn so far, followed by the next character `b`, keep the rules. */
  lemma CharKept(r0: bool, a: (seq<Piece>, Cursor, Option<Exception>), b: (seq<Piece>, Cursor, Option<Exception>),
                 ch: char, sx: real, sy: real)
    requires RetractWalk(a.0, r0) == Some(a.1.pen.retracted) && b == CharStep(a.1, ch, sx, sy)
    ensures RetractWalk(a.0 + b.0, r0) == Some(b.1.pen.retracted) && (b.2.None? ==> b.1.pen.retracted)
  {
    assert RetractWalk(b.0, a.1.pen.retracted) == Some(b.1.pen.retracted)
           && (b.2.None? ==> b.1.pen.retracted) by {
      CharRetract(a.1, ch, sx, sy);
    }
    RetractWalkAppend(a.0, b.0, r0);
  }

  /** One character keeps the rules; when it is drawn it leaves the filament retracted. */
  lemma CharRetract(c: Cursor, ch: char, sx: real, sy: real)
    ensures var b := CharStep(c, ch, sx, sy);
            && RetractWalk(b.0, c.pen.retracted) == Some(b.1.pen.retracted)
            && (b.2.None? ==> b.1.pen.retracted)
  {
    if Glyph(ch).Some? {
      var g := Glyph(ch).value;
      GlyphShape(ch);
      var s := StrokesUpTo(c.pen, g, sx + c.deltaX, sy, |g|);
      assert RetractWalk(s.0, c.pen.retracted) == Some(s.1.retracted) && s.1.retracted by {
        GlyphShape(ch);
        StrokesRetract(c.pen, g, sx + c.deltaX, sy, |g|);
      }
      assert RetractWalk([Feed] + s.0, c.pen.retracted) == RetractWalk(s.0, c.pen.retracted) by {
        RetractWalkAppend([Feed], s.0, c.pen.retracted);
        RetractWalkOne(Feed, c.pen.retracted);
      }
    }
  }

  /** A label whose first character has no glyph stops there. */
  lemma {:induction false} CharsFirstMissing(c: Cursor, text: string, sx: real, sy: real, n: nat)
    requires 1 <= n <= |text| && Glyph(text[0]).None?
    ensures CharsUpTo(c, text, sx, sy, n) == ([], c, Some(MissingGlyph(text[0])))
    decreases n
  {
    if n > 1 {
      CharsFirstMissing(c, text, sx, sy, n - 1);
    } else {
      assert CharsUpTo(c, text, sx, sy, 0) == ([], c, None);
      assert CharStep(c, text[0], sx, sy) == ([], c, Some(MissingGlyph(text[0])));
      var none: seq<Piece> := [];
      assert none + none == none;
    }
  }

  /** A label whose characters all have glyphs raises nothing. */
  lemma {:induction false} CharsAllGlyphs(c: Cursor, text: string, sx: real, sy: real, n: nat)
    requires n <= |text| && forall i :: 0 <= i < n ==> Glyph(text[i]).Some?
    ensures CharsUpTo(c, text, sx, sy, n).2.None?
    decreases n
  {
    if n > 0 {
      CharsAllGlyphs(c, text, sx, sy, n - 1);
    }
  }

  /**
   * A label, entered with the filament retracted, keeps the rules. A value that is not
   * negative is drawn whole and leaves the filament retracted; a negative one stops at
   * its minus sign, which has no glyph, right after the unretract.
   */
  lemma LabelRetract(k: int, b: Box)
    ensures var r := LabelPieces(k, b);
            && r.1 == (if k < 0 then Some(MissingGlyph('-')) else None)
            && RetractWalk(r.0, true) == Some(k >= 0)
  {
    var (sx, sy) := LabelOrigin(b);
    var text := PaText(k);
    var c := Cursor(Pen(sx, sy, false), 0.0);
    var chars := CharsUpTo(c, text, sx, sy, |text|);
    PaTextGlyphs(k);
    if k < 0 {
      CharsFirstMissing(c, text, sx, sy, |text|);
    } else {
      CharsAllGlyphs(c, text, sx, sy, |text|);
    }
    CharsRetract(c, text, sx, sy, |text|);
    RetractWalkTwo(LabelStart(sx, sy), Unretract, true);
    RetractWalkAppend([LabelStart(sx, sy), Unretract], chars.0, true);
  }

  /** Value `idx` has a box to go next to, and a text that has glyphs. */
  predicate Drawable(steps: seq<int>, sizes: map<int, Box>, idx: nat)
    requires idx < |steps|
  {
    idx + 1 in sizes && steps[idx] >= 0
  }

  /** All labels are drawn exactly when every value is drawable. */
  lemma {:induction false} LabelsErrors(steps: seq<int>, sizes: map<int, Box>, n: nat)
    requires n <= |steps|
    ensures LabelsUpTo(steps, sizes, n).1.None? <==> forall i :: 0 <= i < n ==> Drawable(steps, sizes, i)
    decreases n
  {
    if n > 0 {
      var a := LabelsUpTo(steps, sizes, n - 1);
      var r := LabelsUpTo(steps, sizes, n);
      LabelsErrors(steps, sizes, n - 1);
      assert r.1.None? <==> a.1.None? && Drawable(steps, sizes, n - 1) by {
        if a.1.None? && n in sizes {
          assert r.1 == LabelPieces(steps[n - 1], sizes[n]).1;
          LabelRetract(steps[n - 1], sizes[n]);
        }
      }
      if r.1.None? {
        forall i | 0 <= i < n ensures Drawable(steps, sizes, i) {
          if i < n - 1 {
            assert a.1.None?;
          }
        }
      } else if a.1.Some? {
        var i :| 0 <= i < n - 1 && !Drawable(steps, sizes, i);
      }
    }
  }

  /**
   * All labels, entered with the filament retracted, keep the rules; when they are all
   * drawn the filament is left retracted.
   */
  lemma {:induction false} LabelsRetract(steps: seq<int>, sizes: map<int, Box>, n: nat)
    requires n <= |steps|
    ensures var r := LabelsUpTo(steps, sizes, n);
            && RetractWalk(r.0, true).Some?
            && (r.1.None? ==> RetractWalk(r.0, true) == Some(true))
    decreases n
  {
    if n > 0 {
      var a := LabelsUpTo(steps, sizes, n - 1);
      LabelsRetract(steps, sizes, n - 1);
      if a.1.None? && n in sizes {
        var b := LabelPieces(steps[n - 1], sizes[n]);
        assert RetractWalk(b.0, true).Some? && (b.1.None? ==> RetractWalk(b.0, true) == Some(true)) by {
          LabelRetract(steps[n - 1], sizes[n]);
        }
        RetractWalkAppend(a.0, b.0, true);
      }
    }
  }

  // ------------------------------------------------------------ placement

  /** A point right of the label start and at most one glyph height behind it. */
  predicate InBand(x: real, y: real, sx: real, sy: real)
  {
    sx <= x && sy <= y <= sy + YMax
  }

  predicate PieceInBand(p: Piece, sx: real, sy: real)
  {
    match p
    case Draw(fx, fy, x, y) => InBand(fx, fy, sx, sy) && InBand(x, y, sx, sy)
    case Travel(x, y) => InBand(x, y, sx, sy)
    case LabelStart(x, y) => InBand(x, y, sx, sy)
    case _ => true
  }

  predicate AllInBand(ps: seq<Piece>, sx: real, sy: real)
  {
    forall i :: 0 <= i < |ps| ==> PieceInBand(ps[i], sx, sy)
  }

  lemma AllInBandAppend(a: seq<Piece>, b: seq<Piece>, sx: real, sy: real)
    requires AllInBand(a, sx, sy) && AllInBand(b, sx, sy)
    ensures AllInBand(a + b, sx, sy)
  {
    forall i | 0 <= i < |a + b| ensures PieceInBand((a + b)[i], sx, sy) {
      if i >= |a| {
        assert (a + b)[i] == b[i - |a|];
      }
    }
  }

  /** The strokes of a glyph whose cell lies in the band stay in the band. */
  lemma {:induction false} StrokesInBand(p: Pen, g: seq<Stroke>, ox: real, sx: real, sy: real, n: nat)
    requires n <= |g| && InBand(p.x, p.y, sx, sy) && sx <= ox
    requires forall i :: 0 <= i < |g| ==> InCell(g[i])
    ensures var r := StrokesUpTo(p, g, ox, sy, n);
            AllInBand(r.0, sx, sy) && InBand(r.1.x, r.1.y, sx, sy)
    decreases n
  {
    if n > 0 {
      var a := StrokesUpTo(p, g, ox, sy, n - 1);
      StrokesInBand(p, g, ox, sx, sy, n - 1);
      var b := StrokeStep(a.1, g[n - 1], ox, sy);
      assert InCell(g[n - 1]);
      assert AllInBand(b.0, sx, sy);
      AllInBandAppend(a.0, b.0, sx, sy);
    }
  }

  /** Each character's cell starts right of the label start, so the characters stay in the band. */
  lemma {:induction false} CharsInBand(c: Cursor, text: string, sx: real, sy: real, n: nat)
    requires n <= |text| && InBand(c.pen.x, c.pen.y, sx, sy) && c.deltaX >= 0.0
    ensures var r := CharsUpTo(c, text, sx, sy, n);
            AllInBand(r.0, sx, sy) && InBand(r.1.pen.x, r.1.pen.y, sx, sy) && r.1.deltaX >= 0.0
    decreases n
  {
    if n > 0 {
      var a := CharsUpTo(c, text, sx, sy, n - 1);
      CharsInBand(c, text, sx, sy, n - 1);
      var ch := text[n - 1];
      if a.2.None? {
        var b := CharStep(a.1, ch, sx, sy);
        assert AllInBand(b.0, sx, sy) && InBand(b.1.pen.x, b.1.pen.y, sx, sy) && b.1.deltaX >= 0.0 by {
          CharInBand(a.1, ch, sx, sy);
        }
        AllInBandAppend(a.0, b.0, sx, sy);
      }
    }
  }

  /** One character whose cell starts right of the label start stays in the band. */
  lemma CharInBand(c: Cursor, ch: char, sx: real, sy: real)
    requires InBand(c.pen.x, c.pen.y, sx, sy) && c.deltaX >= 0.0
    ensures var b := CharStep(c, ch, sx, sy);
            AllInBand(b.0, sx, sy) && InBand(b.1.pen.x, b.1.pen.y, sx, sy) && b.1.deltaX >= 0.0
  {
    if Glyph(ch).Some? {
      var g := Glyph(ch).value;
      GlyphShape(ch);
      var s := StrokesUpTo(c.pen, g, sx + c.deltaX, sy, |g|);
      StrokesInBand(c.pen, g, sx + c.deltaX, sx, sy, |g|);
      assert AllInBand([Feed], sx, sy);
      AllInBandAppend([Feed], s.0, sx, sy);
    }
  }

  /**
   * Every move of a label lies in the band that starts `offset_x` right of its box's left
   * edge and runs from `offset_y` to `offset_y + ymax` behind the box's front edge.
   */
  lemma LabelInBand(k: int, b: Box)
    ensures var (sx, sy) := LabelOrigin(b);
            && sx == b.minX + OffsetX && sy == b.minY + OffsetY
            && AllInBand(LabelPieces(k, b).0, sx, sy)
  {
    var (sx, sy) := LabelOrigin(b);
    var text := PaText(k);
    var c := Cursor(Pen(sx, sy, false), 0.0);
    CharsInBand(c, text, sx, sy, |text|);
    assert AllInBand([LabelStart(sx, sy), Unretract], sx, sy);
    AllInBandAppend([LabelStart(sx, sy), Unretract], CharsUpTo(c, text, sx, sy, |text|).0, sx, sy);
  }

  // ------------------------------------------------------------ the whole file

  /** The input lines copied, the values written with `M900`, and the `G92 E0` resets. */
  datatype Tally = Tally(echoes: seq<string>, values: seq<int>, resets: nat)

  const NoTally := Tally([], [], 0)

  function Add(a: Tally, b: Tally): Tally
  {
    Tally(a.echoes + b.echoes, a.values + b.values, a.resets + b.resets)
  }

  function TallyPiece(p: Piece): Tally
  {
    match p
    case Echo(line) => Tally([line], [], 0)
    case SetPA(k) => Tally([], [k], 0)
    case ResetE => Tally([], [], 1)
    case _ => NoTally
  }

  function TallyOf(ps: seq<Piece>): Tally
    decreases |ps|
  {
    if ps == [] then NoTally else Add(TallyOf(ps[..|ps| - 1]), TallyPiece(ps[|ps| - 1]))
  }

  lemma {:induction false} TallyAppend(a: seq<Piece>, b: seq<Piece>)
    ensures TallyOf(a + b) == Add(TallyOf(a), TallyOf(b))
    decreases |b|
  {
    if b == [] {
      assert a + b == a;
    } else {
      var c := b[..|b| - 1];
      assert (a + b)[..|a + b| - 1] == a + c;
      TallyAppend(a, c);
    }
  }

  /** Pieces that keep the retraction rules are label moves only: no copy, no value, no reset. */
  lemma {:induction false} WalkedTally(ps: seq<Piece>, r: bool)
    requires RetractWalk(ps, r).Some?
    ensures TallyOf(ps) == NoTally
    decreases |ps|
  {
    if ps != [] {
      var q := ps[..|ps| - 1];
      WalkedTally(q, r);
      var m := RetractWalk(q, r).value;
      assert TallyPiece(ps[|ps| - 1]) == NoTally by {
        StepTally(ps[|ps| - 1], m);
      }
      AddNoTally(NoTally);
    }
  }

  /** A piece with a retraction rule adds nothing to the tally. */
  lemma StepTally(p: Piece, r: bool)
    requires RetractStep(p, r).Some?
    ensures TallyPiece(p) == NoTally
  {
  }

  lemma AddNoTally(t: Tally)
    ensures Add(t, NoTally) == t
  {
    assert t.echoes + [] == t.echoes && t.values + [] == t.values;
  }

  /** The labels add nothing to the tally. */
  lemma LabelsTally(j: Job)
    ensures TallyOf(Labels(j).0) == NoTally
  {
    LabelsRetract(j.steps, j.sizes, |j.steps|);
    WalkedTally(Labels(j).0, true);
  }

  /** One line is copied once, followed by its object's value when it starts an object. */
  lemma LineCopies(j: Job, labels: (seq<Piece>, Option<Exception>), st: Progress, m: Marks)
    requires TallyOf(labels.0) == NoTally
    ensures var r := LineStep(j, labels, st, m);
            var t := TallyOf(r.0);
            t.echoes == [m.text] && t.values == StartValue(j, m)
  {
    var r := LineStep(j, labels, st, m);
    var a := CopyPieces(j, m);
    CopyTally(j, m);
    if a.1.None? {
      var b := LabelStage(j, labels, st, m);
      assert r.0 == a.0 + b.0 && r.2 == b.2;
      TallyAppend(a.0, b.0);
      StageTally(j, labels, st, m);
      assert TallyOf(r.0) == Add(TallyOf(a.0), Tally([], [], TallyOf(b.0).resets));
    } else {
      assert r.0 == a.0;
    }
  }

  /** The labels are written at most once, and only after the first free layer. */
  lemma LineProgress(j: Job, labels: (seq<Piece>, Option<Exception>), st: Progress, m: Marks)
    ensures var r := LineStep(j, labels, st, m);
            && (st.written ==> r.1.written)
            && ((st.written ==> !st.waiting) ==> (r.1.written ==> !r.1.waiting))
            && (r.2.None? ==> r.1.waiting == (st.waiting && !FreeLayer(j, m)))
  {
    if CopyPieces(j, m).1.None? {
      StageProgress(j, labels, st, m);
    }
  }

  /** A line writes the reset exactly when it first writes the labels. */
  lemma LineResets(j: Job, labels: (seq<Piece>, Option<Exception>), st: Progress, m: Marks)
    requires TallyOf(labels.0).resets == 0
    ensures var r := LineStep(j, labels, st, m);
            TallyOf(r.0).resets == (if r.1.written && !st.written then 1 else 0)
  {
    var r := LineStep(j, labels, st, m);
    var a := CopyPieces(j, m);
    CopyTally(j, m);
    if a.1.None? {
      var b := LabelStage(j, labels, st, m);
      assert r.0 == a.0 + b.0 && r.1 == b.1;
      TallyAppend(a.0, b.0);
      StageResets(j, labels, st, m);
    } else {
      assert r.0 == a.0 && r.1 == st;
    }
  }

  /** The label stage writes the reset exactly when it first writes the labels. */
  lemma StageResets(j: Job, labels: (seq<Piece>, Option<Exception>), st: Progress, m: Marks)
    requires TallyOf(labels.0).resets == 0
    ensures var b := LabelStage(j, labels, st, m);
            TallyOf(b.0).resets == if b.1.written && !st.written then 1 else 0
  {
    var b := LabelStage(j, labels, st, m);
    if b.1.written && !st.written {
      assert b.0 == labels.0 + [ResetE];
      ResetTally(labels.0);
    } else if b.2.Some? {
      assert b.0 == labels.0;
    } else {
      assert b.0 == [];
      EmptyTally();
    }
  }

  /** The label stage stops waiting at a free layer and writes the labels at most once. */
  lemma StageProgress(j: Job, labels: (seq<Piece>, Option<Exception>), st: Progress, m: Marks)
    ensures var b := LabelStage(j, labels, st, m);
            && (st.written ==> b.1.written)
            && ((st.written ==> !st.waiting) ==> (b.1.written ==> !b.1.waiting))
            && b.1.waiting == (st.waiting && !FreeLayer(j, m))
  {
  }

  /** The label stage writes the reset exactly when it first writes the labels. */
  lemma StageTally(j: Job, labels: (seq<Piece>, Option<Exception>), st: Progress, m: Marks)
    requires TallyOf(labels.0) == NoTally
    ensures var b := LabelStage(j, labels, st, m);
            TallyOf(b.0) == Tally([], [], if b.1.written && !st.written then 1 else 0)
  {
    var b := LabelStage(j, labels, st, m);
    if b.1.written && !st.written {
      assert b.0 == labels.0 + [ResetE];
      ResetTally(labels.0);
    } else if b.2.Some? {
      assert b.0 == labels.0;
    } else {
      assert b.0 == [];
      EmptyTally();
    }
  }

  lemma EmptyTally()
    ensures TallyOf([]) == NoTally
  {
  }

  /** A reset after some pieces adds one reset to their tally. */
  lemma ResetTally(ps: seq<Piece>)
    ensures TallyOf(ps + [ResetE]) == Add(TallyOf(ps), Tally([], [], 1))
  {
    assert (ps + [ResetE])[..|ps|] == ps;
  }

  /** The copy of a line holds the line, and after an object start that object's value. */
  lemma CopyTally(j: Job, m: Marks)
    ensures TallyOf(CopyPieces(j, m).0) == Tally([m.text], StartValue(j, m), 0)
  {
    var a := CopyPieces(j, m);
    if !m.starts || m.id.None? || PyIndex(j.steps, m.id.value - 1).None? {
      assert a.0 == [Echo(m.text)];
      EchoTally(m.text);
    } else {
      var k := PyIndex(j.steps, m.id.value - 1).value;
      assert a == ([Echo(m.text), SetPA(k)], None);
      EchoTally(m.text);
      assert TallyOf(a.0) == Tally([m.text], [k], 0) by {
        assert a.0[..1] == [Echo(m.text)];
      }
    }
  }

  lemma EchoTally(line: string)
    ensures TallyOf([Echo(line)]) == Tally([line], [], 0)
  {
    assert [Echo(line)][..0] == [];
  }

  /**
   * The value written after a line: `steps[id - 1]`, with Python's negative indices, when
   * the line starts object `id` and that index exists; nothing otherwise.
   */
  function StartValue(j: Job, m: Marks): seq<int>
  {
    if m.starts && m.id.Some? && PyIndex(j.steps, m.id.value - 1).Some?
    then [PyIndex(j.steps, m.id.value - 1).value] else []
  }

  /** The values written after the first `n` lines, in order. */
  function StartValues(j: Job, ms: seq<Marks>, n: nat): seq<int>
    requires n <= |ms|
    decreases n
  {
    if n == 0 then [] else StartValues(j, ms, n - 1) + StartValue(j, ms[n - 1])
  }

  /** The texts of the lines read off. */
  function TextsUpTo(ms: seq<Marks>, n: nat): (r: seq<string>)
    requires n <= |ms|
    ensures |r| == n
    decreases n
  {
    if n == 0 then [] else TextsUpTo(ms, n - 1) + [ms[n - 1].text]
  }

  /**
   * What the rewrite of the lines `ms[..n]` has copied, when it has produced the tally `t`
   * and ended with `err`: the lines unchanged and in order, each followed by its object's
   * value when it starts an object; an exception cuts both short, after the line that raises.
   */
  predicate Copied(j: Job, t: Tally, err: Option<Exception>, ms: seq<Marks>, n: nat)
    requires n <= |ms|
  {
    && t.echoes <= TextsUpTo(ms, n)
    && t.values <= StartValues(j, ms, n)
    && (err.None? ==> t.echoes == TextsUpTo(ms, n) && t.values == StartValues(j, ms, n))
    && (err.Some? ==> t.echoes != [])
  }

  /** The rewrite of the first `n` lines has copied them and written the resets as it should. */
  predicate Rewrote(j: Job, labels: (seq<Piece>, Option<Exception>), ms: seq<Marks>, n: nat)
    requires n <= |ms|
  {
    var r := ChangeUpTo(j, labels, ms, n);
    Copied(j, TallyOf(r.0), r.2, ms, n) && ResetOnce(TallyOf(r.0), r.1)
  }

  /**
   * The rewrite of the first `n` lines copies them, each followed by its object's value;
   * it holds one reset once the labels are written and none before.
   */
  lemma {:induction false} ChangeCopies(j: Job, labels: (seq<Piece>, Option<Exception>), ms: seq<Marks>, n: nat)
    requires n <= |ms| && TallyOf(labels.0) == NoTally
    ensures Rewrote(j, labels, ms, n)
    decreases n, 1
  {
    if n > 0 {
      var a := ChangeUpTo(j, labels, ms, n - 1);
      if a.2.None? {
        CopiesNext(j, labels, ms, n);
      } else {
        CopiesStopped(j, labels, ms, n);
      }
    }
  }

  /** The step of `ChangeCopies` past a line after the exception, which the rewrite skips. */
  lemma {:induction false} CopiesStopped(j: Job, labels: (seq<Piece>, Option<Exception>), ms: seq<Marks>, n: nat)
    requires 0 < n <= |ms| && TallyOf(labels.0) == NoTally
    requires ChangeUpTo(j, labels, ms, n - 1).2.Some?
    ensures Rewrote(j, labels, ms, n)
    decreases n, 0
  {
    var a := ChangeUpTo(j, labels, ms, n - 1);
    assert ChangeUpTo(j, labels, ms, n) == a;
    ChangeCopies(j, labels, ms, n - 1);
    CopiedPrefix(j, TallyOf(a.0), a.2, ms, n);
  }

  /** The step of `ChangeCopies` past a line that the rewrite reads. */
  lemma {:induction false} CopiesNext(j: Job, labels: (seq<Piece>, Option<Exception>), ms: seq<Marks>, n: nat)
    requires 0 < n <= |ms| && TallyOf(labels.0) == NoTally
    requires ChangeUpTo(j, labels, ms, n - 1).2.None?
    ensures Rewrote(j, labels, ms, n)
    decreases n, 0
  {
    var a := ChangeUpTo(j, labels, ms, n - 1);
    var b := LineStep(j, labels, a.1, ms[n - 1]);
    ChangeCopies(j, labels, ms, n - 1);
    LineCopied(j, labels, ms, n, a, b);
    assert ChangeUpTo(j, labels, ms, n) == (a.0 + b.0, b.1, b.2);
  }

  /** The rewrite `a` of the lines before line `n`, followed by the rewrite `b` of that line. */
  lemma LineCopied(j: Job, labels: (seq<Piece>, Option<Exception>), ms: seq<Marks>, n: nat,
                   a: (seq<Piece>, Progress, Option<Exception>), b: (seq<Piece>, Progress, Option<Exception>))
    requires 0 < n <= |ms| && TallyOf(labels.0) == NoTally
    requires Copied(j, TallyOf(a.0), None, ms, n - 1) && ResetOnce(TallyOf(a.0), a.1)
    requires b == LineStep(j, labels, a.1, ms[n - 1])
    ensures Copied(j, TallyOf(a.0 + b.0), b.2, ms, n) && ResetOnce(TallyOf(a.0 + b.0), b.1)
  {
    var m := ms[n - 1];
    var ta, tb := TallyOf(a.0), TallyOf(b.0);
    assert tb.echoes == [m.text] && tb.values == StartValue(j, m) by {
      LineCopies(j, labels, a.1, m);
    }
    assert tb.resets == (if b.1.written && !a.1.written then 1 else 0) && (a.1.written ==> b.1.written) by {
      LineResets(j, labels, a.1, m);
      LineProgress(j, labels, a.1, m);
    }
    assert TallyOf(a.0 + b.0) == Add(ta, tb) by {
      TallyAppend(a.0, b.0);
    }
    CopiedStep(j, ta, tb, b.2, ms, n);
    ResetCount(ta, tb, a.1.written, b.1.written);
  }

  /** One more line, copied after the lines before it. */
  lemma CopiedStep(j: Job, ta: Tally, tb: Tally, err: Option<Exception>, ms: seq<Marks>, n: nat)
    requires 0 < n <= |ms| && Copied(j, ta, None, ms, n - 1)
    requires tb.echoes == [ms[n - 1].text] && tb.values == StartValue(j, ms[n - 1])
    ensures Copied(j, Add(ta, tb), err, ms, n)
  {
    assert TextsUpTo(ms, n) == TextsUpTo(ms, n - 1) + tb.echoes;
    assert StartValues(j, ms, n) == StartValues(j, ms, n - 1) + tb.values;
  }

  /** An exception ends the rewrite: what was copied stays a prefix of the longer run. */
  lemma CopiedPrefix(j: Job, t: Tally, err: Option<Exception>, ms: seq<Marks>, n: nat)
    requires 0 < n <= |ms| && err.Some? && Copied(j, t, err, ms, n - 1)
    ensures Copied(j, t, err, ms, n)
  {
    assert TextsUpTo(ms, n - 1) <= TextsUpTo(ms, n) by {
      assert TextsUpTo(ms, n) == TextsUpTo(ms, n - 1) + [ms[n - 1].text];
    }
    assert StartValues(j, ms, n - 1) <= StartValues(j, ms, n) by {
      assert StartValues(j, ms, n) == StartValues(j, ms, n - 1) + StartValue(j, ms[n - 1]);
    }
    PrefixTrans(t.echoes, TextsUpTo(ms, n - 1), TextsUpTo(ms, n));
    PrefixTrans(t.values, StartValues(j, ms, n - 1), StartValues(j, ms, n));
  }

  lemma PrefixTrans<T>(a: seq<T>, b: seq<T>, c: seq<T>)
    requires a <= b && b <= c
    ensures a <= c
  {
    assert c[..|a|] == c[..|b|][..|a|];
  }

  /** Once the labels are written, the pass no longer waits for a free layer. */
  lemma {:induction false} ChangeWritten(j: Job, labels: (seq<Piece>, Option<Exception>), ms: seq<Marks>, n: nat)
    requires n <= |ms|
    ensures var r := ChangeUpTo(j, labels, ms, n);
            r.1.written ==> !r.1.waiting
    decreases n
  {
    if n > 0 {
      var a := ChangeUpTo(j, labels, ms, n - 1);
      ChangeWritten(j, labels, ms, n - 1);
      if a.2.None? {
        LineProgress(j, labels, a.1, ms[n - 1]);
      }
    }
  }

  /** One reset for the labels once they are written, none before. */
  predicate ResetOnce(t: Tally, p: Progress)
  {
    t.resets == if p.written then 1 else 0
  }

  /** A reset written at the first writing of the labels keeps the count at one. */
  lemma ResetCount(ta: Tally, tb: Tally, wa: bool, wb: bool)
    requires ta.resets == (if wa then 1 else 0) && (wa ==> wb)
    requires tb.resets == (if wb && !wa then 1 else 0)
    ensures Add(ta, tb).resets == if wb then 1 else 0
  {
  }

  /**
   * Without an exception, the labels are waited for exactly until the first free layer:
   * the pass is still waiting after `n` lines if and only if none of them is a free layer.
   */
  predicate Waited(j: Job, p: Progress, ms: seq<Marks>, n: nat)
    requires n <= |ms|
  {
    p.waiting == !SeenFreeLayer(j, ms, n)
  }

  /** Some of the lines `ms[..n]` is a free layer. */
  predicate SeenFreeLayer(j: Job, ms: seq<Marks>, n: nat)
    requires n <= |ms|
    decreases n
  {
    n > 0 && (SeenFreeLayer(j, ms, n - 1) || FreeLayer(j, ms[n - 1]))
  }

  /** `SeenFreeLayer` says that one of the lines is a free layer. */
  lemma {:induction false} SeenFreeLayerMeans(j: Job, ms: seq<Marks>, n: nat)
    requires n <= |ms|
    ensures SeenFreeLayer(j, ms, n) <==> exists i :: 0 <= i < n && FreeLayer(j, ms[i])
    decreases n
  {
    if n > 0 {
      SeenFreeLayerMeans(j, ms, n - 1);
      if FreeLayer(j, ms[n - 1]) {
        assert 0 <= n - 1 < n && FreeLayer(j, ms[n - 1]);
      }
    }
  }

  lemma {:induction false} ChangeWaiting(j: Job, labels: (seq<Piece>, Option<Exception>), ms: seq<Marks>, n: nat)
    requires n <= |ms|
    ensures var r := ChangeUpTo(j, labels, ms, n);
            r.2.None? ==> Waited(j, r.1, ms, n)
    decreases n
  {
    if n > 0 {
      var a := ChangeUpTo(j, labels, ms, n - 1);
      ChangeWaiting(j, labels, ms, n - 1);
      if a.2.None? {
        var b := LineStep(j, labels, a.1, ms[n - 1]);
        LineProgress(j, labels, a.1, ms[n - 1]);
      }
    }
  }

  /**
   * The value written after an object start, when `steps` is the run of values from `pa`
   * up in steps of `step`: object `id` gets `pa + (id - 1) * step`; id 0 gets the last
   * value (Python's `steps[-1]`), and an id past the last value raises IndexError.
   */
  lemma ObjectValue(j: Job, m: Marks, pa: int, step: int)
    requires j.steps == Steps(pa, step, |j.steps|)
    requires m.starts && m.id.Some?
    ensures var id, n := m.id.value, |j.steps|;
            && (1 <= id <= n ==> CopyPieces(j, m) == ([Echo(m.text), SetPA(pa + (id - 1) * step)], None))
            && (id == 0 && n > 0 ==> CopyPieces(j, m) == ([Echo(m.text), SetPA(pa + (n - 1) * step)], None))
            && (id > n ==> CopyPieces(j, m) == ([Echo(m.text)], Some(IndexError)))
  {
    StepsClosedForm(pa, step, |j.steps|);
  }

  /** The lines read off hold the lines themselves. */
  lemma TextsOfMarks(lines: seq<string>)
    ensures TextsUpTo(MarksOf(lines), |lines|) == lines
  {
    var ms := MarksOf(lines);
    forall i | 0 <= i < |lines|
      ensures TextsUpTo(ms, |lines|)[i] == lines[i]
    {
      TextAt(ms, |lines|, i);
      MarkAt(lines, i);
    }
  }

  lemma {:induction false} TextAt(ms: seq<Marks>, n: nat, i: nat)
    requires i < n <= |ms|
    ensures TextsUpTo(ms, n)[i] == ms[i].text
    decreases n
  {
    if i < n - 1 {
      TextAt(ms, n - 1, i);
    }
  }

  /** A layer line of a layer without infill. */
  predicate FreeLayerLine(j: Job, line: string)
  {
    FreeLayer(j, Mark(line))
  }

  /**
   * The rewrite of a whole file. It copies every line once and in order, up to and
   * including a line that raises; it writes one value from `steps` after each object
   * start; it writes the labels and their `G92 E0` at most once; and without an
   * exception it is still waiting for the labels' layer exactly when the file has no
   * layer line without infill.
   */
  lemma RewriteFile(j: Job, lines: seq<string>)
    ensures var ms := MarksOf(lines);
            var r := ChangeUpTo(j, Labels(j), ms, |lines|);
            var t := TallyOf(r.0);
            && t.echoes <= lines
            && (r.2.Some? ==> t.echoes != [])
            && t.values <= StartValues(j, ms, |lines|)
            && (r.2.None? ==> t.echoes == lines && t.values == StartValues(j, ms, |lines|))
            && t.resets == (if r.1.written then 1 else 0)
            && (r.1.written ==> !r.1.waiting)
            && (r.2.None? ==> (r.1.waiting <==> forall i :: 0 <= i < |lines| ==> !FreeLayerLine(j, lines[i])))
  {
    var ms := MarksOf(lines);
    var r := ChangeUpTo(j, Labels(j), ms, |lines|);
    LabelsTally(j);
    ChangeCopies(j, Labels(j), ms, |lines|);
    TextsOfMarks(lines);
    ChangeWritten(j, Labels(j), ms, |lines|);
    ChangeWaiting(j, Labels(j), ms, |lines|);
    SeenFreeLayerMeans(j, ms, |lines|);
    forall i | 0 <= i < |lines|
      ensures FreeLayer(j, ms[i]) == FreeLayerLine(j, lines[i])
    {
      MarkAt(lines, i);
    }
  }

  /** Some line of `ms[..n]` ends an object at or after the first free layer. */
  predicate SeenLabelPlace(j: Job, ms: seq<Marks>, n: nat)
    requires n <= |ms|
    decreases n
  {
    n > 0 && (SeenLabelPlace(j, ms, n - 1) || (ms[n - 1].ends && SeenFreeLayer(j, ms, n)))
  }

  /** `SeenLabelPlace` says that one of the lines is an object end at or after a free layer. */
  lemma {:induction false} SeenLabelPlaceMeans(j: Job, ms: seq<Marks>, n: nat)
    requires n <= |ms|
    ensures SeenLabelPlace(j, ms, n) <==> exists i :: 0 <= i < n && ms[i].ends && SeenFreeLayer(j, ms, i + 1)
    decreases n
  {
    if n > 0 {
      SeenLabelPlaceMeans(j, ms, n - 1);
      if ms[n - 1].ends && SeenFreeLayer(j, ms, n) {
        assert 0 <= n - 1 < n && ms[n - 1].ends && SeenFreeLayer(j, ms, (n - 1) + 1);
      }
    }
  }

  /** The label stage writes the labels at the first object end once it has stopped waiting. */
  lemma StageWritten(j: Job, labels: (seq<Piece>, Option<Exception>), st: Progress, m: Marks)
    ensures var b := LabelStage(j, labels, st, m);
            b.2.None? ==> (b.1.written <==> st.written || (m.ends && !b.1.waiting))
  {
  }

  /**
   * Without an exception, the labels have been written exactly when some line ends an
   * object at or after the first free layer.
   */
  lemma {:induction false} ChangeLabelsPlaced(j: Job, labels: (seq<Piece>, Option<Exception>), ms: seq<Marks>, n: nat)
    requires n <= |ms|
    ensures var r := ChangeUpTo(j, labels, ms, n);
            r.2.None? ==> (r.1.written <==> SeenLabelPlace(j, ms, n))
    decreases n
  {
    if n > 0 {
      var a := ChangeUpTo(j, labels, ms, n - 1);
      var r := ChangeUpTo(j, labels, ms, n);
      if a.2.Some? {
        assert r == a;
      } else {
        var m := ms[n - 1];
        assert a.1.written <==> SeenLabelPlace(j, ms, n - 1) by {
          ChangeLabelsPlaced(j, labels, ms, n - 1);
        }
        assert a.1.waiting == !SeenFreeLayer(j, ms, n - 1) by {
          ChangeWaiting(j, labels, ms, n - 1);
        }
        if CopyPieces(j, m).1.None? {
          var b := LabelStage(j, labels, a.1, m);
          assert r.1 == b.1 && r.2 == b.2;
          StageWritten(j, labels, a.1, m);
          assert b.1.waiting == !SeenFreeLayer(j, ms, n);
        } else {
          assert r.2.Some?;
        }
      }
    }
  }

  /**
   * Without an exception, the labels and their `G92 E0` are written, once, exactly when some
   * line of the file ends an object at or after a layer line without infill.
   */
  lemma LabelsPlaced(j: Job, lines: seq<string>)
    ensures var ms := MarksOf(lines);
            var r := ChangeUpTo(j, Labels(j), ms, |lines|);
            r.2.None? ==>
              (r.1.written <==>
                 exists i :: 0 <= i < |lines| && Contains(lines[i], ObjectEnd) && SeenFreeLayer(j, ms, i + 1))
  {
    var ms := MarksOf(lines);
    ChangeLabelsPlaced(j, Labels(j), ms, |lines|);
    SeenLabelPlaceMeans(j, ms, |lines|);
    forall i | 0 <= i < |lines|
      ensures ms[i].ends == Contains(lines[i], ObjectEnd)
    {
      MarkAt(lines, i);
    }
  }

  // ------------------------------------------------------------ layout

  /** The `M900` line of a value written after an object start, if any. */
  function ValuePieces(vs: seq<int>): (r: seq<Piece>)
    ensures |r| == if vs == [] then 0 else 1
  {
    if vs == [] then [] else [SetPA(vs[0])]
  }

  /** Line `i` is the first object end at or after the first free layer. */
  predicate FirstLabelPlace(j: Job, ms: seq<Marks>, i: nat)
    requires i < |ms|
  {
    ms[i].ends && SeenFreeLayer(j, ms, i + 1) && !SeenLabelPlace(j, ms, i)
  }

  /**
   * What the rewrite writes for line `i`: the line itself, then the value of the object it
   * starts, then the labels and `G92 E0` when it is the first object end at or after the
   * first free layer.
   */
  function LinePieces(j: Job, labels: (seq<Piece>, Option<Exception>), ms: seq<Marks>, i: nat): seq<Piece>
    requires i < |ms|
  {
    [Echo(ms[i].text)] + ValuePieces(StartValue(j, ms[i]))
      + (if FirstLabelPlace(j, ms, i) then labels.0 + [ResetE] else [])
  }

  /** What the rewrite writes for the lines `ms[..n]`, one block per line, in order. */
  function Layout(j: Job, labels: (seq<Piece>, Option<Exception>), ms: seq<Marks>, n: nat): seq<Piece>
    requires n <= |ms|
    decreases n
  {
    if n == 0 then [] else Layout(j, labels, ms, n - 1) + LinePieces(j, labels, ms, n - 1)
  }

  /** A rewrite without an exception had none on any shorter prefix either. */
  lemma {:induction false} ChangeNoneBefore(j: Job, labels: (seq<Piece>, Option<Exception>), ms: seq<Marks>, i: nat, n: nat)
    requires i <= n <= |ms| && ChangeUpTo(j, labels, ms, n).2.None?
    ensures ChangeUpTo(j, labels, ms, i).2.None?
    decreases n
  {
    if n > i {
      assert ChangeUpTo(j, labels, ms, n - 1).2.None?;
      ChangeNoneBefore(j, labels, ms, i, n - 1);
    }
  }

  /** The copy of a line that raises nothing is the line and its object's value. */
  lemma CopyValue(j: Job, m: Marks)
    requires CopyPieces(j, m).1.None?
    ensures CopyPieces(j, m).0 == [Echo(m.text)] + ValuePieces(StartValue(j, m))
  {
  }

  /** The label stage, when it raises nothing, writes the labels and the reset or nothing. */
  lemma StagePieces(j: Job, labels: (seq<Piece>, Option<Exception>), st: Progress, m: Marks)
    requires LabelStage(j, labels, st, m).2.None?
    ensures LabelStage(j, labels, st, m).0
              == if !(st.waiting && !FreeLayer(j, m)) && m.ends && !st.written then labels.0 + [ResetE] else []
  {
  }

  /** The block the rewrite writes for line `i`, when it raises nothing there. */
  lemma LineBlock(j: Job, labels: (seq<Piece>, Option<Exception>), ms: seq<Marks>, i: nat)
    requires i < |ms| && ChangeUpTo(j, labels, ms, i + 1).2.None?
    ensures LineStep(j, labels, ChangeUpTo(j, labels, ms, i).1, ms[i]).0 == LinePieces(j, labels, ms, i)
  {
    var a := ChangeUpTo(j, labels, ms, i);
    var m := ms[i];
    assert a.2.None? && LineStep(j, labels, a.1, m).2.None?;
    var c := CopyPieces(j, m);
    assert c.1.None?;
    CopyValue(j, m);
    var b := LabelStage(j, labels, a.1, m);
    assert LineStep(j, labels, a.1, m).0 == c.0 + b.0;
    assert b.2.None?;
    StagePieces(j, labels, a.1, m);
    assert a.1.written <==> SeenLabelPlace(j, ms, i) by {
      ChangeLabelsPlaced(j, labels, ms, i);
    }
    assert a.1.waiting == !SeenFreeLayer(j, ms, i) by {
      ChangeWaiting(j, labels, ms, i);
    }
    assert (!(a.1.waiting && !FreeLayer(j, m)) && m.ends && !a.1.written) == FirstLabelPlace(j, ms, i);
  }

  /** Without an exception, the rewrite of `ms[..n]` writes exactly `Layout`. */
  lemma {:induction false} ChangeLayout(j: Job, labels: (seq<Piece>, Option<Exception>), ms: seq<Marks>, n: nat)
    requires n <= |ms|
    ensures var r := ChangeUpTo(j, labels, ms, n); r.2.None? ==> r.0 == Layout(j, labels, ms, n)
    decreases n
  {
    var r := ChangeUpTo(j, labels, ms, n);
    if n > 0 && r.2.None? {
      var a := ChangeUpTo(j, labels, ms, n - 1);
      assert a.2.None? && r.0 == a.0 + LineStep(j, labels, a.1, ms[n - 1]).0;
      ChangeLayout(j, labels, ms, n - 1);
      LineBlock(j, labels, ms, n - 1);
    }
  }

  /** Once some line is an object end after a free layer, every longer prefix has one. */
  lemma {:induction false} SeenLabelPlaceGrows(j: Job, ms: seq<Marks>, i: nat, k: nat)
    requires i <= k <= |ms| && SeenLabelPlace(j, ms, i)
    ensures SeenLabelPlace(j, ms, k)
    decreases k
  {
    if k > i {
      SeenLabelPlaceGrows(j, ms, i, k - 1);
    }
  }

  /** The labels have one place in a file: no later line is a first label place too. */
  lemma FirstLabelPlaceOnce(j: Job, ms: seq<Marks>, i: nat, k: nat)
    requires i < k < |ms| && FirstLabelPlace(j, ms, i)
    ensures !FirstLabelPlace(j, ms, k)
  {
    assert SeenLabelPlace(j, ms, i + 1);
    SeenLabelPlaceGrows(j, ms, i + 1, k);
  }

  /**
   * The layout of a rewritten file. Without an exception, the output is one block per input
   * line, in order: the line itself, then `M900 K` of its object's value right after an
   * object start, then the labels and `G92 E0` at the first object end at or after the first
   * layer line without infill, and nothing else.
   */
  lemma RewriteLayout(j: Job, lines: seq<string>)
    ensures var ms := MarksOf(lines);
            var r := ChangeUpTo(j, Labels(j), ms, |lines|);
            && (r.2.None? ==> r.0 == Layout(j, Labels(j), ms, |lines|))
            && (forall i :: 0 <= i < |lines| ==>
                  && LinePieces(j, Labels(j), ms, i)[0] == Echo(lines[i])
                  && (FirstLabelPlace(j, ms, i) <==>
                        Contains(lines[i], ObjectEnd) && SeenFreeLayer(j, ms, i + 1) && !SeenLabelPlace(j, ms, i)))
  {
    var ms := MarksOf(lines);
    ChangeLayout(j, Labels(j), ms, |lines|);
    forall i | 0 <= i < |lines|
      ensures && LinePieces(j, Labels(j), ms, i)[0] == Echo(lines[i])
              && (FirstLabelPlace(j, ms, i) <==>
                    Contains(lines[i], ObjectEnd) && SeenFreeLayer(j, ms, i + 1) && !SeenLabelPlace(j, ms, i))
    {
      MarkAt(lines, i);
    }
  }

  /** Put together, the block of line `i` starts with the line and puts its object's value right after it. */
  lemma LinePiecesShape(j: Job, labels: (seq<Piece>, Option<Exception>), ms: seq<Marks>, i: nat)
    requires i < |ms|
    ensures var p := LinePieces(j, labels, ms, i);
            && p[0] == Echo(ms[i].text)
            && (StartValue(j, ms[i]) != [] ==> |p| >= 2 && p[1] == SetPA(StartValue(j, ms[i])[0]))
            && (StartValue(j, ms[i]) == [] && !FirstLabelPlace(j, ms, i) ==> p == [Echo(ms[i].text)])
  {
  }
}
