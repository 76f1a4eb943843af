/**
 * The analysis pass of the post-processor (`GCodeAnalyze`): one scan over
 * the lines of the sliced G-code file that records, per printed object, the
 * bounding box of its perimeter moves, the layers that contain infill and
 * the slicer settings; then the boxes are renumbered front row first and a
 * provisional list of pressure-advance values is made; `calcStep` spreads
 * values between a start and an end value; `checkConditions` reports the
 * slicer settings the post-processor needs but the file lacks.
 */
module Analysis {
  import opened Wrappers
  import opened Python
  import opened Text
  import opened Settings
  import opened Boxes
  import opened PaSteps

  const ObjectStart := "EXCLUDE_OBJECT_START"
  const ObjectEnd := "EXCLUDE_OBJECT_END"
  const LayerMark := ";Z:"
  const InfillMark := "; infill\n"

  /** The object id of a line outside every object. */
  const NoInstance := -1

  /**
   * What the loop body of `analyzeFile` tests on one line. Every test depends on
   * the line alone, so the line is read off once; the scan then uses the results
   * in the order in which the loop body evaluates them.
   */
  datatype LineInfo = LineInfo(
    text: string,
    starts: bool,                      // `"EXCLUDE_OBJECT_START" in line`
    startId: Option<nat>,              // the first run of digits of the line
    ends: bool,                        // `"EXCLUDE_OBJECT_END" in line`
    layer: bool,                       // `line.startswith(";Z:")`
    infillEnd: bool,                   // `line.endswith("; infill\n")`
    settings: seq<Assignment>,         // the assignments of the thirteen setting tests
    settingsError: Option<Exception>,  // and the exception that stopped them
    perimeter: bool,                   // a perimeter move: "perimeter", "G1 " and "E" in line
    xText: string, x: Option<real>,    // the X coordinate text and `float()` of it
    yText: string, y: Option<real>)    // the Y coordinate text and `float()` of it

  predicate IsPerimeterMove(line: string)
  {
    Contains(line, "perimeter") && Contains(line, "G1 ") && Contains(line, "E")
  }

  /** `line[line.find(axis)+1:line.find(";")].split(' ')[0]`: the text of one coordinate. */
  function CoordText(line: string, axis: string): string
  {
    BeforeSpace(Slice(line, Find(line, axis) + 1, Find(line, ";")))
  }

  /** The tests of the loop body on `line`. */
  function Classify(line: string, host: Host): LineInfo
  {
    var u := LineSettings(line, host, Keys);
    var tx, ty := CoordText(line, "X"), CoordText(line, "Y");
    LineInfo(line, Contains(line, ObjectStart), FirstNumber(line), Contains(line, ObjectEnd),
             StartsWith(line, LayerMark), EndsWith(line, InfillMark), u.0, u.1,
             IsPerimeterMove(line), tx, host.parseFloat(tx), ty, host.parseFloat(ty))
  }

  /** The lines of a file, read off one by one. */
  function Infos(lines: seq<string>, host: Host): (r: seq<LineInfo>)
    ensures |r| == |lines|
  {
    if lines == [] then [] else Infos(lines[..|lines| - 1], host) + [Classify(lines[|lines| - 1], host)]
  }

  /** Line `i` read off. */
  lemma {:induction false} InfoAt(lines: seq<string>, host: Host, i: nat)
    requires i < |lines|
    ensures Infos(lines, host)[i] == Classify(lines[i], host)
    decreases |lines|
  {
    if i < |lines| - 1 {
      InfoAt(lines[..|lines| - 1], host, i);
    }
  }

  /** What the scan carries from one line to the next. */
  datatype Scan = Scan(
    instance: int,              // the object whose lines are being read, or NoInstance
    maxval: int,                // the largest object id seen
    infill: bool,               // an infill line was seen since the last layer change
    currentZ: Option<string>,   // the last layer line; None until the analyser ever read one
    infillLayers: seq<string>,
    lastInfillZ: string,
    config: Config,
    sizes: map<int, Box>,
    order: seq<int>)            // the insertion order of `sizes`

  ghost predicate ScanOk(s: Scan)
  {
    && (s.instance == NoInstance || s.instance in s.sizes)
    && s.maxval >= 0
    && KeysInOrder(s.sizes, s.order)
  }

  /** The scan state at the top of `analyzeFile`, from the analyser's persistent fields. */
  function Begin(currentZ: Option<string>, lastInfillZ: string, config: Config,
                 sizes: map<int, Box>, order: seq<int>): Scan
  {
    Scan(NoInstance, 0, false, currentZ, [], lastInfillZ, config, sizes, order)
  }

  /** An `EXCLUDE_OBJECT_START` line with object id `id`. */
  function StartObject(s: Scan, id: nat): Scan
  {
    var s1 := s.(instance := id, maxval := if id > s.maxval then id else s.maxval);
    if id in s.sizes then s1
    else s1.(sizes := s.sizes[id := NewBox], order := s.order + [id])
  }

  /** A `;Z:` line: the layer before it is recorded when it had infill. */
  function NewLayer(s: Scan, line: string): Scan
    requires !s.infill || s.currentZ.Some?
  {
    if s.infill then
      s.(infillLayers := s.infillLayers + [s.currentZ.value], lastInfillZ := s.currentZ.value,
         infill := false, currentZ := Some(line))
    else s.(currentZ := Some(line))
  }

  /** The perimeter point of a line, when both coordinates convert. */
  function LinePoint(l: LineInfo): Option<(real, real)>
  {
    if l.x.Some? && l.y.Some? then Some((l.x.value, l.y.value)) else None
  }

  /** A perimeter point widens the current object's box: X first, then Y. */
  function WidenAt(s: Scan, l: LineInfo): (r: (Scan, Option<Exception>))
    requires s.instance in s.sizes
    ensures r.0.sizes.Keys == s.sizes.Keys
    ensures r.0 == s.(sizes := s.sizes[s.instance := r.0.sizes[s.instance]])
  {
    match l.x
    case None => (s, Some(ValueError(l.xText)))
    case Some(x) =>
      var bx := WidenX(s.sizes[s.instance], x);
      match l.y
      case None => (s.(sizes := s.sizes[s.instance := bx]), Some(ValueError(l.yText)))
      case Some(y) => (s.(sizes := s.sizes[s.instance := WidenY(bx, y)]), None)
  }

  /** The object id a start line names; None for other lines and for a start line without digits. */
  function StartedId(l: LineInfo): Option<nat>
  {
    if l.starts then l.startId else None
  }

  /** The object markers: a start line makes its id current, an end line leaves the object. */
  function ObjectStage(s: Scan, l: LineInfo): (r: (Scan, Option<Exception>))
    ensures r.0 == s.(instance := r.0.instance, maxval := r.0.maxval, sizes := r.0.sizes, order := r.0.order)
    ensures r.1.Some? ==> r == (s, Some(IndexError))
  {
    if l.starts && l.startId.None? then (s, Some(IndexError))
    else
      var s1 := if l.starts then StartObject(s, l.startId.value) else s;
      (if l.ends then s1.(instance := NoInstance) else s1, None)
  }

  /**
   * A start line adds a fresh box for a new id and keeps every box it had; `maxval`
   * follows the largest id; any other line leaves boxes, order and `maxval` alone.
   */
  lemma ObjectStageEffect(s: Scan, l: LineInfo)
    ensures var r := ObjectStage(s, l).0;
            && (forall k <- s.sizes :: k in r.sizes && r.sizes[k] == s.sizes[k])
            && (forall k <- r.sizes :: k !in s.sizes ==> r.sizes[k] == NewBox)
            && r.sizes.Keys == s.sizes.Keys + (if StartedId(l).Some? then {StartedId(l).value as int} else {})
            && r.maxval == (if StartedId(l).Some? && StartedId(l).value > s.maxval then StartedId(l).value else s.maxval)
            && (!l.starts ==>
                  && r.sizes == s.sizes && r.order == s.order
                  && (r.instance == s.instance || r.instance == NoInstance))
  {
  }

  /** The layer bookkeeping: a `;Z:` line closes the layer before it, an infill line marks the layer. */
  function LayerStage(s: Scan, l: LineInfo): (r: (Scan, Option<Exception>))
    ensures r.0 == s.(infill := r.0.infill, currentZ := r.0.currentZ,
                      infillLayers := r.0.infillLayers, lastInfillZ := r.0.lastInfillZ)
    ensures r.1.Some? ==> r == (s, Some(AttributeError))
  {
    if l.layer && s.infill && s.currentZ.None? then (s, Some(AttributeError))
    else
      var s3 := if l.layer then NewLayer(s, l.text) else s;
      (if l.infillEnd then s3.(infill := true) else s3, None)
  }

  /** The thirteen setting tests: the assignments before an exception are kept. */
  function ConfigStage(s: Scan, l: LineInfo): (r: (Scan, Option<Exception>))
    ensures r.0 == s.(config := r.0.config)
  {
    (s.(config := Assign(s.config, l.settings)), l.settingsError)
  }

  /**
   * A perimeter move inside an object widens the object's box; `sizes[instance]`
   * raises KeyError when the object has no box.
   */
  function PointStage(s: Scan, l: LineInfo): (r: (Scan, Option<Exception>))
    ensures r.0 == s.(sizes := r.0.sizes)
    ensures r.0.sizes.Keys == s.sizes.Keys
  {
    if s.instance != NoInstance && l.perimeter then
      if s.instance in s.sizes then WidenAt(s, l) else (s, Some(MissingBox(s.instance)))
    else (s, None)
  }

  /**
   * The body of the `for line in file` loop of `analyzeFile`. An exception stops the
   * line with the updates made before it.
   */
  function ScanLine(s: Scan, l: LineInfo): (r: (Scan, Option<Exception>))
  {
    var a := ObjectStage(s, l);
    if a.1.Some? then a
    else
      var b := LayerStage(a.0, l);
      if b.1.Some? then b
      else
        var c := ConfigStage(b.0, l);
        if c.1.Some? then c
        else PointStage(c.0, l)
  }

  /** The scan over the first `n` lines; the first exception ends it. */
  function ScanUpTo(s0: Scan, lines: seq<LineInfo>, n: nat): (r: (Scan, Option<Exception>))
    requires n <= |lines|
    decreases n
  {
    if n == 0 then (s0, None)
    else
      var p := ScanUpTo(s0, lines, n - 1);
      if p.1.Some? then p else ScanLine(p.0, lines[n - 1])
  }

  /** Once the scan has raised, later lines are never read. */
  lemma {:induction false} ScanErrorStays(s0: Scan, lines: seq<LineInfo>, i: nat, n: nat)
    requires i <= n <= |lines|
    requires ScanUpTo(s0, lines, i).1.Some?
    ensures ScanUpTo(s0, lines, n) == ScanUpTo(s0, lines, i)
    decreases n - i
  {
    if n > i {
      ScanErrorStays(s0, lines, i, n - 1);
    }
  }

  // ------------------------------------------------------------- one line

  /**
   * A line keeps the scan consistent: the current object has a box, and the
   * boxes and their insertion order hold the same ids, each once. So the lookup
   * of the current box never raises.
   */
  lemma ScanLineOk(s: Scan, l: LineInfo)
    requires ScanOk(s)
    ensures ScanOk(ScanLine(s, l).0)
    ensures var e := ScanLine(s, l).1;
            e.Some? && e.value.MissingBox? ==> e == l.settingsError
  {
    var a := ObjectStage(s, l);
    ObjectStageOk(s, l);
    if a.1.None? {
      var b := LayerStage(a.0, l);
      if b.1.None? {
        var c := ConfigStage(b.0, l);
        assert c.0.instance == a.0.instance && c.0.sizes == a.0.sizes;
      }
    }
  }

  /** The object markers keep the scan consistent. */
  lemma ObjectStageOk(s: Scan, l: LineInfo)
    requires ScanOk(s)
    ensures ScanOk(ObjectStage(s, l).0)
  {
  }

  /** The object markers keep every box and add only fresh ones. */
  lemma ObjectStageBoxes(s: Scan, l: LineInfo)
    requires AllBoxesOk(s.sizes)
    ensures var a := ObjectStage(s, l).0;
            && AllBoxesOk(a.sizes)
            && forall k <- s.sizes :: k in a.sizes && a.sizes[k] == s.sizes[k]
  {
    var a := ObjectStage(s, l).0;
    ObjectStageEffect(s, l);
    forall k <- a.sizes ensures BoxOk(a.sizes[k]) {
      if k !in s.sizes {
        assert a.sizes[k] == NewBox;
      }
    }
  }

  /** The whole scan keeps the scan consistent. */
  lemma {:induction false} ScanUpToOk(s0: Scan, lines: seq<LineInfo>, n: nat)
    requires ScanOk(s0) && n <= |lines|
    ensures ScanOk(ScanUpTo(s0, lines, n).0)
    decreases n
  {
    if n > 0 {
      ScanUpToOk(s0, lines, n - 1);
      var p := ScanUpTo(s0, lines, n - 1);
      if p.1.None? {
        ScanLineOk(p.0, lines[n - 1]);
      }
    }
  }

  /**
   * One line keeps every box it does not belong to, and keeps all boxes and
   * their order when it neither starts an object nor lies inside one.
   */
  lemma ScanLineFrame(s: Scan, l: LineInfo)
    ensures var r := ScanLine(s, l).0;
            && (forall k <- s.sizes :: k in r.sizes)
            && (forall k <- s.sizes :: k != r.instance ==> r.sizes[k] == s.sizes[k])
            && r.maxval >= s.maxval
            && r.sizes.Keys == s.sizes.Keys + (if StartedId(l).Some? then {StartedId(l).value as int} else {})
            && r.maxval == (if StartedId(l).Some? && StartedId(l).value > s.maxval then StartedId(l).value else s.maxval)
            && (!l.starts ==> r.sizes.Keys == s.sizes.Keys && r.order == s.order)
            && (!l.starts && s.instance == NoInstance ==> r.sizes == s.sizes)
  {
    var a := ObjectStage(s, l);
    ObjectStageEffect(s, l);
    if a.1.None? {
      var b := LayerStage(a.0, l);
      if b.1.None? {
        var c := ConfigStage(b.0, l);
        if c.1.None? {
          assert c.0.sizes == a.0.sizes && c.0.instance == a.0.instance && c.0.order == a.0.order;
          var d := PointStage(c.0, l);
          assert d.0.instance == a.0.instance && d.0.order == a.0.order;
          assert forall k <- a.0.sizes :: k != a.0.instance ==> d.0.sizes[k] == a.0.sizes[k];
        }
      }
    }
  }

  /** The coordinates a perimeter move yields are never the "not set" value. */
  predicate PointOk(l: LineInfo)
  {
    l.perimeter ==> l.x != Some(Unset) && l.y != Some(Unset)
  }

  ghost predicate AllBoxesOk(sizes: map<int, Box>)
  {
    forall k <- sizes :: BoxOk(sizes[k])
  }

  /**
   * A line that reads without error moves bounds outward only, and a perimeter
   * move inside an object leaves that object's box covering the move's point.
   */
  lemma ScanLineWidens(s: Scan, l: LineInfo)
    requires ScanOk(s) && AllBoxesOk(s.sizes) && PointOk(l)
    ensures var r := ScanLine(s, l);
            r.1.None? ==>
              && AllBoxesOk(r.0.sizes)
              && (forall k <- s.sizes :: k in r.0.sizes && Widens(s.sizes[k], r.0.sizes[k]))
              && (r.0.instance != NoInstance && l.perimeter ==>
                    && LinePoint(l).Some?
                    && Covers(r.0.sizes[r.0.instance], LinePoint(l).value.0, LinePoint(l).value.1))
  {
    var r := ScanLine(s, l);
    if r.1.None? {
      var a := ObjectStage(s, l);
      var b := LayerStage(a.0, l);
      var c := ConfigStage(b.0, l);
      assert a.1.None? && b.1.None? && c.1.None? && r == PointStage(c.0, l);
      assert c.0.sizes == a.0.sizes && c.0.instance == a.0.instance && c.0.order == a.0.order;
      ObjectStageOk(s, l);
      ObjectStageBoxes(s, l);
      PointStageWidens(c.0, l);
    }
  }

  /** The perimeter point of a line, when it is read, widens the current box only. */
  lemma PointStageWidens(s: Scan, l: LineInfo)
    requires ScanOk(s) && AllBoxesOk(s.sizes) && PointOk(l)
    ensures var r := PointStage(s, l);
            r.1.None? ==>
              && AllBoxesOk(r.0.sizes)
              && (forall k <- s.sizes :: k in r.0.sizes && Widens(s.sizes[k], r.0.sizes[k]))
              && (s.instance != NoInstance && l.perimeter ==>
                    && LinePoint(l).Some?
                    && Covers(r.0.sizes[s.instance], LinePoint(l).value.0, LinePoint(l).value.1))
  {
    var r := PointStage(s, l);
    if r.1.None? && s.instance != NoInstance && l.perimeter {
      var i := s.instance;
      assert r.0.sizes == s.sizes[i := WidenY(WidenX(s.sizes[i], l.x.value), l.y.value)];
      WidenPoint(s.sizes[i], l.x.value, l.y.value);
    }
  }

  /**
   * A layer line records the layer it closes exactly when that layer had an
   * infill line; the infill flag is then set by this line alone.
   */
  lemma ScanLineLayers(s: Scan, l: LineInfo)
    ensures var r := ScanLine(s, l);
            r.1.None? ==>
              && r.0.infill == (l.infillEnd || (s.infill && !l.layer))
              && (l.layer ==> r.0.currentZ == Some(l.text))
              && (l.layer && s.infill ==>
                    r.0.infillLayers == s.infillLayers + [s.currentZ.value] && r.0.lastInfillZ == s.currentZ.value)
              && (!(l.layer && s.infill) ==>
                    r.0.infillLayers == s.infillLayers && r.0.lastInfillZ == s.lastInfillZ)
              && (!l.layer ==> r.0.currentZ == s.currentZ)
  {
  }

  /**
   * Reading a layer line while the layer before it had infill, in a session that
   * never read a layer line before, raises: the analyser reads `self.currentZ`
   * before it exists.
   */
  lemma ScanLineUnsetLayer(s: Scan, l: LineInfo)
    requires s.infill && s.currentZ.None?
    requires l.layer && !l.starts
    ensures ScanLine(s, l).1 == Some(AttributeError)
  {
  }

  // ------------------------------------------------------------- whole scan

  /** The object ids of the start markers among `lines`. */
  function StartIds(lines: seq<LineInfo>): set<int>
  {
    if lines == [] then {}
    else
      var last := lines[|lines| - 1];
      StartIds(lines[..|lines| - 1]) + (if StartedId(last).Some? then {StartedId(last).value as int} else {})
  }

  /**
   * A scan without error knows a box for exactly the objects it knew before and the
   * objects started in the lines read, and `maxval` is the largest id started.
   */
  /**
   * After a scan of `ids`' lines without error, the boxes are exactly those of `s0` and
   * of `ids`, and `maxval` is the largest of `ids`.
   */
  predicate ObjectsKnown(s0: Scan, r: (Scan, Option<Exception>), ids: set<int>)
  {
    r.1.None? ==>
      && r.0.sizes.Keys == s0.sizes.Keys + ids
      && (forall id <- ids :: id <= r.0.maxval)
      && (r.0.maxval == 0 || r.0.maxval in ids)
  }

  lemma {:induction false} ScanObjects(s0: Scan, lines: seq<LineInfo>, n: nat)
    requires n <= |lines| && s0.maxval == 0
    ensures ObjectsKnown(s0, ScanUpTo(s0, lines, n), StartIds(lines[..n]))
    decreases n
  {
    var r := ScanUpTo(s0, lines, n);
    if n > 0 && r.1.None? {
      var p := ScanUpTo(s0, lines, n - 1);
      assert p.1.None? && r == ScanLine(p.0, lines[n - 1]);
      ScanObjects(s0, lines, n - 1);
      var last := lines[n - 1];
      var added := if StartedId(last).Some? then {StartedId(last).value as int} else {};
      assert StartIds(lines[..n]) == StartIds(lines[..n - 1]) + added by {
        assert lines[..n][..n - 1] == lines[..n - 1];
        assert lines[..n][n - 1] == last;
      }
      ObjectsStep(s0, p, r, StartIds(lines[..n - 1]), last);
    } else if n == 0 {
      assert lines[..0] == [];
    }
  }

  /** `ObjectsKnown` carried over one line. */
  lemma ObjectsStep(s0: Scan, p: (Scan, Option<Exception>), r: (Scan, Option<Exception>), ids: set<int>, l: LineInfo)
    requires ObjectsKnown(s0, p, ids) && p.1.None? && r == ScanLine(p.0, l)
    ensures ObjectsKnown(s0, r, ids + (if StartedId(l).Some? then {StartedId(l).value as int} else {}))
  {
    ScanLineFrame(p.0, l);
  }

  /** The boxes stay consistent through a scan without error. */
  lemma {:induction false} ScanBoxesOk(s0: Scan, lines: seq<LineInfo>, n: nat)
    requires ScanOk(s0) && n <= |lines| && AllBoxesOk(s0.sizes)
    requires forall j :: 0 <= j < |lines| ==> PointOk(lines[j])
    ensures var r := ScanUpTo(s0, lines, n); r.1.None? ==> AllBoxesOk(r.0.sizes)
    decreases n
  {
    var r := ScanUpTo(s0, lines, n);
    if n > 0 && r.1.None? {
      var p := ScanUpTo(s0, lines, n - 1);
      ScanBoxesOk(s0, lines, n - 1);
      ScanUpToOk(s0, lines, n - 1);
      ScanLineWidens(p.0, lines[n - 1]);
    }
  }

  /** Between line `i` and line `n` of a scan without error, every box only grows. */
  lemma {:induction false} ScanWidensFrom(s0: Scan, lines: seq<LineInfo>, i: nat, n: nat)
    requires ScanOk(s0) && i <= n <= |lines| && AllBoxesOk(s0.sizes)
    requires forall j :: 0 <= j < |lines| ==> PointOk(lines[j])
    ensures var a, b := ScanUpTo(s0, lines, i), ScanUpTo(s0, lines, n);
            b.1.None? ==> forall k <- a.0.sizes :: k in b.0.sizes && Widens(a.0.sizes[k], b.0.sizes[k])
    decreases n - i
  {
    var a, b := ScanUpTo(s0, lines, i), ScanUpTo(s0, lines, n);
    if n > i && b.1.None? {
      var p := ScanUpTo(s0, lines, n - 1);
      assert a.1.None? by {
        if a.1.Some? {
          ScanErrorStays(s0, lines, i, n);
        }
      }
      ScanBoxesOk(s0, lines, i);
      ScanWidensFrom(s0, lines, i, n - 1);
      ScanBoxesOk(s0, lines, n - 1);
      ScanUpToOk(s0, lines, n - 1);
      ScanLineWidens(p.0, lines[n - 1]);
      forall k <- a.0.sizes ensures k in b.0.sizes && Widens(a.0.sizes[k], b.0.sizes[k]) {
        WidensTransitive(a.0.sizes[k], p.0.sizes[k], b.0.sizes[k]);
      }
    }
  }

  /** One box of `ScanWidensFrom`: the box of `k` after line `i` is widened by the end. */
  lemma ScanWidensAt(s0: Scan, lines: seq<LineInfo>, i: nat, n: nat, k: int)
    requires ScanOk(s0) && i <= n <= |lines| && AllBoxesOk(s0.sizes)
    requires forall j :: 0 <= j < |lines| ==> PointOk(lines[j])
    requires k in ScanUpTo(s0, lines, i).0.sizes && ScanUpTo(s0, lines, n).1.None?
    ensures var a, b := ScanUpTo(s0, lines, i), ScanUpTo(s0, lines, n);
            k in b.0.sizes && Widens(a.0.sizes[k], b.0.sizes[k])
  {
    ScanWidensFrom(s0, lines, i, n);
  }

  /** The object current after reading line `j`. */
  function ActiveAt(s0: Scan, lines: seq<LineInfo>, j: nat): int
    requires j < |lines|
  {
    ScanUpTo(s0, lines, j + 1).0.instance
  }

  /**
   * After a scan without error, the box of the object current at line `j` covers
   * the point of that line when it is a perimeter move.
   */
  lemma ScanCoversPoint(s0: Scan, lines: seq<LineInfo>, n: nat, j: nat)
    requires ScanOk(s0) && j < n <= |lines| && AllBoxesOk(s0.sizes)
    requires forall j :: 0 <= j < |lines| ==> PointOk(lines[j])
    ensures var r := ScanUpTo(s0, lines, n);
            r.1.None? && ActiveAt(s0, lines, j) != NoInstance && lines[j].perimeter ==>
              && LinePoint(lines[j]).Some?
              && ActiveAt(s0, lines, j) in r.0.sizes
              && Covers(r.0.sizes[ActiveAt(s0, lines, j)], LinePoint(lines[j]).value.0, LinePoint(lines[j]).value.1)
  {
    var r := ScanUpTo(s0, lines, n);
    if r.1.None? && ActiveAt(s0, lines, j) != NoInstance && lines[j].perimeter {
      var p, q := ScanUpTo(s0, lines, j), ScanUpTo(s0, lines, j + 1);
      assert q.1.None? by {
        if q.1.Some? {
          ScanErrorStays(s0, lines, j + 1, n);
        }
      }
      var k, pt := q.0.instance, LinePoint(lines[j]);
      assert k in q.0.sizes && BoxOk(q.0.sizes[k]) && pt.Some? && Covers(q.0.sizes[k], pt.value.0, pt.value.1) by {
        assert p.1.None? && q == ScanLine(p.0, lines[j]);
        ScanBoxesOk(s0, lines, j);
        ScanUpToOk(s0, lines, j);
        ScanLineOk(p.0, lines[j]);
        ScanLineWidens(p.0, lines[j]);
      }
      ScanWidensAt(s0, lines, j + 1, n, k);
      WidensKeepsCover(q.0.sizes[k], r.0.sizes[k], pt.value.0, pt.value.1);
    }
  }

  /**
   * After a scan without error, the box of every object covers every perimeter
   * point read while the object was current, and bounds are consistent.
   */
  lemma ScanCoversPoints(s0: Scan, lines: seq<LineInfo>, n: nat)
    requires ScanOk(s0) && n <= |lines| && AllBoxesOk(s0.sizes)
    requires forall j :: 0 <= j < |lines| ==> PointOk(lines[j])
    ensures var r := ScanUpTo(s0, lines, n);
            r.1.None? ==>
              && AllBoxesOk(r.0.sizes)
              && forall j :: 0 <= j < n && ActiveAt(s0, lines, j) != NoInstance && lines[j].perimeter ==>
                   && LinePoint(lines[j]).Some?
                   && ActiveAt(s0, lines, j) in r.0.sizes
                   && Covers(r.0.sizes[ActiveAt(s0, lines, j)], LinePoint(lines[j]).value.0, LinePoint(lines[j]).value.1)
  {
    ScanBoxesOk(s0, lines, n);
    forall j | 0 <= j < n {
      ScanCoversPoint(s0, lines, n, j);
    }
  }

  // ---------------------------------------------------------- check texts

  const CommentsProblem :=
    "\U{041F}\U{043E}\U{0441}\U{0442}\U{0430}\U{0432}\U{044C}\U{0442}\U{0435} \U{0433}\U{0430}\U{043B}\U{043E}\U{0447}\U{043A}\U{0443} "
      + "\"\U{041F}\U{043E}\U{0434}\U{0440}\U{043E}\U{0431}\U{043D}\U{044B}\U{0439} G-\U{043A}\U{043E}\U{0434}\" \U{0432} "
      + "\U{043F}\U{0440}\U{043E}\U{0444}\U{0438}\U{043B}\U{0435} \U{043F}\U{0435}\U{0447}\U{0430}\U{0442}\U{0438} \U{0432} "
      + "\U{0440}\U{0430}\U{0437}\U{0434}\U{0435}\U{043B}\U{0435} \U{0432}\U{044B}\U{0445}\U{043E}\U{0434}\U{043D}\U{044B}\U{0435} "
      + "\U{043F}\U{0430}\U{0440}\U{0430}\U{043C}\U{0435}\U{0442}\U{0440}\U{044B} \n"

  const LabelsProblem :=
    "\U{041F}\U{0430}\U{0440}\U{0430}\U{043C}\U{0435}\U{0442}\U{0440} \"\U{041D}\U{0430}\U{0437}\U{0432}\U{0430}\U{043D}\U{0438}\U{0435} "
      + "\U{043C}\U{043E}\U{0434}\U{0435}\U{043B}\U{0435}\U{0439}\" \U{0432} \U{043F}\U{0440}\U{043E}\U{0444}\U{0438}\U{043B}\U{0435} "
      + "\U{043F}\U{0435}\U{0447}\U{0430}\U{0442}\U{0438} \U{0432} \U{0440}\U{0430}\U{0437}\U{0434}\U{0435}\U{043B}\U{0435} "
      + "\U{0432}\U{044B}\U{0445}\U{043E}\U{0434}\U{043D}\U{044B}\U{0435} \U{043F}\U{0430}\U{0440}\U{0430}\U{043C}\U{0435}\U{0442}\U{0440}\U{044B} "
      + "\U{0443}\U{0441}\U{0442}\U{0430}\U{043D}\U{043E}\U{0432}\U{0438}\U{0442}\U{0435} \U{0432} \U{0437}\U{043D}\U{0430}\U{0447}\U{0435}\U{043D}\U{0438}\U{0435} "
      + "\"\U{0417}\U{0430}\U{0432}\U{0438}\U{0441}\U{0438}\U{0442} \U{043E}\U{0442} \U{043F}\U{0440}\U{043E}\U{0448}\U{0438}\U{0432}\U{043A}\U{0438}\"\n"

  const RelativeEProblem :=
    "\U{0412} \U{043F}\U{0440}\U{043E}\U{0444}\U{0438}\U{043B}\U{0435} \U{043F}\U{0440}\U{0438}\U{043D}\U{0442}\U{0435}\U{0440}\U{0430} \U{0432} "
      + "\U{0440}\U{0430}\U{0437}\U{0434}\U{0435}\U{043B}\U{0435} \"\U{0414}\U{043E}\U{043F}\U{043E}\U{043B}\U{043D}\U{0438}\U{0442}\U{0435}\U{043B}\U{044C}\U{043D}\U{043E}\" "
      + "\U{0443}\U{0441}\U{0442}\U{0430}\U{043D}\U{043E}\U{0432}\U{0438}\U{0442}\U{0435} \U{0433}\U{0430}\U{043B}\U{043E}\U{0447}\U{043A}\U{0443} "
      + "\"\U{0418}\U{0441}\U{043F}\U{043E}\U{043B}\U{044C}\U{0437}\U{043E}\U{0432}\U{0430}\U{0442}\U{044C} "
      + "\U{043E}\U{0442}\U{043D}\U{043E}\U{0441}\U{0438}\U{0442}\U{0435}\U{043B}\U{044C}\U{043D}\U{044B}\U{0435} "
      + "\U{043A}\U{043E}\U{043E}\U{0440}\U{0434}\U{0438}\U{043D}\U{0430}\U{0442}\U{044B} \U{0434}\U{043B}\U{044F} "
      + "\U{044D}\U{043A}\U{0441}\U{0442}\U{0440}\U{0443}\U{0434}\U{0435}\U{0440}\U{0430}(\U{0415})\"\n"

  /** The exit code of `SystemExit` when the settings are wrong. */
  const ProblemsExitCode := 3

  /** The problems text `checkConditions` builds: one message per missing setting, in a fixed order. */
  function Problems(c: Config): string
  {
    (if c.gcodeComments == 0 then CommentsProblem else "")
      + (if c.gcodeLabelObjects != "firmware" then LabelsProblem else "")
      + (if c.useRelativeEDistances == 0 then RelativeEProblem else "")
  }

  /**
   * The problems text is empty exactly when verbose G-code, firmware object labels
   * and relative extrusion are all on; each message appears exactly when its setting is off.
   */
  lemma ProblemsMeaning(c: Config)
    ensures Problems(c) == "" <==>
              c.gcodeComments != 0 && c.gcodeLabelObjects == "firmware" && c.useRelativeEDistances != 0
    ensures StartsWith(Problems(c), CommentsProblem) <==> c.gcodeComments == 0
    ensures EndsWith(Problems(c), RelativeEProblem) <==> c.useRelativeEDistances == 0
    ensures Contains(Problems(c), LabelsProblem) <==> c.gcodeLabelObjects != "firmware"
  {
    MessageMarks();
    ThreeMessages(CommentsProblem, LabelsProblem, RelativeEProblem,
                  c.gcodeComments == 0, c.gcodeLabelObjects != "firmware", c.useRelativeEDistances == 0);
    var ma := if c.gcodeComments == 0 then CommentsProblem else "";
    var mc := if c.useRelativeEDistances == 0 then RelativeEProblem else "";
    if c.gcodeLabelObjects != "firmware" {
      ContainsMiddle(ma, LabelsProblem, mc);
    } else {
      LabelsLetter();
      assert Problems(c) == ma + "" + mc == ma + mc;
      AbsentChar(ma + mc, LabelsProblem, '\U{0417}');
    }
  }

  /** Only the labels message has the letter `З`. */
  lemma LabelsLetter()
    ensures '\U{0417}' in LabelsProblem
    ensures '\U{0417}' !in CommentsProblem && '\U{0417}' !in RelativeEProblem
  {
    LetterIn();
    LetterNotInComments();
    LetterNotInRelativeE();
  }

  /** The labels message names the setting "Зависит от прошивки". */
  lemma LetterIn()
    ensures '\U{0417}' in LabelsProblem
  {
  }

  /** The verbose G-code message has no `З`. */
  lemma LetterNotInComments()
    ensures '\U{0417}' !in CommentsProblem
  {
  }

  /** The relative extrusion message has no `З`. */
  lemma LetterNotInRelativeE()
    ensures '\U{0417}' !in RelativeEProblem
  {
  }

  /** The second character, and the third from the end, tell the three messages apart. */
  lemma MessageMarks()
    ensures |CommentsProblem| >= 3 && |LabelsProblem| >= 3 && |RelativeEProblem| >= 3
    ensures CommentsProblem[1] != LabelsProblem[1] && CommentsProblem[1] != RelativeEProblem[1]
    ensures RelativeEProblem[|RelativeEProblem| - 3] != CommentsProblem[|CommentsProblem| - 3]
    ensures RelativeEProblem[|RelativeEProblem| - 3] != LabelsProblem[|LabelsProblem| - 3]
  {
  }

  /** Three optional messages in a row, told apart by a character near each end. */
  lemma ThreeMessages(a: string, b: string, c: string, x: bool, y: bool, z: bool)
    requires |a| >= 3 && |b| >= 3 && |c| >= 3
    requires a[1] != b[1] && a[1] != c[1]
    requires c[|c| - 3] != a[|a| - 3] && c[|c| - 3] != b[|b| - 3]
    ensures var p := (if x then a else "") + (if y then b else "") + (if z then c else "");
            && (p == "" <==> !x && !y && !z)
            && (StartsWith(p, a) <==> x)
            && (EndsWith(p, c) <==> z)
  {
    var ma, mb, mc := if x then a else "", if y then b else "", if z then c else "";
    var p := ma + mb + mc;
    if x {
      assert p[..|a|] == a;
    } else if y || z {
      assert p[1] == if y then b[1] else c[1];
      assert |a| <= |p| ==> p[..|a|][1] == p[1] != a[1];
    }
    if z {
      assert p[|p| - |c|..] == c;
    } else if x || y {
      assert p[|p| - 3] == if y then b[|b| - 3] else a[|a| - 3];
      assert |c| <= |p| ==> p[|p| - |c|..][|c| - 3] == p[|p| - 3] != c[|c| - 3];
    }
  }

  // ------------------------------------------------------------ the analyser

  class GCodeAnalyze {
    var startPA: int
    var stepPA: int
    var endPA: int
    var config: Config
    var lastInfillZ: string
    var infillLayers: seq<string>
    var currentZ: Option<string>
    var steps: seq<int>
    var sizes: map<int, Box>
    var sizeOrder: seq<int>       // the insertion order of `sizes`
    var instances: nat

    /** `sizeOrder` lists the keys of `sizes`, each once. */
    ghost predicate Valid()
      reads this
    {
      KeysInOrder(sizes, sizeOrder)
    }

    function PaPlan(): Plan
      reads this
    {
      Plan(startPA, stepPA, endPA, steps)
    }

    /** The class-level defaults: PA from 0.13 in steps of 0.005, no boxes, no layer read yet. */
    constructor ()
      ensures Valid()
      ensures PaPlan() == Plan(130, 5, 0, []) && config == DefaultConfig
      ensures lastInfillZ == "" && infillLayers == [] && currentZ == None
      ensures sizes == map[] && sizeOrder == [] && instances == 0
    {
      startPA, stepPA, endPA := 130, 5, 0;
      config := DefaultConfig;
      lastInfillZ, infillLayers, currentZ := "", [], None;
      steps, sizes, sizeOrder, instances := [], map[], [], 0;
    }

    /**
     * `calcStep(start, end)`: `instances` values from `start` in equal steps towards
     * `end`; an argument `float()` refuses, or no objects, changes nothing.
     */
    method CalcStep(start: Option<int>, end: Option<int>)
      modifies this`startPA, this`stepPA, this`endPA, this`steps
      ensures PaPlan() == CalcStepPlan(old(PaPlan()), instances, start, end)
    {
      if start.None? || end.None? || instances == 0 {
        return;
      }
      var step := RoundDiv(end.value - start.value, instances);
      startPA := start.value;
      stepPA := step;
      var idx := instances;
      steps := [];
      var pa := startPA;
      ghost var done := 0;
      while idx != 0
        invariant 0 <= idx <= instances && done == instances - idx
        invariant startPA == start.value && stepPA == step
        invariant steps == Steps(startPA, stepPA, done)
        invariant pa == startPA + done * stepPA
        invariant done > 0 ==> endPA == pa
      {
        StepsSnoc(startPA, stepPA, done);
        steps := steps + [pa];
        pa := pa + stepPA;
        assert pa == startPA + (done + 1) * stepPA by {
          assert (done + 1) * stepPA == done * stepPA + stepPA;
        }
        idx := idx - 1;
        done := done + 1;
        endPA := pa;
      }
    }

    /** The scan state the fields stand for, given the loop's local variables. */
    ghost function State(instance: int, maxval: int, infill: bool): Scan
      reads this
    {
      Scan(instance, maxval, infill, currentZ, infillLayers, lastInfillZ, config, sizes, sizeOrder)
    }

    /** The object markers of one line: `EXCLUDE_OBJECT_START` and `EXCLUDE_OBJECT_END`. */
    method ObjectMarks(l: LineInfo, instance: int, maxval: int, ghost infill: bool)
      returns (instance': int, maxval': int, err: Option<Exception>)
      modifies this`sizes, this`sizeOrder
      ensures (State(instance', maxval', infill), err) == ObjectStage(old(State(instance, maxval, infill)), l)
    {
      instance', maxval', err := instance, maxval, None;
      if l.starts {
        if l.startId.None? {
          err := Some(IndexError);
          return;
        }
        instance' := l.startId.value;
        if instance' > maxval' {
          maxval' := instance';
        }
        if instance' !in sizes {
          sizes := sizes[instance' := NewBox];
          sizeOrder := sizeOrder + [instance'];
        }
      }
      if l.ends {
        instance' := NoInstance;
      }
    }

    /** The layer bookkeeping of one line: `;Z:` lines and infill lines. */
    method LayerMarks(l: LineInfo, ghost instance: int, ghost maxval: int, infill: bool)
      returns (infill': bool, err: Option<Exception>)
      modifies this`currentZ, this`infillLayers, this`lastInfillZ
      ensures (State(instance, maxval, infill'), err) == LayerStage(old(State(instance, maxval, infill)), l)
    {
      infill', err := infill, None;
      if l.layer {
        if infill' {
          if currentZ.None? {
            err := Some(AttributeError);
            return;
          }
          infillLayers := infillLayers + [currentZ.value];
          lastInfillZ := currentZ.value;
          infill' := false;
        }
        currentZ := Some(l.text);
      }
      if l.infillEnd {
        infill' := true;
      }
    }

    /** A perimeter move inside an object widens the object's box, X first, then Y. */
    method PerimeterPoint(l: LineInfo, instance: int, ghost maxval: int, ghost infill: bool)
      returns (err: Option<Exception>)
      modifies this`sizes
      ensures (State(instance, maxval, infill), err) == PointStage(old(State(instance, maxval, infill)), l)
    {
      err := None;
      if instance != NoInstance && l.perimeter {
        if instance !in sizes {
          err := Some(MissingBox(instance));
          return;
        }
        if l.x.None? {
          err := Some(ValueError(l.xText));
          return;
        }
        var x := l.x.value;
        var b := sizes[instance];
        if b.minX == Unset { b := b.(minX := x); }
        if b.minX > x { b := b.(minX := x); }
        if b.maxX == Unset { b := b.(maxX := x); }
        if b.maxX < x { b := b.(maxX := x); }
        assert b == WidenX(old(sizes)[instance], x);
        sizes := sizes[instance := b];
        if l.y.None? {
          err := Some(ValueError(l.yText));
          return;
        }
        var y := l.y.value;
        b := sizes[instance];
        if b.minY == Unset { b := b.(minY := y); }
        if b.minY > y { b := b.(minY := y); }
        if b.maxY == Unset { b := b.(maxY := y); }
        if b.maxY < y { b := b.(maxY := y); }
        assert b == WidenY(WidenX(old(sizes)[instance], x), y);
        sizes := sizes[instance := b];
        assert sizes == old(sizes)[instance := b];
      }
    }

    /** The body of the `for line in file` loop of `analyzeFile` on line `i`. */
    method ReadLine(lines: seq<string>, i: nat, host: Host, instance: int, maxval: int, infill: bool)
      returns (instance': int, maxval': int, infill': bool, err: Option<Exception>)
      requires i < |lines|
      modifies this`currentZ, this`infillLayers, this`lastInfillZ, this`config, this`sizes, this`sizeOrder
      ensures (State(instance', maxval', infill'), err)
                == ScanLine(old(State(instance, maxval, infill)), Infos(lines, host)[i])
    {
      var l := Classify(lines[i], host);
      InfoAt(lines, host, i);
      infill' := infill;
      instance', maxval', err := ObjectMarks(l, instance, maxval, infill);
      if err.Some? {
        return;
      }
      infill', err := LayerMarks(l, instance', maxval', infill);
      if err.Some? {
        return;
      }
      config := Assign(config, l.settings);
      if l.settingsError.Some? {
        err := l.settingsError;
        return;
      }
      err := PerimeterPoint(l, instance', maxval', infill');
    }

    /** The `for line in file` loop: the lines are read until the first exception. */
    method ScanFile(lines: seq<string>, host: Host) returns (maxval: int, err: Option<Exception>)
      modifies this`currentZ, this`infillLayers, this`lastInfillZ, this`config, this`sizes, this`sizeOrder
      ensures var r := ScanUpTo(old(State(NoInstance, 0, false)), Infos(lines, host), |lines|);
              err == r.1 && State(r.0.instance, maxval, r.0.infill) == r.0
    {
      var instance, infill := NoInstance, false;
      maxval := 0;
      ghost var infos := Infos(lines, host);
      ghost var s0 := State(instance, maxval, infill);
      var i := 0;
      while i < |lines|
        invariant 0 <= i <= |lines|
        invariant ScanUpTo(s0, infos, i) == (State(instance, maxval, infill), None)
      {
        var e;
        instance, maxval, infill, e := ReadLine(lines, i, host, instance, maxval, infill);
        if e.Some? {
          err := e;
          ScanErrorStays(s0, infos, i + 1, |lines|);
          return;
        }
        i := i + 1;
      }
      err := None;
    }

    /** `sorted(self.sizes.values(), key=...)` stored back under the keys 1..N. */
    method Renumber()
      requires Valid()
      modifies this`sizes, this`sizeOrder
      ensures Valid()
      ensures var sorted := SortBoxes(BoxesInOrder(old(sizeOrder), old(sizes)));
              sizes == Renumbered(sorted) && sizeOrder == Iota(|sorted|)
    {
      var sorted := SortBoxes(BoxesInOrder(sizeOrder, sizes));
      sizes := map[];
      sizeOrder := [];
      var n := 0;
      while n < |sorted|
        invariant 0 <= n <= |sorted|
        invariant sizes == Renumbered(sorted[..n]) && sizeOrder == Iota(n)
      {
        assert sorted[..n + 1][..n] == sorted[..n];
        assert Iota(n + 1) == Iota(n) + [n + 1];
        sizes := sizes[n + 1 := sorted[n]];
        sizeOrder := sizeOrder + [n + 1];
        n := n + 1;
      }
      assert sorted[..|sorted|] == sorted;
      RenumberedKeys(sorted);
    }

    /** The provisional `while idx != 0` loop of `analyzeFile`: `count` values from `startPA`. */
    method ProvisionalSteps(count: nat)
      modifies this`steps
      ensures steps == old(steps) + Steps(startPA, stepPA, count)
    {
      var idx := count;
      var pa := startPA;
      ghost var done := 0;
      while idx != 0
        invariant 0 <= idx <= count && done == count - idx
        invariant steps == old(steps) + Steps(startPA, stepPA, done)
        invariant pa == startPA + done * stepPA
      {
        StepsSnoc(startPA, stepPA, done);
        steps := steps + [pa];
        pa := pa + stepPA;
        assert pa == startPA + (done + 1) * stepPA by {
          assert (done + 1) * stepPA == done * stepPA + stepPA;
        }
        idx := idx - 1;
        done := done + 1;
      }
    }

    /**
     * `analyzeFile` over the lines of the file. On an exception the fields keep what
     * the scan had done so far; otherwise the boxes are renumbered 1..N in sorted
     * order, a provisional run of `maxval` values from `startPA` is made, and
     * `calcStep(startPA, instances * stepPA)` recomputes it.
     */
    method AnalyzeFile(lines: seq<string>, host: Host) returns (err: Option<Exception>)
      requires Valid()
      modifies this
      ensures Valid()
      ensures var r := ScanUpTo(Begin(old(currentZ), old(lastInfillZ), old(config), old(sizes), old(sizeOrder)),
                                Infos(lines, host), |lines|);
              && err == r.1
              && currentZ == r.0.currentZ && lastInfillZ == r.0.lastInfillZ
              && infillLayers == r.0.infillLayers && config == r.0.config
              && (err.Some? ==>
                    && sizes == r.0.sizes && sizeOrder == r.0.order
                    && PaPlan() == old(PaPlan()).(steps := []) && instances == old(instances))
              && (err.None? ==>
                    && KeysInOrder(r.0.sizes, r.0.order)
                    && var sorted := SortBoxes(BoxesInOrder(r.0.order, r.0.sizes));
                    && sizes == Renumbered(sorted) && sizeOrder == Iota(|sorted|)
                    && instances == r.0.maxval
                    && PaPlan() == CalcStepPlan(
                         Plan(old(startPA), old(stepPA), old(endPA), Steps(old(startPA), old(stepPA), r.0.maxval)),
                         r.0.maxval, Some(old(startPA)), Some(r.0.maxval * old(stepPA))))
    {
      var maxval;
      maxval, err := ReadFile(lines, host);
      if err.Some? {
        return;
      }
      ghost var run := Steps(startPA, stepPA, maxval);
      PlanObjects(maxval);
      assert [] + run == run;
    }

    /** The first part of `analyzeFile`: the fresh run and layer list, then the scan. */
    method ReadFile(lines: seq<string>, host: Host) returns (maxval: nat, err: Option<Exception>)
      requires Valid()
      modifies this`steps, this`infillLayers, this`currentZ, this`lastInfillZ, this`config, this`sizes, this`sizeOrder
      ensures var r := ScanUpTo(Begin(old(currentZ), old(lastInfillZ), old(config), old(sizes), old(sizeOrder)),
                                Infos(lines, host), |lines|);
              && err == r.1 && maxval == r.0.maxval
              && currentZ == r.0.currentZ && lastInfillZ == r.0.lastInfillZ
              && infillLayers == r.0.infillLayers && config == r.0.config
              && sizes == r.0.sizes && sizeOrder == r.0.order && steps == []
              && Valid()
    {
      steps := [];
      infillLayers := [];
      ghost var s0 := State(NoInstance, 0, false);
      ghost var infos := Infos(lines, host);
      var m;
      m, err := ScanFile(lines, host);
      ScanUpToOk(s0, infos, |lines|);
      maxval := m;
    }

    /**
     * The end of `analyzeFile`: the boxes renumbered, the provisional run of `count`
     * values, `instances` set to its length, and `calcStep(startPA, instances * stepPA)`.
     */
    method PlanObjects(count: nat)
      requires Valid()
      modifies this`sizes, this`sizeOrder, this`steps, this`instances, this`startPA, this`stepPA, this`endPA
      ensures Valid()
      ensures var sorted := SortBoxes(BoxesInOrder(old(sizeOrder), old(sizes)));
              && sizes == Renumbered(sorted) && sizeOrder == Iota(|sorted|)
              && instances == |old(steps)| + count
              && PaPlan() == CalcStepPlan(
                   Plan(old(startPA), old(stepPA), old(endPA), old(steps) + Steps(old(startPA), old(stepPA), count)),
                   instances, Some(old(startPA)), Some(instances * old(stepPA)))
    {
      Renumber();
      ProvisionalSteps(count);
      instances := |steps|;
      CalcStep(Some(startPA), Some(instances * stepPA));
    }

    /**
     * `checkConditions(doNotRaise)`: the problems text, or exit code 3 when there are
     * problems and the caller did not ask for the text.
     */
    method CheckConditions(doNotRaise: bool) returns (r: Result<string, int>)
      ensures r.Failure? <==> Problems(config) != "" && !doNotRaise
      ensures r.Failure? ==> r.error == ProblemsExitCode
      ensures r.Success? ==> r.value == Problems(config)
    {
      var problems := "";
      if config.gcodeComments == 0 {
        problems := problems + CommentsProblem;
      }
      assert problems == (if config.gcodeComments == 0 then CommentsProblem else "");
      if config.gcodeLabelObjects != "firmware" {
        problems := problems + LabelsProblem;
      }
      if config.useRelativeEDistances == 0 {
        problems := problems + RelativeEProblem;
      }
      if |problems| > 0 && !doNotRaise {
        return Failure(ProblemsExitCode);
      }
      return Success(problems);
    }
  }

  /**
   * The provisional `calcStep` of `analyzeFile` passes `instances * stepPA` as the end
   * value, not `startPA + instances * stepPA`: with the defaults and two objects the
   * step becomes -0.06 instead of 0.005.
   */
  lemma ProvisionalStepExample()
    ensures CalcStepPlan(Plan(130, 5, 0, Steps(130, 5, 2)), 2, Some(130), Some(2 * 5))
              == Plan(130, -60, 10, [130, 70])
  {
    assert Steps(130, -60, 2) == [130, 70] by {
      assert Steps(70, -60, 1) == [70];
    }
  }

  /** Whenever the start value exceeds half a thousandth per object, the provisional step falls below `stepPA`. */
  lemma ProvisionalStepShort(start: int, step: int, n: nat)
    requires n > 0 && 2 * start > n
    ensures CalcStepPlan(Plan(start, step, 0, []), n, Some(start), Some(n * step)).stepPA < step
  {
    var q := RoundDiv(n * step - start, n);
    RoundDivNearest(n * step - start, n);
    assert q * n < step * n;
    MulCancelLess(q, step, n);
  }
}
