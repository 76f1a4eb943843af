/**
 * The slicer settings that the analysis pass picks out of the comment lines
 * of the G-code file. Each setting has a fixed marker; a line containing the
 * marker sets the field from the last whitespace-separated word of the line,
 * overwriting whatever an earlier line set.
 */
module Settings {
  import opened Wrappers
  import opened Python
  import opened Text

  datatype Config = Config(
    nozzleDiameter: real,
    useFirmwareRetraction: int,
    gcodeComments: int,
    useRelativeEDistances: int,
    gcodeLabelObjects: string,
    topOneWallType: string,
    filamentType: string,
    temperature: int,
    retractLength: real,
    externalPerimeterSpeed: real,
    travelSpeed: real,
    retractSpeed: real,
    externalPerimeterExtrusionWidth: real)

  /** The class-level defaults of the analyser. */
  const DefaultConfig := Config(0.4, 0, 0, 0, "", "", "", 0, 0.8, 60.0, 150.0, 30.0, 0.42)

  /** One setting, named after its field. */
  datatype Key =
    | NozzleDiameter | UseFirmwareRetraction | GcodeComments | UseRelativeEDistances
    | GcodeLabelObjects | TopOneWallType | FilamentType | Temperature | RetractLength
    | ExternalPerimeterSpeed | TravelSpeed | RetractSpeed | ExternalPerimeterExtrusionWidth

  /** The settings in the order in which the analysis pass tests their markers. */
  const Keys: seq<Key> := [
    NozzleDiameter, UseFirmwareRetraction, GcodeComments, UseRelativeEDistances,
    GcodeLabelObjects, TopOneWallType, FilamentType, Temperature, RetractLength,
    ExternalPerimeterSpeed, TravelSpeed, RetractSpeed, ExternalPerimeterExtrusionWidth]

  /** The comment text whose presence in a line sets the setting. */
  function Marker(k: Key): string
  {
    match k
    case NozzleDiameter => "; nozzle_diameter = "
    case UseFirmwareRetraction => "; use_firmware_retraction "
    case GcodeComments => "; gcode_comments "
    case UseRelativeEDistances => "; use_relative_e_distances "
    case GcodeLabelObjects => "; gcode_label_objects "
    case TopOneWallType => "; top_one_wall_type "
    case FilamentType => "; filament_type "
    case Temperature => "; temperature "
    case RetractLength => "; retract_length "
    case ExternalPerimeterSpeed => "; external_perimeter_speed "
    case TravelSpeed => "; travel_speed "
    case RetractSpeed => "; retract_speed "
    case ExternalPerimeterExtrusionWidth => "; external_perimeter_extrusion_width "
  }

  /** The value of a setting, tagged by its Python type. */
  datatype Value = IntValue(i: int) | RealValue(r: real) | TextValue(s: string)

  /** The conversion the analysis pass applies to the word: `int(...)`, `float(...)` or none. */
  function Convert(k: Key, word: string, host: Host): (v: Option<Value>)
    ensures v.Some? ==> Fits(k, v.value)
  {
    match k
    case UseFirmwareRetraction | GcodeComments | UseRelativeEDistances | Temperature =>
      (match host.parseInt(word) case None => None case Some(i) => Some(IntValue(i)))
    case GcodeLabelObjects | TopOneWallType | FilamentType => Some(TextValue(word))
    case _ =>
      (match host.parseFloat(word) case None => None case Some(r) => Some(RealValue(r)))
  }

  /** `v` has the type of the field `k`. */
  predicate Fits(k: Key, v: Value)
  {
    match k
    case UseFirmwareRetraction | GcodeComments | UseRelativeEDistances | Temperature => v.IntValue?
    case GcodeLabelObjects | TopOneWallType | FilamentType => v.TextValue?
    case _ => v.RealValue?
  }

  function Get(c: Config, k: Key): (v: Value)
    ensures Fits(k, v)
  {
    match k
    case NozzleDiameter => RealValue(c.nozzleDiameter)
    case UseFirmwareRetraction => IntValue(c.useFirmwareRetraction)
    case GcodeComments => IntValue(c.gcodeComments)
    case UseRelativeEDistances => IntValue(c.useRelativeEDistances)
    case GcodeLabelObjects => TextValue(c.gcodeLabelObjects)
    case TopOneWallType => TextValue(c.topOneWallType)
    case FilamentType => TextValue(c.filamentType)
    case Temperature => IntValue(c.temperature)
    case RetractLength => RealValue(c.retractLength)
    case ExternalPerimeterSpeed => RealValue(c.externalPerimeterSpeed)
    case TravelSpeed => RealValue(c.travelSpeed)
    case RetractSpeed => RealValue(c.retractSpeed)
    case ExternalPerimeterExtrusionWidth => RealValue(c.externalPerimeterExtrusionWidth)
  }

  /** The assignment `self.<field> = v`. */
  function Set(c: Config, k: Key, v: Value): (r: Config)
    requires Fits(k, v)
    ensures Get(r, k) == v
    ensures forall j :: j != k ==> Get(r, j) == Get(c, j)
  {
    match k
    case NozzleDiameter => c.(nozzleDiameter := v.r)
    case UseFirmwareRetraction => c.(useFirmwareRetraction := v.i)
    case GcodeComments => c.(gcodeComments := v.i)
    case UseRelativeEDistances => c.(useRelativeEDistances := v.i)
    case GcodeLabelObjects => c.(gcodeLabelObjects := v.s)
    case TopOneWallType => c.(topOneWallType := v.s)
    case FilamentType => c.(filamentType := v.s)
    case Temperature => c.(temperature := v.i)
    case RetractLength => c.(retractLength := v.r)
    case ExternalPerimeterSpeed => c.(externalPerimeterSpeed := v.r)
    case TravelSpeed => c.(travelSpeed := v.r)
    case RetractSpeed => c.(retractSpeed := v.r)
    case ExternalPerimeterExtrusionWidth => c.(externalPerimeterExtrusionWidth := v.r)
  }

  /** A setting together with a value of its type. */
  type Assignment = a: (Key, Value) | Fits(a.0, a.1) witness (NozzleDiameter, RealValue(0.0))

  /**
   * The marker tests for the settings `ks`, in order: each matching marker converts the
   * last word of the line. The result is the assignments made, in order, and the
   * exception that stopped the line, if any; the assignments before it are kept.
   */
  function LineSettings(line: string, host: Host, ks: seq<Key>): (r: (seq<Assignment>, Option<Exception>))
    decreases |ks|
  {
    if ks == [] then ([], None)
    else if !Contains(line, Marker(ks[0])) then LineSettings(line, host, ks[1..])
    else
      match LastToken(line)
      case None => ([], Some(IndexError))
      case Some(word) =>
        match Convert(ks[0], word, host)
        case None => ([], Some(ValueError(word)))
        case Some(v) =>
          var a: Assignment := (ks[0], v);
          var rest := LineSettings(line, host, ks[1..]);
          var upd: seq<Assignment> := [a] + rest.0;
          (upd, rest.1)
  }

  /** The exception that stops a line is the one of `split()[-1]` or of the conversion. */
  lemma {:induction false} LineSettingsErrors(line: string, host: Host, ks: seq<Key>)
    ensures var e := LineSettings(line, host, ks).1;
            e.None? || e.value.IndexError? || e.value.ValueError?
    decreases |ks|
  {
    if ks != [] {
      LineSettingsErrors(line, host, ks[1..]);
    }
  }

  /** The assignments carried out one after the other. */
  function Assign(c: Config, upd: seq<Assignment>): Config
    decreases |upd|
  {
    if upd == [] then c else Assign(Set(c, upd[0].0, upd[0].1), upd[1..])
  }

  /** The thirteen setting tests of one line of the analysis pass. */
  function ReadConfig(c: Config, line: string, host: Host): (r: (Config, Option<Exception>))
  {
    var u := LineSettings(line, host, Keys);
    (Assign(c, u.0), u.1)
  }

  /** The value a line gives setting `k`, when the line holds its marker and the word converts. */
  function LineValue(k: Key, line: string, host: Host): Option<Value>
  {
    match LastToken(line)
    case None => None
    case Some(word) => Convert(k, word, host)
  }

  predicate DistinctKeys(ks: seq<Key>)
  {
    forall i, j :: 0 <= i < j < |ks| ==> ks[i] != ks[j]
  }

  /**
   * What the marker tests for `ks` do to setting `k`: when they raise nothing, `k` is set
   * to the line's value when it is among `ks` and the line holds its marker, and is left
   * alone otherwise.
   */
  predicate SetsFromLine(c: Config, line: string, host: Host, ks: seq<Key>, k: Key)
  {
    var u := LineSettings(line, host, ks);
    u.1.None? ==>
      if k in ks && Contains(line, Marker(k)) then LineValue(k, line, host) == Some(Get(Assign(c, u.0), k))
      else Get(Assign(c, u.0), k) == Get(c, k)
  }

  lemma {:induction false} LineSettingsEffect(c: Config, line: string, host: Host, ks: seq<Key>, k: Key)
    requires DistinctKeys(ks)
    ensures SetsFromLine(c, line, host, ks, k)
    decreases |ks|
  {
    var u := LineSettings(line, host, ks);
    if ks != [] && u.1.None? {
      assert DistinctKeys(ks[1..]);
      assert k in ks <==> k == ks[0] || k in ks[1..];
      assert ks[0] !in ks[1..];
      if !Contains(line, Marker(ks[0])) {
        assert u == LineSettings(line, host, ks[1..]);
        LineSettingsEffect(c, line, host, ks[1..], k);
      } else {
        var rest := LineSettings(line, host, ks[1..]);
        var a := u.0[0];
        assert a == (ks[0], LineValue(ks[0], line, host).value) && u.0[1..] == rest.0 && u.1 == rest.1;
        assert Assign(c, u.0) == Assign(Set(c, a.0, a.1), rest.0);
        LineSettingsEffect(Set(c, a.0, a.1), line, host, ks[1..], k);
      }
    }
  }



  lemma KeysDistinct()
    ensures DistinctKeys(Keys)
  {
  }

  lemma KeyListed(k: Key)
    ensures k in Keys
  {
    match k {
      case NozzleDiameter => assert Keys[0] == k;
      case UseFirmwareRetraction => assert Keys[1] == k;
      case GcodeComments => assert Keys[2] == k;
      case UseRelativeEDistances => assert Keys[3] == k;
      case GcodeLabelObjects => assert Keys[4] == k;
      case TopOneWallType => assert Keys[5] == k;
      case FilamentType => assert Keys[6] == k;
      case Temperature => assert Keys[7] == k;
      case RetractLength => assert Keys[8] == k;
      case ExternalPerimeterSpeed => assert Keys[9] == k;
      case TravelSpeed => assert Keys[10] == k;
      case RetractSpeed => assert Keys[11] == k;
      case ExternalPerimeterExtrusionWidth => assert Keys[12] == k;
    }
  }

  /**
   * A line that reads without error sets exactly the settings whose markers it
   * holds, each to the value of the line's last word, and leaves the others alone.
   */
  lemma ConfigLineEffect(c: Config, line: string, host: Host)
    ensures var r := ReadConfig(c, line, host);
            r.1.None? ==>
              forall k ::
                if Contains(line, Marker(k)) then LineValue(k, line, host) == Some(Get(r.0, k))
                else Get(r.0, k) == Get(c, k)
  {
    forall k
      ensures var r := ReadConfig(c, line, host);
              r.1.None? ==>
                if Contains(line, Marker(k)) then LineValue(k, line, host) == Some(Get(r.0, k))
                else Get(r.0, k) == Get(c, k)
    {
      KeyListed(k);
      KeysDistinct();
      LineSettingsEffect(c, line, host, Keys, k);
    }
  }

  /** A line without any setting marker leaves the settings alone and raises nothing. */
  lemma {:induction false} NoMarkerNoChange(line: string, host: Host, ks: seq<Key>)
    requires forall k :: !Contains(line, Marker(k))
    ensures LineSettings(line, host, ks) == ([], None)
    decreases |ks|
  {
    if ks != [] {
      NoMarkerNoChange(line, host, ks[1..]);
    }
  }
}
