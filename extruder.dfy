/**
 * The extruder helper of the post-processor: the text of the retract and
 * unretract moves and of the extrusion amount of a straight drawn segment.
 * Every number it writes loses its leading zeros ("0.8" becomes ".8").
 */
module ExtruderModel {
  import opened Python
  import opened Text

  /** `s` without its leading '0' characters. */
  function StripZeros(s: string): (r: string)
    ensures |r| <= |s| && r == s[|s| - |r|..]
    ensures r == [] || r[0] != '0'
    ensures forall k :: 0 <= k < |s| - |r| ==> s[k] == '0'
  {
    if |s| > 0 && s[0] == '0' then StripZeros(s[1..]) else s
  }

  /** The `while(len(s)>0 and s[0] == '0'): s=s[1:]` loop that all three helpers share. */
  method StripLeadingZeros(s: string) returns (r: string)
    ensures r == StripZeros(s)
  {
    r := s;
    while |r| > 0 && r[0] == '0'
      invariant StripZeros(r) == StripZeros(s)
      decreases |r|
    {
      r := r[1..];
    }
  }

  /** The settings the extruder helper reads. */
  datatype ExtruderCfg = ExtruderCfg(
    nozzleDiameter: real,
    extrusionWidth: real,
    layerHeight: real,
    useFirmwareRetraction: int,
    retractLength: real,
    retractSpeed: real)

  /** The class-level defaults of the helper. */
  const DefaultExtruder := ExtruderCfg(0.4, 0.42, 0.2, 0, 0.8, 0.8)

  const FirmwareRetract := "G10 ; retract\n"
  const FirmwareUnretract := "G11 ; unrectract\n"

  /** The length text of a retract or unretract move: `str(retract_length)` without leading zeros. */
  function RetractAmount(c: ExtruderCfg, host: Host): (s: string)
    ensures s == [] || s[0] != '0'
  {
    StripZeros(host.repr(c.retractLength))
  }

  /** The feed-rate text of a retract or unretract move: the speed in mm/min, no decimals. */
  function RetractFeed(c: ExtruderCfg, host: Host): string
  {
    host.fixed(c.retractSpeed * 60.0, 0)
  }

  /** The line `retract()` returns. */
  function RetractText(c: ExtruderCfg, host: Host): (t: string)
    ensures t == FirmwareRetract <==> c.useFirmwareRetraction == 1
    ensures c.useFirmwareRetraction != 1 ==>
              t == "G1 E-" + RetractAmount(c, host) + " F" + RetractFeed(c, host) + "  ; retract\n"
  {
    if c.useFirmwareRetraction == 1 then FirmwareRetract
    else
      var t := "G1 E-" + RetractAmount(c, host) + " F" + RetractFeed(c, host) + "  ; retract\n";
      assert t[2] != FirmwareRetract[2];
      t
  }

  /** The line `unretract()` returns: the same amount pushed back. */
  function UnretractText(c: ExtruderCfg, host: Host): (t: string)
    ensures t == FirmwareUnretract <==> c.useFirmwareRetraction == 1
    ensures c.useFirmwareRetraction != 1 ==>
              t == "G1 E" + RetractAmount(c, host) + " F" + RetractFeed(c, host) + "  ; unretract\n"
  {
    if c.useFirmwareRetraction == 1 then FirmwareUnretract
    else
      var t := "G1 E" + RetractAmount(c, host) + " F" + RetractFeed(c, host) + "  ; unretract\n";
      assert t[2] != FirmwareUnretract[2];
      t
  }

  /** A retract line is never mistaken for an unretract line. */
  lemma RetractDiffersFromUnretract(c: ExtruderCfg, host: Host)
    ensures RetractText(c, host) != UnretractText(c, host)
  {
    if c.useFirmwareRetraction != 1 {
      assert |RetractText(c, host)| + 1 == |UnretractText(c, host)|;
    } else {
      assert FirmwareRetract[2] != FirmwareUnretract[2];
    }
  }

  function Abs(x: real): real
  {
    if x < 0.0 then -x else x
  }

  /** `math.pow(x, 2)`. */
  function Square(x: real): real
  {
    x * x
  }

  /**
   * The extrusion amount of a straight segment as `calcExtrusionOnLengthByCoords` writes it:
   * segment length times extrusion width, layer height and nozzle diameter, with five
   * decimals and without leading zeros.
   */
  function ExtrusionText(c: ExtruderCfg, host: Host, startX: real, startY: real, endX: real, endY: real): (t: string)
  {
    StripZeros(host.fixed(SegmentExtrusion(c, host, startX, startY, endX, endY), 5))
  }

  /** The extrusion amount of a straight segment, before it is formatted. */
  function SegmentExtrusion(c: ExtruderCfg, host: Host, startX: real, startY: real, endX: real, endY: real): real
  {
    host.sqrt(Square(Abs(endX - startX)) + Square(Abs(endY - startY)))
      * c.extrusionWidth * c.layerHeight * c.nozzleDiameter
  }

  /** The extrusion amount depends on the segment only, not on its direction, and has no leading zero. */
  lemma ExtrusionTextSymmetric(c: ExtruderCfg, host: Host, aX: real, aY: real, bX: real, bY: real)
    ensures ExtrusionText(c, host, aX, aY, bX, bY) == ExtrusionText(c, host, bX, bY, aX, aY)
    ensures var t := ExtrusionText(c, host, aX, aY, bX, bY); t == [] || t[0] != '0'
  {
    assert Abs(bX - aX) == Abs(aX - bX) && Abs(bY - aY) == Abs(aY - bY);
    assert SegmentExtrusion(c, host, aX, aY, bX, bY) == SegmentExtrusion(c, host, bX, bY, aX, aY);
  }

  /** The extruder helper object; `Change` overwrites some of its fields before drawing labels. */
  class Extruder {
    var nozzleDiameter: real
    var extrusionWidth: real
    var layerHeight: real
    var useFirmwareRetraction: int
    var retractLength: real
    var retractSpeed: real

    /** The settings as one value. */
    function Cfg(): ExtruderCfg
      reads this
    {
      ExtruderCfg(nozzleDiameter, extrusionWidth, layerHeight, useFirmwareRetraction, retractLength, retractSpeed)
    }

    constructor ()
      ensures Cfg() == DefaultExtruder
    {
      nozzleDiameter, extrusionWidth, layerHeight := 0.4, 0.42, 0.2;
      useFirmwareRetraction, retractLength, retractSpeed := 0, 0.8, 0.8;
    }

    method CalcExtrusionOnLengthByCoords(host: Host, startX: real, startY: real, endX: real, endY: real)
      returns (length: string)
      ensures length == ExtrusionText(Cfg(), host, startX, startY, endX, endY)
    {
      var l := host.sqrt(Square(Abs(endX - startX)) + Square(Abs(endY - startY)))
        * extrusionWidth * layerHeight * nozzleDiameter;
      assert l == SegmentExtrusion(Cfg(), host, startX, startY, endX, endY);
      length := StripLeadingZeros(host.fixed(l, 5));
    }

    method Retract(host: Host) returns (t: string)
      ensures t == RetractText(Cfg(), host)
    {
      if useFirmwareRetraction == 1 {
        return FirmwareRetract;
      }
      var s := StripLeadingZeros(host.repr(retractLength));
      t := "G1 E-" + s + " F" + host.fixed(retractSpeed * 60.0, 0) + "  ; retract\n";
      assert s == RetractAmount(Cfg(), host) && t == "G1 E-" + s + " F" + RetractFeed(Cfg(), host) + "  ; retract\n";
    }

    method Unretract(host: Host) returns (t: string)
      ensures t == UnretractText(Cfg(), host)
    {
      if useFirmwareRetraction == 1 {
        return FirmwareUnretract;
      }
      var s := StripLeadingZeros(host.repr(retractLength));
      t := "G1 E" + s + " F" + host.fixed(retractSpeed * 60.0, 0) + "  ; unretract\n";
      assert s == RetractAmount(Cfg(), host) && t == "G1 E" + s + " F" + RetractFeed(Cfg(), host) + "  ; unretract\n";
    }
  }
}
