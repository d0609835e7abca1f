/**
  The geometry decisions of eedl.py: which UTM projection a zone key selects,
  the rectangle `make_rectangle` builds around an already projected point, the
  coordinate reference `get_url` asks for, and the bounds a zone key yields.
*/
module Projection {
  import opened Wrappers
  import opened Text
  import Mgrs
  import Download

  /**
    The projection rule, written out at three places of the program: the band
    letter (last character of the key) compared with 'M' chooses the southern
    (EPSG:327..) or northern (EPSG:326..) UTM base, followed by the rest of the
    key. An empty key raises IndexError, modelled as None; an absent key (None
    in the program) raises as well and is represented by the empty string.
  */
  function UtmProjection(gridKey: string): (r: Option<string>)
    ensures r.None? <==> gridKey == []
    ensures r.Some? ==> |r.value| == |gridKey| + 7 && r.value[..7] == "EPSG:32"
    ensures r.Some? ==> r.value[..8] == if gridKey[|gridKey| - 1] <= 'M' then "EPSG:327" else "EPSG:326"
    ensures r.Some? ==> r.value[8..] == gridKey[..|gridKey| - 1]
  {
    if gridKey == [] then None
    else if gridKey[|gridKey| - 1] <= 'M' then Some("EPSG:327" + gridKey[..|gridKey| - 1])
    else Some("EPSG:326" + gridKey[..|gridKey| - 1])
  }

  /** Appending a two-digit zone to a numeral: `str(100 * p + n) == str(p) + str(n).zfill(2)`. */
  lemma AppendZone(p: nat, n: nat)
    requires 1 <= p && 1 <= n <= 60
    ensures NatToString(100 * p + n) == NatToString(p) + Mgrs.ZoneLabel(n)
  {
    var hi, lo := n / 10, n % 10;
    var q := 10 * p + hi;
    assert NatToString(q) == NatToString(p) + [DigitChar(hi)] by {
      AppendDigit(p, hi);
    }
    assert NatToString(10 * q + lo) == NatToString(q) + [DigitChar(lo)] by {
      AppendDigit(q, lo);
    }
    assert Mgrs.ZoneLabel(n) == [DigitChar(hi), DigitChar(lo)] by {
      TwoDigitLabel(n);
    }
    assert 100 * p + n == 10 * q + lo;
    assert NatToString(p) + [DigitChar(hi)] + [DigitChar(lo)] == NatToString(p) + [DigitChar(hi), DigitChar(lo)];
  }

  /** `str(base + n)` for a UTM base 32600 or 32700 is the base's digits then the two-digit zone. */
  lemma EpsgDigits(n: nat)
    requires 1 <= n <= 60
    ensures NatToString(32600 + n) == "326" + Mgrs.ZoneLabel(n)
    ensures NatToString(32700 + n) == "327" + Mgrs.ZoneLabel(n)
  {
    UtmBases();
    AppendZone(326, n);
    AppendZone(327, n);
  }

  lemma UtmBases()
    ensures NatToString(326) == "326" && NatToString(327) == "327"
  {
    assert NatToString(3) == "3";
    AppendDigit(3, 2);
    AppendDigit(32, 6);
    AppendDigit(32, 7);
  }

  /** A band letter is at most 'M' exactly for the ten southern bands C..M. */
  lemma SouthernBands(b: int)
    requires 0 <= b < |Mgrs.Bands|
    ensures Mgrs.Bands[b] <= 'M' <==> b <= 9
  {
    Mgrs.BandsAreBandChars();
  }

  /** On a key of the table the rule reads the band letter and keeps the two-digit zone. */
  lemma ProjectionOfKey(n: int, b: int)
    requires 1 <= n <= 60 && 0 <= b < |Mgrs.Bands|
    ensures UtmProjection(Mgrs.Key(Mgrs.ZoneId(n, b)))
      == Some((if b <= 9 then "EPSG:327" else "EPSG:326") + Mgrs.ZoneLabel(n))
  {
    var z := Mgrs.ZoneId(n, b);
    Mgrs.LabelledKey(z);
    SouthernBands(b);
    TwoDigitLabel(n);
    var key := Mgrs.Key(z);
    assert key[..|key| - 1] == Mgrs.ZoneLabel(n);
  }

  /** Bands C..M lie south of the equator and N..X north of it, irregular cells included. */
  lemma CellHemisphere(n: int, b: int)
    requires 1 <= n <= 60 && 0 <= b < |Mgrs.Bands|
    requires Mgrs.Lookup(Mgrs.Key(Mgrs.ZoneId(n, b))).Some?
    ensures var box := Mgrs.Lookup(Mgrs.Key(Mgrs.ZoneId(n, b))).value;
      (box.north <= 0 <==> b <= 9) && (box.south >= 0 <==> b >= 10)
  {
    Mgrs.ParseKey(Mgrs.ZoneId(n, b));
  }

  /**
    For every key of the zone table the rule picks the UTM projection of the box's
    hemisphere, with the standard code 32700 + zone (south) or 32600 + zone
    (north); no box straddles the equator, so the choice is never ambiguous.
  */
  lemma ProjectionMatchesHemisphere(n: int, b: int)
    requires 1 <= n <= 60 && 0 <= b < |Mgrs.Bands|
    requires Mgrs.Lookup(Mgrs.Key(Mgrs.ZoneId(n, b))).Some?
    ensures var box := Mgrs.Lookup(Mgrs.Key(Mgrs.ZoneId(n, b))).value;
      && (box.north <= 0 || box.south >= 0)
      && UtmProjection(Mgrs.Key(Mgrs.ZoneId(n, b)))
         == Some("EPSG:" + NatToString(if box.north <= 0 then 32700 + n else 32600 + n))
  {
    CellHemisphere(n, b);
    ProjectionCode(n, b);
  }

  /** On a key of the table the rule yields "EPSG:" + str(32700 + zone) for bands C..M, 32600 + zone otherwise. */
  lemma ProjectionCode(n: int, b: int)
    requires 1 <= n <= 60 && 0 <= b < |Mgrs.Bands|
    ensures UtmProjection(Mgrs.Key(Mgrs.ZoneId(n, b)))
      == Some("EPSG:" + NatToString(if b <= 9 then 32700 + n else 32600 + n))
  {
    var digits := Mgrs.ZoneLabel(n);
    ProjectionOfKey(n, b);
    if b <= 9 {
      calc {
        "EPSG:" + NatToString(32700 + n);
      == { EpsgDigits(n); }
        "EPSG:" + ("327" + digits);
      ==
        "EPSG:327" + digits;
      }
    } else {
      calc {
        "EPSG:" + NatToString(32600 + n);
      == { EpsgDigits(n); }
        "EPSG:" + ("326" + digits);
      ==
        "EPSG:326" + digits;
      }
    }
  }

  /** The scenario of zone 17N: a northern projection and a proper box. */
  lemma Zone17N()
    ensures UtmProjection("17N") == Some("EPSG:32617")
    ensures Mgrs.Lookup("17N") == Some(Mgrs.Box(-84, 0, -78, 8))
  {
    assert "17N"[..2] == "17";
    assert "EPSG:326" + "17" == "EPSG:32617";
    Mgrs.ParseKey(Mgrs.ZoneId(17, 10));
    assert Mgrs.Key(Mgrs.ZoneId(17, 10)) == "17N";
  }

  /** A zero-padded zone keeps its zero: zone 01 gives EPSG:32601 or EPSG:32701. */
  lemma PaddedZone()
    ensures UtmProjection("01C") == Some("EPSG:32701")
    ensures UtmProjection("01M") == Some("EPSG:32701")
    ensures UtmProjection("01N") == Some("EPSG:32601")
  {
    assert "01C"[..2] == "01" && "01M"[..2] == "01" && "01N"[..2] == "01";
    assert "EPSG:327" + "01" == "EPSG:32701" && "EPSG:326" + "01" == "EPSG:32601";
  }

  /** A point already transformed into the zone's planar projection (metres). */
  datatype Point = Point(x: real, y: real)

  /** The arguments of `ee.Geometry.Rectangle`: the corner list [x0, y0, x1, y1] and the projection. */
  datatype Rectangle = Rectangle(coords: seq<real>, proj: string)

  /**
    `make_rectangle`: the vertical half-extent defaults to the horizontal one;
    the corners are taken around the projected centre. The coordinate transform
    itself is not modelled: `center` is its result in the chosen projection.
  */
  function MakeRectangle(gridKey: string, center: Point, hBuffer: real, vBuffer: Option<real>): (r: Option<Rectangle>)
    ensures r.Some? <==> gridKey != []
    ensures r.Some? ==> Some(r.value.proj) == UtmProjection(gridKey)
    ensures r.Some? ==> var c := r.value.coords; var v := if vBuffer.Some? then vBuffer.value else hBuffer;
      && |c| == 4
      && (c[0] + c[2]) / 2.0 == center.x && (c[1] + c[3]) / 2.0 == center.y
      && c[2] - c[0] == 2.0 * hBuffer && c[3] - c[1] == 2.0 * v
      && (c[0] <= c[2] <==> hBuffer >= 0.0) && (c[1] <= c[3] <==> v >= 0.0)
  {
    var v := if vBuffer.None? then hBuffer else vBuffer.value;
    match UtmProjection(gridKey)
    case None => None
    case Some(proj) =>
      var topLeftX := center.x - hBuffer;
      var topLeftY := center.y + v;
      var bottomRightX := center.x + hBuffer;
      var bottomRightY := center.y - v;
      Some(Rectangle([topLeftX, bottomRightY, bottomRightX, topLeftY], proj))
  }

  /** Omitting the vertical half-extent is the same as passing the horizontal one. */
  lemma VerticalDefaultsToHorizontal(gridKey: string, center: Point, h: real)
    ensures MakeRectangle(gridKey, center, h, None) == MakeRectangle(gridKey, center, h, Some(h))
  {
  }

  /** The Sentinel-2 tiles use `make_rectangle(point, 185000/2)`: a 185 km square. */
  lemma LandsatSizedSquare(gridKey: string, center: Point)
    requires gridKey != []
    ensures var r := MakeRectangle(gridKey, center, 185000.0 / 2.0, None).value;
      r.coords[2] - r.coords[0] == 185000.0 && r.coords[3] - r.coords[1] == 185000.0
  {
  }

  /** The coordinate reference `get_url` asks for. */
  datatype Crs = Named(name: string) | NativeOfImage

  /**
    `get_url`'s choice: a non-empty `--crs` wins; Landsat images keep their own
    projection; otherwise the zone's UTM projection (raising without a key).
  */
  function DownloadCrs(crsArg: Option<string>, sensor: string, gridKey: string): (r: Option<Crs>)
    ensures crsArg.Some? && crsArg.value != "" ==> r == Some(Named(crsArg.value))
    ensures (crsArg.None? || crsArg.value == "") && Download.IsLandsat(sensor) ==> r == Some(NativeOfImage)
    ensures (crsArg.None? || crsArg.value == "") && !Download.IsLandsat(sensor) ==>
      (r.Some? <==> gridKey != []) && (r.Some? ==> r == Some(Named(UtmProjection(gridKey).value)))
  {
    if crsArg.Some? && crsArg.value != "" then Some(Named(crsArg.value))
    else if Download.IsLandsat(sensor) then Some(NativeOfImage)
    else match UtmProjection(gridKey)
      case None => None
      case Some(proj) => Some(Named(proj))
  }

  /** The default of `--bounds`: west, south, east, north in degrees. */
  const DefaultBounds: seq<real> := [-84.0, 24.0, -78.0, 32.0]

  /**
    The bounds the program works with: without a zone key, `--bounds` as given
    (DefaultBounds unless the command line sets it); with one, the table entry
    as [west, south, east, north] in floating point, or KeyError (None) for a
    key the table does not have.
  */
  method GridBounds(gridKey: string, cliBounds: seq<real>) returns (bounds: Option<seq<real>>)
    ensures gridKey == [] ==> bounds == Some(cliBounds)
    ensures gridKey != [] ==> (bounds.Some? <==> Mgrs.Lookup(gridKey).Some?)
    ensures gridKey != [] && bounds.Some? ==> var box := Mgrs.Lookup(gridKey).value;
      bounds.value == [box.west as real, box.south as real, box.east as real, box.north as real]
  {
    if gridKey == [] {
      return Some(cliBounds);
    }
    var grid := Mgrs.BuildGrid();
    if gridKey !in grid {
      return None;
    }
    var box := grid[gridKey];
    bounds := Some([box.west as real, box.south as real, box.east as real, box.north as real]);
  }
}
