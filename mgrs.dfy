/**
  The MGRS zone table of getMGRS.py: a dictionary from zone keys such as
  "01C" or "60X" (two-digit longitude zone, latitude-band letter) to integer
  boxes (west, south, east, north) in degrees.

  `Lookup` is the table as MGRS geometry describes it; `BuildGrid` is the
  program's four-step construction (regular grid, band-X overlay, six
  irregular cells, three deletions), proved to produce exactly `Lookup`.
*/
module Mgrs {
  import opened Wrappers
  import opened Text

  const LonStep: int := 6
  const LatStep: int := 8

  /** The latitude-band letters, south to north; I and O are not used. */
  const Bands: seq<char> :=
    ['C', 'D', 'E', 'F', 'G', 'H', 'J', 'K', 'L', 'M',
     'N', 'P', 'Q', 'R', 'S', 'T', 'U', 'V', 'W', 'X']

  /** Band indices of the letters the irregular cells use. */
  const BandV: int := 17
  const BandX: int := 19

  datatype Box = Box(west: int, south: int, east: int, north: int)

  /** A grid cell by longitude-zone number (1..60) and band index (0..19, into Bands). */
  datatype ZoneId = ZoneId(zone: int, band: int)

  predicate ValidZone(z: ZoneId) {
    1 <= z.zone <= 60 && 0 <= z.band < |Bands|
  }

  /** `numpy.arange(start, stop, step)` for integers and a positive step. */
  function Arange(start: int, stop: int, step: int): (r: seq<int>)
    requires step > 0
    ensures forall k :: 0 <= k < |r| ==> r[k] == start + k * step && r[k] < stop
    ensures start + |r| * step >= stop
    ensures |r| > 0 ==> start + (|r| - 1) * step < stop
    decreases stop - start
  {
    if start >= stop then []
    else
      var rest := Arange(start + step, stop, step);
      assert forall k :: 0 <= k < |rest| ==> rest[k] == start + (k + 1) * step by {
        forall k | 0 <= k < |rest| ensures rest[k] == start + (k + 1) * step {
          assert (k + 1) * step == step + k * step;
        }
      }
      assert (|rest| + 1) * step == step + |rest| * step;
      assert |rest| * step == step + (|rest| - 1) * step;
      [start] + rest
  }

  /** `str(n).zfill(2)`: the zone part of a key. */
  function ZoneLabel(n: nat): string {
    ZFill(NatToString(n), 2)
  }

  /** The key of a cell: its zone as two digits, then its band letter. */
  function Key(z: ZoneId): string
    requires ValidZone(z)
  {
    [DigitChar(z.zone / 10), DigitChar(z.zone % 10), Bands[z.band]]
  }

  /** The program writes a key as `str(zone).zfill(2) + letter`, which is Key. */
  lemma LabelledKey(z: ZoneId)
    requires ValidZone(z)
    ensures ZoneLabel(z.zone) + [Bands[z.band]] == Key(z)
  {
    TwoDigitLabel(z.zone);
  }

  /** Arithmetic description of the band alphabet: C..H, then J..N, then P..X. */
  function BandChar(b: nat): char
    requires b < 20
  {
    ('C' as int + b + (if b >= 11 then 2 else if b >= 6 then 1 else 0)) as char
  }

  lemma BandsAreBandChars()
    ensures forall b :: 0 <= b < |Bands| ==> Bands[b] == BandChar(b)
  {
  }

  lemma BandIndexOfBand(b: int)
    requires 0 <= b < |Bands|
    ensures BandIndex(Bands[b]) == Some(b)
  {
    BandsAreBandChars();
  }

  /** The position of a band letter in Bands, if it is one. */
  function BandIndex(c: char): (r: Option<int>)
    ensures r.Some? ==> 0 <= r.value < |Bands| && Bands[r.value] == c
  {
    BandsAreBandChars();
    if 'C' <= c <= 'H' then Some(c as int - 'C' as int)
    else if 'J' <= c <= 'N' then Some(c as int - 'C' as int - 1)
    else if 'P' <= c <= 'X' then Some(c as int - 'C' as int - 2)
    else None
  }

  /** Reads a key back into its cell: exactly three characters, a zone 01..60, a band letter. */
  function Parse(k: string): (r: Option<ZoneId>)
    ensures r.Some? ==> ValidZone(r.value) && Key(r.value) == k
  {
    if |k| == 3 && IsDigit(k[0]) && IsDigit(k[1]) then
      var n := DigitValue(k[0]) * 10 + DigitValue(k[1]);
      assert n / 10 == DigitValue(k[0]) && n % 10 == DigitValue(k[1]);
      assert DigitChar(n / 10) == k[0] && DigitChar(n % 10) == k[1];
      match BandIndex(k[2])
      case None => None
      case Some(b) =>
        if 1 <= n <= 60 then Some(ZoneId(n, b))
        else None
    else None
  }

  /** Every cell's key reads back as that cell, so distinct cells have distinct keys. */
  lemma ParseKey(z: ZoneId)
    requires ValidZone(z)
    ensures Parse(Key(z)) == Some(z)
  {
    BandIndexOfBand(z.band);
  }

  /** The cell the regular 6-by-8-degree grid gives, before any irregularity. */
  function Regular(z: ZoneId): Box {
    Box(-180 + 6 * (z.zone - 1), -80 + 8 * z.band, -180 + 6 * z.zone, -80 + 8 * (z.band + 1))
  }

  /** The band-X cell: 72 to 84 degrees north, 12 degrees tall. */
  function TallX(z: ZoneId): Box {
    Box(-180 + 6 * (z.zone - 1), 72, -180 + 6 * z.zone, 84)
  }

  /** The band-X cells absorbed by their wide neighbours. */
  predicate Absorbed(z: ZoneId) {
    z.band == BandX && (z.zone == 32 || z.zone == 34 || z.zone == 36)
  }

  /** The irregular cells of Norway (31V, 32V) and Svalbard (31X, 33X, 35X, 37X). */
  function Merged(z: ZoneId): Option<Box> {
    if z == ZoneId(31, BandV) then Some(Box(0, 56, 3, 64))
    else if z == ZoneId(32, BandV) then Some(Box(3, 56, 12, 64))
    else if z == ZoneId(31, BandX) then Some(Box(0, 72, 9, 84))
    else if z == ZoneId(33, BandX) then Some(Box(9, 72, 21, 84))
    else if z == ZoneId(35, BandX) then Some(Box(21, 72, 33, 84))
    else if z == ZoneId(37, BandX) then Some(Box(33, 72, 42, 84))
    else None
  }

  /** The box of a cell in the finished table, or None when the cell is absent. */
  function Cell(z: ZoneId): Option<Box> {
    if Absorbed(z) then None
    else if Merged(z).Some? then Merged(z)
    else if z.band == BandX then Some(TallX(z))
    else Some(Regular(z))
  }

  /** The finished table as a partial function on strings: None is Python's KeyError. */
  function Lookup(k: string): Option<Box> {
    match Parse(k)
    case None => None
    case Some(z) => Cell(z)
  }

  /** The keys the program writes literally, read back as cells. */
  lemma IrregularKeys()
    ensures Parse("31V") == Some(ZoneId(31, BandV)) && Parse("32V") == Some(ZoneId(32, BandV))
    ensures Parse("31X") == Some(ZoneId(31, BandX)) && Parse("33X") == Some(ZoneId(33, BandX))
    ensures Parse("35X") == Some(ZoneId(35, BandX)) && Parse("37X") == Some(ZoneId(37, BandX))
    ensures Parse("32X") == Some(ZoneId(32, BandX)) && Parse("34X") == Some(ZoneId(34, BandX))
    ensures Parse("36X") == Some(ZoneId(36, BandX))
  {
    BandIndexOfBand(BandV);
    BandIndexOfBand(BandX);
  }

  /** Position of a cell in the order the regular grid is filled: band by band, zone by zone. */
  function FillOrder(z: ZoneId): int {
    60 * z.band + z.zone - 1
  }

  /** The dictionary holds the regular cells of the first n positions of the fill order, and nothing else. */
  ghost predicate RegularUpTo(grid: map<string, Box>, n: int) {
    && (forall k :: k in grid <==> Parse(k).Some? && FillOrder(Parse(k).value) < n)
    && (forall k :: k in grid ==> grid[k] == Regular(Parse(k).value))
  }

  lemma RegularStep(grid: map<string, Box>, z: ZoneId, key: string, cell: Box)
    requires ValidZone(z) && RegularUpTo(grid, FillOrder(z))
    requires key == Key(z) && cell == Regular(z)
    ensures key !in grid
    ensures RegularUpTo(grid[key := cell], FillOrder(z) + 1)
  {
    ParseKey(z);
    var n := FillOrder(z);
    var next := grid[Key(z) := Regular(z)];
    forall k ensures k in next <==> Parse(k).Some? && FillOrder(Parse(k).value) < n + 1 {
      if k != Key(z) && Parse(k).Some? {
        assert Key(Parse(k).value) == k;
        assert Parse(k).value != z;
      }
    }
    forall k | k in next ensures next[k] == Regular(Parse(k).value) {
    }
  }

  /** The dictionary holds every cell, band X stretched for the first t zones, the rest regular. */
  ghost predicate OverlaidUpTo(grid: map<string, Box>, t: int) {
    && (forall k :: k in grid <==> Parse(k).Some?)
    && (forall k :: k in grid ==>
          grid[k] == if Parse(k).value.band == BandX && Parse(k).value.zone <= t
                     then TallX(Parse(k).value) else Regular(Parse(k).value))
  }

  lemma RegularComplete(grid: map<string, Box>)
    requires RegularUpTo(grid, 1200)
    ensures OverlaidUpTo(grid, 0)
  {
    forall k | Parse(k).Some? ensures k in grid {
      assert FillOrder(Parse(k).value) < 1200;
    }
  }

  lemma OverlayStep(grid: map<string, Box>, z: ZoneId, key: string, cell: Box)
    requires ValidZone(z) && z.band == BandX && OverlaidUpTo(grid, z.zone - 1)
    requires key == Key(z) && cell == TallX(z)
    ensures key in grid
    ensures OverlaidUpTo(grid[key := cell], z.zone)
  {
    ParseKey(z);
    var next := grid[Key(z) := TallX(z)];
    forall k | k in next
      ensures next[k] == if Parse(k).value.band == BandX && Parse(k).value.zone <= z.zone
                         then TallX(Parse(k).value) else Regular(Parse(k).value)
    {
      if k != Key(z) {
        assert Key(Parse(k).value) == k;
        assert Parse(k).value != z;
      }
    }
  }

  /** The overlaid grid with the six irregular cells written over it. */
  function WithMerged(overlaid: map<string, Box>): map<string, Box> {
    overlaid["31V" := Box(0, 56, 3, 64)]["32V" := Box(3, 56, 12, 64)]
            ["31X" := Box(0, 72, 9, 84)]["33X" := Box(9, 72, 21, 84)]
            ["35X" := Box(21, 72, 33, 84)]["37X" := Box(33, 72, 42, 84)]
  }

  /** The overlaid grid with the six irregular cells written over it and the three absorbed keys removed. */
  ghost predicate IrregularApplied(overlaid: map<string, Box>, grid: map<string, Box>) {
    grid == WithMerged(overlaid) - {"32X"} - {"34X"} - {"36X"}
  }

  /** Two well-formed keys are equal exactly when they name the same cell. */
  lemma SameKey(k: string, key: string)
    requires Parse(k).Some? && Parse(key).Some?
    ensures k == key <==> Parse(k) == Parse(key)
  {
    assert Key(Parse(k).value) == k && Key(Parse(key).value) == key;
  }

  /** Keys other than the six irregular ones keep their overlaid box. */
  lemma WithMergedOther(overlaid: map<string, Box>, k: string)
    requires k in overlaid && k !in {"31V", "32V", "31X", "33X", "35X", "37X"}
    ensures k in WithMerged(overlaid) && WithMerged(overlaid)[k] == overlaid[k]
  {
  }

  lemma MergedAt(overlaid: map<string, Box>, k: string)
    requires OverlaidUpTo(overlaid, 60) && Parse(k).Some?
    ensures k in WithMerged(overlaid)
    ensures WithMerged(overlaid)[k] ==
      if Merged(Parse(k).value).Some? then Merged(Parse(k).value).value else overlaid[k]
  {
    var z := Parse(k).value;
    IrregularKeys();
    if Merged(z).None? {
      assert k !in {"31V", "32V", "31X", "33X", "35X", "37X"};
      WithMergedOther(overlaid, k);
    } else {
      assert k == Key(z);
    }
  }

  /** The three deleted keys are exactly the absorbed cells. */
  lemma AbsorbedKey(k: string)
    requires Parse(k).Some?
    ensures k == "32X" || k == "34X" || k == "36X" <==> Absorbed(Parse(k).value)
  {
    IrregularKeys();
    SameKey(k, "32X"); SameKey(k, "34X"); SameKey(k, "36X");
  }

  lemma IrregularAt(overlaid: map<string, Box>, grid: map<string, Box>, k: string)
    requires OverlaidUpTo(overlaid, 60) && IrregularApplied(overlaid, grid)
    ensures k in grid <==> Lookup(k).Some?
    ensures k in grid ==> grid[k] == Lookup(k).value
  {
    if Parse(k).Some? {
      var z := Parse(k).value;
      MergedAt(overlaid, k);
      AbsorbedKey(k);
      assert k in grid <==> !Absorbed(z);
      if k in grid {
        assert grid[k] == WithMerged(overlaid)[k];
        assert overlaid[k] == if z.band == BandX then TallX(z) else Regular(z);
      }
    } else {
      assert k !in overlaid;
    }
  }

  lemma IrregularSize(overlaid: map<string, Box>, grid: map<string, Box>)
    requires "31V" in overlaid && "32V" in overlaid && "31X" in overlaid && "33X" in overlaid
    requires "35X" in overlaid && "37X" in overlaid
    requires "32X" in overlaid && "34X" in overlaid && "36X" in overlaid
    requires IrregularApplied(overlaid, grid)
    ensures |grid| == |overlaid| - 3
  {
    MergedSize(overlaid);
    DeletedSize(WithMerged(overlaid));
  }

  /** Writing the six irregular cells over present keys adds no entry. */
  lemma MergedSize(overlaid: map<string, Box>)
    requires "31V" in overlaid && "32V" in overlaid && "31X" in overlaid && "33X" in overlaid
    requires "35X" in overlaid && "37X" in overlaid
    requires "32X" in overlaid && "34X" in overlaid && "36X" in overlaid
    ensures |WithMerged(overlaid)| == |overlaid|
    ensures "32X" in WithMerged(overlaid) && "34X" in WithMerged(overlaid) && "36X" in WithMerged(overlaid)
  {
  }

  /** The three deletions remove three entries. */
  lemma DeletedSize(written: map<string, Box>)
    requires "32X" in written && "34X" in written && "36X" in written
    ensures |written - {"32X"} - {"34X"} - {"36X"}| == |written| - 3
  {
    var less1 := written - {"32X"};
    RemoveKey(written, "32X");
    assert "34X" in less1;
    var less2 := less1 - {"34X"};
    RemoveKey(less1, "34X");
    assert "36X" in less2;
    RemoveKey(less2, "36X");
  }

  /** `del grid[key]` on a present key removes exactly one entry. */
  lemma RemoveKey(grid: map<string, Box>, key: string)
    requires key in grid
    ensures |grid - {key}| == |grid| - 1
  {
    assert (grid - {key}).Keys == grid.Keys - {key};
  }

  /**
    The six irregular cells and the three deletions turn the overlaid grid into
    the table; every key deleted is present, so no `del` raises.
  */
  lemma Irregularities(overlaid: map<string, Box>, grid: map<string, Box>)
    requires OverlaidUpTo(overlaid, 60) && |overlaid| == 1200 && IrregularApplied(overlaid, grid)
    ensures "32X" in WithMerged(overlaid) && "34X" in WithMerged(overlaid) && "36X" in WithMerged(overlaid)
    ensures forall k :: k in grid <==> Lookup(k).Some?
    ensures forall k :: k in grid ==> grid[k] == Lookup(k).value
    ensures |grid| == 1197
  {
    IrregularKeys();
    assert "31V" in overlaid && "32V" in overlaid && "31X" in overlaid && "33X" in overlaid;
    assert "35X" in overlaid && "37X" in overlaid && "32X" in overlaid && "34X" in overlaid && "36X" in overlaid;
    IrregularSize(overlaid, grid);
    forall k ensures (k in grid <==> Lookup(k).Some?) && (k in grid ==> grid[k] == Lookup(k).value) {
      IrregularAt(overlaid, grid, k);
    }
  }

  /** The axes of the grid: `lons`, `lats`, `lon_labels` and `lat_labels`. */
  method Axes() returns (lons: seq<int>, lats: seq<int>, lonLabels: seq<int>, latLabels: seq<char>)
    ensures |lons| == 60 && forall j :: 0 <= j < 60 ==> lons[j] == -180 + 6 * j
    ensures |lats| == 20 && forall i :: 0 <= i < 20 ==> lats[i] == -80 + 8 * i
    ensures |lonLabels| == 60 && forall j :: 0 <= j < 60 ==> lonLabels[j] == j + 1
    ensures latLabels == Bands
  {
    lons := Arange(-180, 180, LonStep);
    lats := Arange(-80, 80, LatStep);
    lonLabels := Arange(1, 61, 1);
    latLabels := Bands;
  }

  /** `str(zone).zfill(2) + letter`, the key the loops write for the cell of band `b`. */
  method LabelKey(zone: int, letter: char, ghost b: int) returns (key: string)
    requires 1 <= zone <= 60 && 0 <= b < |Bands| && letter == Bands[b]
    ensures key == Key(ZoneId(zone, b))
  {
    LabelledKey(ZoneId(zone, b));
    key := ZoneLabel(zone) + [letter];
  }

  /** One step of the regular grid: `grid[label + letter] = [lon, lat, lon + 6, lat + 8]`. */
  method AddRegular(grid: map<string, Box>, lon: int, lat: int, zone: int, letter: char, ghost z: ZoneId)
    returns (next: map<string, Box>)
    requires ValidZone(z) && zone == z.zone && letter == Bands[z.band]
    requires lon == -180 + 6 * (z.zone - 1) && lat == -80 + 8 * z.band
    requires RegularUpTo(grid, FillOrder(z)) && |grid| == FillOrder(z)
    ensures RegularUpTo(next, FillOrder(z) + 1) && |next| == FillOrder(z) + 1
  {
    var key := LabelKey(zone, letter, z.band);
    var cell := Box(lon, lat, lon + LonStep, lat + LatStep);
    RegularStep(grid, z, key, cell);
    next := grid[key := cell];
  }

  /** The regular grid: one 6-by-8-degree cell per band letter and zone number. */
  method RegularGrid(lons: seq<int>, lats: seq<int>, lonLabels: seq<int>, latLabels: seq<char>)
    returns (grid: map<string, Box>)
    requires |lons| == 60 && forall j :: 0 <= j < 60 ==> lons[j] == -180 + 6 * j
    requires |lats| == 20 && forall i :: 0 <= i < 20 ==> lats[i] == -80 + 8 * i
    requires |lonLabels| == 60 && forall j :: 0 <= j < 60 ==> lonLabels[j] == j + 1
    requires latLabels == Bands
    ensures RegularUpTo(grid, 1200) && |grid| == 1200
  {
    grid := map[];
    ghost var n := 0;  // cells written so far
    for i := 0 to |latLabels|
      invariant n == 60 * i && RegularUpTo(grid, n) && |grid| == n
    {
      for j := 0 to |lonLabels|
        invariant n == 60 * i + j && RegularUpTo(grid, n) && |grid| == n
      {
        grid := AddRegular(grid, lons[j], lats[i], lonLabels[j], latLabels[i], ZoneId(j + 1, i));
        n := n + 1;
      }
    }
  }

  /** Every band-X cell rewritten to span 72 to 84 degrees. */
  method OverlayBandX(grid0: map<string, Box>, lons: seq<int>, lonLabels: seq<int>)
    returns (grid: map<string, Box>)
    requires |lons| == 60 && forall j :: 0 <= j < 60 ==> lons[j] == -180 + 6 * j
    requires |lonLabels| == 60 && forall j :: 0 <= j < 60 ==> lonLabels[j] == j + 1
    requires RegularUpTo(grid0, 1200) && |grid0| == 1200
    ensures OverlaidUpTo(grid, 60) && |grid| == 1200
  {
    grid := grid0;
    RegularComplete(grid);
    for t := 0 to |lonLabels|
      invariant OverlaidUpTo(grid, t) && |grid| == 1200
    {
      var i := lonLabels[t];
      var idx := LabelKey(i, 'X', BandX);
      var cell := Box(lons[i - 1], 72, lons[i - 1] + LonStep, 84);
      ghost var z := ZoneId(i, BandX);
      assert idx == Key(z) && cell == TallX(z) && z.zone - 1 == t;
      OverlayStep(grid, z, idx, cell);
      grid := grid[idx := cell];
    }
  }

  /** `getMGRS()`: the regular grid, the band-X overlay, the irregular cells, the deletions. */
  method BuildGrid() returns (grid: map<string, Box>)
    ensures forall k :: k in grid <==> Lookup(k).Some?
    ensures forall k :: k in grid ==> grid[k] == Lookup(k).value
    ensures |grid| == 1197
  {
    var lons, lats, lonLabels, latLabels := Axes();
    grid := RegularGrid(lons, lats, lonLabels, latLabels);
    grid := OverlayBandX(grid, lons, lonLabels);
    ghost var overlaid := grid;
    grid := grid["31V" := Box(0, 56, 3, 64)];
    grid := grid["32V" := Box(3, 56, 12, 64)];
    grid := grid["31X" := Box(0, 72, 9, 84)];
    grid := grid["33X" := Box(9, 72, 21, 84)];
    grid := grid["35X" := Box(21, 72, 33, 84)];
    grid := grid["37X" := Box(33, 72, 42, 84)];
    grid := grid - {"32X"};
    grid := grid - {"34X"};
    grid := grid - {"36X"};
    Irregularities(overlaid, grid);
  }

  // Properties of the finished table.

  /**
    The keys of the table are exactly `str(n).zfill(2) + letter` for zones 1..60
    and the 20 band letters, except 32X, 34X and 36X.
  */
  lemma TableKeys(n: int, b: int)
    requires 1 <= n <= 60 && 0 <= b < |Bands|
    ensures Lookup(ZoneLabel(n) + [Bands[b]]).Some? <==> !(b == BandX && (n == 32 || n == 34 || n == 36))
  {
    var z := ZoneId(n, b);
    assert Lookup(ZoneLabel(n) + [Bands[b]]) == Cell(z) by {
      LabelledKey(z);
      ParseKey(z);
    }
    assert Cell(z).Some? <==> !Absorbed(z);
  }

  /** Nothing else is a key: every key that looks up a box is one of the labelled cells. */
  lemma OnlyLabelledKeys(k: string)
    requires Lookup(k).Some?
    ensures exists n, b :: 1 <= n <= 60 && 0 <= b < |Bands| && k == ZoneLabel(n) + [Bands[b]]
  {
    var z := Parse(k).value;
    LabelledKey(z);
  }

  /** The absorbed keys are missing, so looking them up raises KeyError. */
  lemma AbsorbedKeysMissing()
    ensures Lookup("32X").None? && Lookup("34X").None? && Lookup("36X").None?
  {
    IrregularKeys();
  }

  /** The six irregular cells hold exactly the values the program writes. */
  lemma IrregularCells()
    ensures Lookup("31V") == Some(Box(0, 56, 3, 64)) && Lookup("32V") == Some(Box(3, 56, 12, 64))
    ensures Lookup("31X") == Some(Box(0, 72, 9, 84)) && Lookup("33X") == Some(Box(9, 72, 21, 84))
    ensures Lookup("35X") == Some(Box(21, 72, 33, 84)) && Lookup("37X") == Some(Box(33, 72, 42, 84))
  {
    IrregularKeys();
  }

  /** Bands C..W away from the irregular cells keep the regular 6-by-8-degree box. */
  lemma RegularCells(n: int, b: int)
    requires 1 <= n <= 60 && 0 <= b < BandX
    requires !(b == BandV && (n == 31 || n == 32))
    ensures Lookup(Key(ZoneId(n, b)))
      == Some(Box(-180 + 6 * (n - 1), -80 + 8 * b, -174 + 6 * (n - 1), -72 + 8 * b))
  {
    ParseKey(ZoneId(n, b));
  }

  /** Band X away from Svalbard spans 72 to 84 degrees, 12 degrees rather than the regular 8. */
  lemma TallBandX(n: int)
    requires 1 <= n <= 60 && n !in {31, 32, 33, 34, 35, 36, 37}
    ensures Lookup(Key(ZoneId(n, BandX)))
      == Some(Box(-180 + 6 * (n - 1), 72, -174 + 6 * (n - 1), 84))
  {
    ParseKey(ZoneId(n, BandX));
  }

  /**
    Every box is proper, 6 degrees wide except the irregular cells, and 8 degrees
    tall except band X, which is 12.
  */
  lemma CellsWellFormed(k: string)
    requires Lookup(k).Some?
    ensures Lookup(k).value.west < Lookup(k).value.east
    ensures Lookup(k).value.south < Lookup(k).value.north
    ensures Merged(Parse(k).value).None? ==> Lookup(k).value.east - Lookup(k).value.west == 6
    ensures Lookup(k).value.north - Lookup(k).value.south == if Parse(k).value.band == BandX then 12 else 8
  {
  }

  /**
    Along every band the present cells tile the row: the east edge of a cell is the
    west edge of the next zone, or of the one after when the next was absorbed.
  */
  lemma RowTiles(n: int, b: int)
    requires 1 <= n < 60 && 0 <= b < |Bands|
    requires Lookup(Key(ZoneId(n, b))).Some?
    ensures Lookup(Key(ZoneId(n + 1, b))).Some? ==>
      Lookup(Key(ZoneId(n + 1, b))).value.west == Lookup(Key(ZoneId(n, b))).value.east
    ensures Lookup(Key(ZoneId(n + 1, b))).None? ==>
      n + 2 <= 60 && Lookup(Key(ZoneId(n + 2, b))).Some? &&
      Lookup(Key(ZoneId(n + 2, b))).value.west == Lookup(Key(ZoneId(n, b))).value.east
  {
    ParseKey(ZoneId(n, b));
    ParseKey(ZoneId(n + 1, b));
    if n + 2 <= 60 {
      ParseKey(ZoneId(n + 2, b));
    }
  }

  /** Every band spans the whole circle, from -180 at zone 01 to 180 at zone 60. */
  lemma RowEnds(b: int)
    requires 0 <= b < |Bands|
    ensures Lookup(Key(ZoneId(1, b))).Some? && Lookup(Key(ZoneId(1, b))).value.west == -180
    ensures Lookup(Key(ZoneId(60, b))).Some? && Lookup(Key(ZoneId(60, b))).value.east == 180
  {
    ParseKey(ZoneId(1, b));
    ParseKey(ZoneId(60, b));
  }

  /** Within a zone the bands stack: the north edge of a band is the south edge of the next. */
  lemma BandsStack(n: int, b: int)
    requires 1 <= n <= 60 && 0 <= b < BandX
    ensures Lookup(Key(ZoneId(n, b))).Some?
    ensures Lookup(Key(ZoneId(n, b + 1))).Some? ==>
      Lookup(Key(ZoneId(n, b + 1))).value.south == Lookup(Key(ZoneId(n, b))).value.north
  {
    ParseKey(ZoneId(n, b));
    ParseKey(ZoneId(n, b + 1));
  }

  /** The irregular cells change only their own keys: every other present cell keeps its overlaid box. */
  lemma OnlyIrregularCellsDiffer(k: string)
    requires Lookup(k).Some?
    requires k !in {"31V", "32V", "31X", "33X", "35X", "37X"}
    ensures Lookup(k).value == if Parse(k).value.band == BandX then TallX(Parse(k).value) else Regular(Parse(k).value)
  {
    IrregularKeys();
    SameKey(k, "31V"); SameKey(k, "32V"); SameKey(k, "31X");
    SameKey(k, "33X"); SameKey(k, "35X"); SameKey(k, "37X");
    assert Merged(Parse(k).value).None?;
  }
}
