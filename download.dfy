/**
  The download path of eedl.py (the default, non-mosaic run): how many images
  are fetched, which indexes, under which file names, and how each fetch is
  retried. Earth Engine, HTTP and the file system are not modelled; what they
  answer is an `Exchange` handed in for every attempt.
*/
module Download {
  import opened Wrappers
  import opened Text

  predicate IsLandsat(sensor: string) {
    sensor == "l8" || sensor == "l9"
  }

  /** The file extension: GeoTIFF exactly when `--format` is "GEOTiff", PNG for every other value. */
  function Extension(format: string): (ext: string)
    ensures |ext| == 4 && ext[0] == '.'
    ensures ext == ".tif" <==> format == "GEOTiff"
    ensures ext != ".tif" ==> ext == ".png"
  {
    if format == "GEOTiff" then ".tif" else ".png"
  }

  /** `b ** k`: the powers of ten bound numeral lengths, the powers of `backoff` the retry delays. */
  function Pow(b: int, k: nat): int {
    if k == 0 then 1 else b * Pow(b, k - 1)
  }

  /** A number below 10^k has a numeral of at most k digits. */
  lemma {:induction false} NumeralLength(n: nat, k: nat)
    requires 1 <= k && n < Pow(10, k)
    ensures |NatToString(n)| <= k
  {
    if n >= 10 {
      assert Pow(10, k) == 10 * Pow(10, k - 1);
      NumeralLength(n / 10, k - 1);
    }
  }

  /** Width of the index field of a file name. */
  const IndexWidth := 5

  /** Length of the `sensor + '_' + region + '_'` prefix of a file name. */
  function PrefixLength(sensor: string, region: string): nat {
    |sensor| + |region| + 2
  }

  /**
    The name of image `index` without extension:
    `sensor + '_' + region + '_' + str(index).zfill(5)`; the index field is
    exactly five characters long for every index below 100000.
  */
  function OutStem(sensor: string, region: string, index: nat): (s: string)
    ensures |s| >= PrefixLength(sensor, region) + IndexWidth
    ensures index < 100000 ==> |s| == PrefixLength(sensor, region) + IndexWidth
  {
    FieldWidth(index);
    var prefix := sensor + "_" + region + "_";
    prefix + ZFill(NatToString(index), IndexWidth)
  }

  /**
    A name stem is the prefix `sensor + '_' + region + '_'` followed by a
    numeral denoting the index.
  */
  lemma OutStemField(sensor: string, region: string, index: nat)
    ensures OutStem(sensor, region, index)[..PrefixLength(sensor, region)] == sensor + "_" + region + "_"
    ensures var field := OutStem(sensor, region, index)[PrefixLength(sensor, region)..];
      AllDigits(field) && DigitsValue(field) == index
  {
    var prefix := sensor + "_" + region + "_";
    var s := OutStem(sensor, region, index);
    assert s[|prefix|..] == ZFill(NatToString(index), IndexWidth);
    ZFillValue(index, IndexWidth);
  }

  /** Zero-padding to five digits gives exactly five characters below 100000. */
  lemma FieldWidth(index: nat)
    ensures index < 100000 ==> |ZFill(NatToString(index), IndexWidth)| == IndexWidth
  {
    if index < 100000 {
      assert Pow(10, 5) == 100000;
      NumeralLength(index, IndexWidth);
    }
  }

  /** Two images of one run never share a name stem. */
  lemma OutStemInjective(sensor: string, region: string, i: nat, j: nat)
    requires OutStem(sensor, region, i) == OutStem(sensor, region, j)
    ensures i == j
  {
    OutStemField(sensor, region, i);
    OutStemField(sensor, region, j);
  }

  /** The saved file's name: the stem followed by the extension of the format. */
  function OutName(sensor: string, region: string, index: nat, format: string): (name: string)
    ensures |name| == |OutStem(sensor, region, index)| + 4
    ensures name[..|name| - 4] == OutStem(sensor, region, index)
    ensures name[|name| - 4..] == Extension(format)
  {
    OutStem(sensor, region, index) + Extension(format)
  }

  /**
    `region_name`: `--region`, or the `--grid_key` string when `--region` is
    absent; Python's None when neither is given.
  */
  function RegionName(regionArg: Option<string>, gridKeyArg: Option<string>): (r: Option<string>)
    ensures r.None? <==> regionArg.None? && gridKeyArg.None?
    ensures regionArg.Some? ==> r == regionArg
    ensures regionArg.None? ==> r == gridKeyArg
  {
    if regionArg.Some? then regionArg else gridKeyArg
  }

  /**
    The name line of `get_and_download_url`: the file name, or None when
    `region_name` is None and `args.sensor + '_' + region_name` raises TypeError.
  */
  function FileName(sensor: string, region: Option<string>, index: nat, format: string): (name: Option<string>)
    ensures name.None? <==> region.None?
    ensures name.Some? ==> name.value == OutName(sensor, region.value, index, format)
  {
    match region
    case None => None
    case Some(regionName) => Some(OutName(sensor, regionName, index, format))
  }

  /** Distinct indexes are saved under distinct names, so no download overwrites another. */
  lemma OutNameInjective(sensor: string, region: string, i: nat, j: nat, format: string)
    requires OutName(sensor, region, i, format) == OutName(sensor, region, j, format)
    ensures i == j
  {
    var a := OutName(sensor, region, i, format);
    assert a[..|a| - 4] == OutStem(sensor, region, i) == OutStem(sensor, region, j);
    OutStemInjective(sensor, region, i, j);
  }

  /**
    The number of images to fetch. For Landsat, `--maxims` is lowered to the
    size of the filtered collection when that is smaller; Sentinel-2 keeps it.
  */
  function ImageCount(sensor: string, maxIms: int, collectionSize: nat): (r: int)
    ensures IsLandsat(sensor) ==> r <= maxIms && r <= collectionSize
    ensures IsLandsat(sensor) ==> r == maxIms || r == collectionSize
    ensures !IsLandsat(sensor) ==> r == maxIms
  {
    if IsLandsat(sensor) && collectionSize < maxIms then collectionSize else maxIms
  }

  /** `range(max_ims)`: 0, 1, ..., max_ims - 1, and nothing when max_ims is not positive. */
  function Indexes(maxIms: int): (r: seq<nat>)
    ensures |r| == if maxIms > 0 then maxIms else 0
    ensures forall k :: 0 <= k < |r| ==> r[k] == k
  {
    if maxIms <= 0 then [] else Indexes(maxIms - 1) + [maxIms - 1]
  }

  /**
    On Landsat every index addresses an element of `collection.toList(max_ims)`,
    whose length is the smaller of the collection's size and the request.
  */
  lemma LandsatIndexesInList(sensor: string, maxIms: int, collectionSize: nat)
    requires IsLandsat(sensor)
    ensures var idx := Indexes(ImageCount(sensor, maxIms, collectionSize));
      |idx| <= collectionSize
      && forall k :: 0 <= k < |idx| ==> idx[k] < collectionSize && idx[k] < maxIms
  {
  }

  /** The images of one run are written to pairwise distinct files. */
  lemma DownloadNamesDistinct(sensor: string, region: string, format: string, maxIms: int)
    ensures var idx := Indexes(maxIms);
      forall i, j :: 0 <= i < j < |idx| ==>
        OutName(sensor, region, idx[i], format) != OutName(sensor, region, idx[j], format)
  {
    var idx := Indexes(maxIms);
    forall i, j | 0 <= i < j < |idx|
      ensures OutName(sensor, region, idx[i], format) != OutName(sensor, region, idx[j], format)
    {
      if OutName(sensor, region, idx[i], format) == OutName(sensor, region, idx[j], format) {
        OutNameInjective(sensor, region, idx[i], idx[j], format);
      }
    }
  }

  /**
    The `retry` decorator's policy: at most `tries` calls; after a failed call
    that is not the last, sleep `delay` seconds and multiply the delay by
    `backoff`; after the last failed call its error propagates.
  */
  datatype RetryPolicy = RetryPolicy(tries: nat, delay: int, backoff: int)

  /** `@retry(tries=10, delay=1, backoff=2)` on `get_and_download_url`. */
  const DownloadPolicy := RetryPolicy(10, 1, 2)

  /** What a retried call did: its result, how many calls it made, the sleeps in between. */
  datatype Run<T, E> = Run(result: Result<T, E>, attempts: nat, sleeps: seq<int>)

  /**
    The decorator from call number `i` on, the current delay being `delay`;
    `call(k)` is what the k-th call (counted from 0) returns or raises.
  */
  function RetryFrom<T, E>(tries: nat, backoff: int, call: nat -> Result<T, E>, i: nat, delay: int): (r: Run<T, E>)
    requires i < tries
    decreases tries - i
    ensures i < r.attempts <= tries && |r.sleeps| == r.attempts - 1 - i
  {
    if call(i).Ok? || i + 1 == tries then Run(call(i), i + 1, [])
    else
      var rest := RetryFrom(tries, backoff, call, i + 1, delay * backoff);
      Run(rest.result, rest.attempts, [delay] + rest.sleeps)
  }

  /**
    From call `i` on, the decorator stops at the first success or after the
    last allowed call, and returns what that call returned or raised.
  */
  lemma {:induction false} RetryFromOutcome<T, E>(tries: nat, backoff: int, call: nat -> Result<T, E>, i: nat, delay: int)
    requires i < tries
    decreases tries - i
    ensures var r := RetryFrom(tries, backoff, call, i, delay);
      && r.result == call(r.attempts - 1)
      && (forall k :: i <= k < r.attempts - 1 ==> call(k).Err?)
      && (r.result.Err? ==> r.attempts == tries)
  {
    if !(call(i).Ok? || i + 1 == tries) {
      RetryFromOutcome(tries, backoff, call, i + 1, delay * backoff);
    }
  }

  /** From call `i` on, the k-th sleep lasts `delay * backoff^k`. */
  lemma {:induction false} RetryFromSleeps<T, E>(tries: nat, backoff: int, call: nat -> Result<T, E>, i: nat, delay: int)
    requires i < tries
    decreases tries - i
    ensures var r := RetryFrom(tries, backoff, call, i, delay);
      forall k :: 0 <= k < |r.sleeps| ==> r.sleeps[k] == delay * Pow(backoff, k)
  {
    if !(call(i).Ok? || i + 1 == tries) {
      var rest := RetryFrom(tries, backoff, call, i + 1, delay * backoff);
      RetryFromSleeps(tries, backoff, call, i + 1, delay * backoff);
      var sleeps := RetryFrom(tries, backoff, call, i, delay).sleeps;
      assert sleeps == [delay] + rest.sleeps;
      forall k | 1 <= k < |sleeps|
        ensures sleeps[k] == delay * Pow(backoff, k)
      {
        ScaledPower(delay, backoff, k - 1);
        assert sleeps[k] == rest.sleeps[k - 1];
      }
    }
  }

  lemma ScaledPower(d: int, b: int, k: nat)
    ensures (d * b) * Pow(b, k) == d * Pow(b, k + 1)
  {
    assert Pow(b, k + 1) == b * Pow(b, k);
  }

  /**
    A call under a retry policy: it succeeds exactly when one of the first
    `tries` calls succeeds, and then with the first success; otherwise all
    `tries` calls were made and the last one's error is raised. The k-th sleep
    lasts `delay * backoff^k`.
  */
  function Retry<T, E>(p: RetryPolicy, call: nat -> Result<T, E>): (r: Run<T, E>)
    requires 1 <= p.tries
    ensures 1 <= r.attempts <= p.tries && |r.sleeps| == r.attempts - 1
    ensures r.result.Ok? <==> exists k :: 0 <= k < p.tries && call(k).Ok?
    ensures r.result.Ok? ==> r.result == call(r.attempts - 1) && forall k :: 0 <= k < r.attempts - 1 ==> call(k).Err?
    ensures r.result.Err? ==> r.attempts == p.tries && r.result == call(p.tries - 1)
    ensures forall k :: 0 <= k < |r.sleeps| ==> r.sleeps[k] == p.delay * Pow(p.backoff, k)
  {
    RetryFromOutcome(p.tries, p.backoff, call, 0, p.delay);
    RetryFromSleeps(p.tries, p.backoff, call, 0, p.delay);
    var r := RetryFrom(p.tries, p.backoff, call, 0, p.delay);
    assert r.result.Err? ==> forall k :: 0 <= k < p.tries ==> call(k).Err? by {
      if r.result.Err? {
        forall k | 0 <= k < p.tries
          ensures call(k).Err?
        {
          if k < r.attempts - 1 {
          } else {
            assert k == r.attempts - 1;
          }
        }
      }
    }
    r
  }

  /**
    The decorator's loop: the remaining tries count down; a failure that is not
    the last is followed by a sleep of the current delay, which is then
    multiplied by `backoff`; the first success returns at once.
  */
  method RetryLoop<T, E>(p: RetryPolicy, call: nat -> Result<T, E>) returns (run: Run<T, E>)
    requires 1 <= p.tries
    ensures run == Retry(p, call)
  {
    var remaining := p.tries;
    var delay := p.delay;
    var sleeps: seq<int> := [];
    var i: nat := 0;
    while true
      invariant i < p.tries && remaining == p.tries - i
      invariant |sleeps| == i
      invariant var rest := RetryFrom(p.tries, p.backoff, call, i, delay);
        RetryFrom(p.tries, p.backoff, call, 0, p.delay) == Run(rest.result, rest.attempts, sleeps + rest.sleeps)
      decreases remaining
    {
      var outcome := call(i);
      if outcome.Ok? {
        assert RetryFrom(p.tries, p.backoff, call, i, delay) == Run(outcome, i + 1, []);
        assert sleeps + [] == sleeps;
        return Run(outcome, i + 1, sleeps);
      }
      remaining := remaining - 1;
      if remaining == 0 {
        assert RetryFrom(p.tries, p.backoff, call, i, delay) == Run(outcome, i + 1, []);
        assert sleeps + [] == sleeps;
        return Run(outcome, i + 1, sleeps);
      }
      var rest := RetryFrom(p.tries, p.backoff, call, i + 1, delay * p.backoff);
      assert RetryFrom(p.tries, p.backoff, call, i, delay) == Run(rest.result, rest.attempts, [delay] + rest.sleeps);
      assert (sleeps + [delay]) + rest.sleeps == sleeps + ([delay] + rest.sleeps);
      sleeps := sleeps + [delay];
      delay := delay * p.backoff;
      i := i + 1;
    }
  }

  /** The first nine powers of two: the delays of the download policy. */
  lemma DoublingDelays()
    ensures forall k :: 0 <= k < 9 ==> [1, 2, 4, 8, 16, 32, 64, 128, 256][k] == Pow(2, k)
  {
    assert Pow(2, 1) == 2 && Pow(2, 2) == 4 && Pow(2, 3) == 8 && Pow(2, 4) == 16;
    assert Pow(2, 5) == 32 && Pow(2, 6) == 64 && Pow(2, 7) == 128 && Pow(2, 8) == 256;
  }

  /**
    Under the download policy at most ten calls are made and the sleeps between
    them are 1, 2, 4, ..., 256 seconds, 511 seconds at most in total.
  */
  lemma DownloadBackoff<T, E>(call: nat -> Result<T, E>)
    ensures var r := Retry(DownloadPolicy, call);
      && r.attempts <= 10
      && r.sleeps == [1, 2, 4, 8, 16, 32, 64, 128, 256][..r.attempts - 1]
      && Sum(r.sleeps) <= 511
  {
    var r := Retry(DownloadPolicy, call);
    var waits := [1, 2, 4, 8, 16, 32, 64, 128, 256];
    assert r.sleeps == waits[..r.attempts - 1] by {
      DoublingDelays();
    }
    SumPrefix(waits, r.attempts - 1);
    DoublingTotal();
  }

  /** The nine delays add up to 511 seconds. */
  lemma DoublingTotal()
    ensures Sum([1, 2, 4, 8, 16, 32, 64, 128, 256]) == 511
  {
    assert [1, 2, 4, 8, 16, 32, 64, 128, 256][..8] == [1, 2, 4, 8, 16, 32, 64, 128];
    assert [1, 2, 4, 8, 16, 32, 64, 128][..7] == [1, 2, 4, 8, 16, 32, 64];
    assert [1, 2, 4, 8, 16, 32, 64][..6] == [1, 2, 4, 8, 16, 32];
    assert [1, 2, 4, 8, 16, 32][..5] == [1, 2, 4, 8, 16];
    assert [1, 2, 4, 8, 16][..4] == [1, 2, 4, 8];
    assert [1, 2, 4, 8][..3] == [1, 2, 4];
    assert [1, 2, 4][..2] == [1, 2];
    assert [1, 2][..1] == [1];
    assert [1][..0] == [];
  }

  function Sum(s: seq<int>): int {
    if s == [] then 0 else Sum(s[..|s| - 1]) + s[|s| - 1]
  }

  lemma {:induction false} SumPrefix(s: seq<int>, n: nat)
    requires n <= |s| && forall k :: 0 <= k < |s| ==> s[k] >= 0
    ensures Sum(s[..n]) <= Sum(s)
  {
    if n == |s| {
      assert s[..n] == s;
    } else {
      var t := s[..|s| - 1];
      assert t[..n] == s[..n];
      SumPrefix(t, n);
      assert Sum(s) == Sum(t) + s[|s| - 1];
    }
  }

  /** Why one download attempt failed; MissingRegion is the TypeError of `str + None`. */
  datatype Failure = EarthEngineError | MissingRegion | ConnectionError | HttpError(status: int) | WriteError

  /**
    What the outside world answered during one attempt: the download URL (None
    when `get_url` raised), the HTTP status (None when `requests.get` raised)
    and whether the file could be opened and written.
  */
  datatype Exchange = Exchange(url: Option<string>, status: Option<int>, written: bool)

  /** `raise_for_status` raises for client (4xx) and server (5xx) errors only. */
  predicate RaisesForStatus(status: int) {
    400 <= status < 600
  }

  /**
    One call of `get_and_download_url` without its decorator, `name` being the
    file name it builds (None when that raises): the name of the file it saved,
    or why it raised. The URL is fetched before the name is built. A status
    other than 200 fails the attempt only when `raise_for_status` raises for it.
  */
  function DownloadAttempt(name: Option<string>, ex: Exchange): (r: Result<string, Failure>)
    ensures r.Ok? <==> ex.url.Some? && name.Some? && ex.status.Some? && !RaisesForStatus(ex.status.value) && ex.written
    ensures r.Ok? ==> r.value == name.value
    ensures r == Err(EarthEngineError) <==> ex.url.None?
    ensures r == Err(MissingRegion) <==> ex.url.Some? && name.None?
    ensures r == Err(ConnectionError) <==> ex.url.Some? && name.Some? && ex.status.None?
    ensures r.Err? && r.error.HttpError? <==>
      ex.url.Some? && name.Some? && ex.status.Some? && RaisesForStatus(ex.status.value)
    ensures r.Err? && r.error.HttpError? ==> r.error.status == ex.status.value
  {
    if ex.url.None? then Err(EarthEngineError)
    else if name.None? then Err(MissingRegion)
    else if ex.status.None? then Err(ConnectionError)
    else if ex.status.value != 200 && RaisesForStatus(ex.status.value) then Err(HttpError(ex.status.value))
    else if !ex.written then Err(WriteError)
    else Ok(name.value)
  }

  /** A successful status other than 200, such as 204, still writes the file. */
  lemma NoContentIsSaved(name: string, url: string)
    ensures DownloadAttempt(Some(name), Exchange(Some(url), Some(204), true)) == Ok(name)
    ensures DownloadAttempt(Some(name), Exchange(Some(url), Some(404), true)) == Err(HttpError(404))
  {
  }

  /**
    `get_and_download_url(index)` under its decorator, `exchanges(k)` being what
    the k-th attempt met: the file is saved under the image's name as soon as
    one of ten attempts succeeds; after ten failures the tenth failure is raised.
  */
  function GetAndDownload(sensor: string, region: Option<string>, format: string, index: nat, exchanges: nat -> Exchange): (r: Run<string, Failure>)
    ensures r.result.Ok? <==> exists k :: 0 <= k < 10 && DownloadAttempt(FileName(sensor, region, index, format), exchanges(k)).Ok?
    ensures r.result.Ok? ==> region.Some? && r.result.value == OutName(sensor, region.value, index, format)
    ensures r.result.Err? ==>
      r.attempts == 10 && r.result == DownloadAttempt(FileName(sensor, region, index, format), exchanges(9))
    ensures 1 <= r.attempts <= 10 && r.sleeps == [1, 2, 4, 8, 16, 32, 64, 128, 256][..r.attempts - 1]
  {
    var name := FileName(sensor, region, index, format);
    var call: nat -> Result<string, Failure> := (k: nat) => DownloadAttempt(name, exchanges(k));
    assert forall k :: call(k) == DownloadAttempt(name, exchanges(k));
    DownloadBackoff(call);
    Retry(DownloadPolicy, call)
  }

  /**
    Without `--region` and `--grid_key` no file is ever saved: each of the ten
    attempts raises (TypeError once the URL is known), after 511 seconds of
    sleeps in total.
  */
  lemma NoRegionNeverSaves(sensor: string, format: string, index: nat, exchanges: nat -> Exchange)
    ensures var r := GetAndDownload(sensor, RegionName(None, None), format, index, exchanges);
      && r.result.Err? && r.attempts == 10
      && (exchanges(9).url.Some? ==> r.result == Err(MissingRegion))
      && r.sleeps == [1, 2, 4, 8, 16, 32, 64, 128, 256] && Sum(r.sleeps) == 511
  {
    var r := GetAndDownload(sensor, None, format, index, exchanges);
    assert [1, 2, 4, 8, 16, 32, 64, 128, 256][..9] == [1, 2, 4, 8, 16, 32, 64, 128, 256];
    DoublingTotal();
  }

  /**
    `process_map(get_and_download_url, range(max_ims))`: one run per index,
    in index order; `exchanges(i)` is what the attempts for image i met.
  */
  function DownloadAll(sensor: string, region: Option<string>, format: string, maxIms: int, exchanges: nat -> nat -> Exchange): (runs: seq<Run<string, Failure>>)
    ensures |runs| == |Indexes(maxIms)|
    ensures forall i :: 0 <= i < |runs| ==> runs[i] == GetAndDownload(sensor, region, format, i, exchanges(i))
  {
    var idx := Indexes(maxIms);
    seq(|idx|, i requires 0 <= i < |idx| => GetAndDownload(sensor, region, format, idx[i], exchanges(idx[i])))
  }

  /** The files a run saves are pairwise distinct. */
  lemma SavedFilesDistinct(sensor: string, region: Option<string>, format: string, maxIms: int, exchanges: nat -> nat -> Exchange)
    ensures var runs := DownloadAll(sensor, region, format, maxIms, exchanges);
      forall i, j :: 0 <= i < j < |runs| && runs[i].result.Ok? && runs[j].result.Ok? ==>
        runs[i].result.value != runs[j].result.value
  {
    var runs := DownloadAll(sensor, region, format, maxIms, exchanges);
    forall i, j | 0 <= i < j < |runs| && runs[i].result.Ok? && runs[j].result.Ok?
      ensures runs[i].result.value != runs[j].result.value
    {
      if runs[i].result.value == runs[j].result.value {
        OutNameInjective(sensor, region.value, i, j, format);
      }
    }
  }

  /**
    The download run with the region checked first: without a region it fails
    at once, before any attempt, sleep or Earth Engine request; with one it is
    DownloadAll, and every file it saves carries the region in its name.
  */
  function DownloadChecked(sensor: string, region: Option<string>, format: string, maxIms: int, exchanges: nat -> nat -> Exchange)
    : (r: Result<seq<Run<string, Failure>>, Failure>)
    ensures r.Err? <==> region.None?
    ensures r.Err? ==> r.error == MissingRegion
    ensures r.Ok? ==> |r.value| == |Indexes(maxIms)|
    ensures r.Ok? ==> forall i :: 0 <= i < |r.value| && r.value[i].result.Ok? ==>
      r.value[i].result.value == OutName(sensor, region.value, i, format)
  {
    if region.None? then Err(MissingRegion)
    else Ok(DownloadAll(sensor, region, format, maxIms, exchanges))
  }
}
