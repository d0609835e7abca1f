# Earth Engine download helper: MGRS zone table and decision rules

This project models the deterministic core of a small Earth Engine image
downloader in Dafny:

- `getMGRS.py` builds the MGRS zone table. This is a dictionary from zone keys
  ("01C" … "60X": a two-digit longitude zone, then a latitude-band letter) to
  integer boxes (west, south, east, north) in degrees.
- `eedl.py` uses that table and a handful of decision rules:
  - which UTM projection a zone key selects (the same rule written out three
    times);
  - the rectangle built around a projected point;
  - the coordinate reference a download asks for;
  - how many images are fetched and under which file names;
  - the retry policy of each download;
  - the export-task loop and the loop that polls the export tasks.

Modules:

- `Wrappers` holds `Option` and `Result`.
- `Text` holds `str(n)` and `str.zfill` for non-negative integers, with the
  values of numerals.
- `Mgrs` holds the zone table. `Lookup` is the table as MGRS geometry describes
  it: the regular 6°×8° grid, band X stretched to 72–84°, the Norway and
  Svalbard cells, and 32X/34X/36X absent. `BuildGrid` is the program's
  four-step construction over a `map`, written with loops, and is proved to
  produce exactly `Lookup`.
- `Projection` holds the EPSG rule, `make_rectangle`, the `crs` choice of
  `get_url`, and the bounds a zone key gives.
- `Download` holds:
  - the region name, the file extension and the file name;
  - the Landsat clamp of `max_ims` and `range(max_ims)`;
  - the `retry` decorator, as a specification function and as its loop;
  - one download attempt and the whole download map.
- `Export` holds the export-task loop and the task-poll guard, both as written
  and as intended.

Earth Engine, pyproj, HTTP and the file system are outside the model. What
they return is passed in as data:

- the projected centre point;
- the collection size;
- for every attempt, an `Exchange`: the URL (or its failure), the HTTP status
  (or a connection failure) and whether the file was written;
- for every poll round, the states `task.status()` reported.

Points where the code's behaviour is easy to misread, and which the model
follows as written:

- **Order of the table edits.** The code writes the six irregular cells first
  and deletes 32X, 34X and 36X afterwards; `Mgrs.BuildGrid` does the same.
- **The 'M' band.** The band comparison is `<= 'M'` on characters, so band M
  is southern (`Projection.SouthernBands`).
- **Non-200 responses.** A non-200 response fails an attempt only when
  `raise_for_status` raises, which it does for 4xx and 5xx. Any other status,
  such as 204, is saved as a success (`Download.NoContentIsSaved`).
- **Rectangle corners.** The corner list passed to `ee.Geometry.Rectangle` is
  not normalised. Min ≤ max holds exactly when the half-extents are
  non-negative (`Projection.MakeRectangle`).
- **Bounds without a zone key.** The table is consulted only when a zone key
  is given; otherwise `--bounds` is used as given (`Projection.GridBounds`).
- **Sentinel-2 image count.** Only the Landsat branch clamps `max_ims`;
  Sentinel-2 keeps the requested count (`Download.ImageCount`).
- **After ten failed attempts** the error of the tenth attempt propagates out
  of the decorated function (`Download.Retry`).
- **No region name.** Without `--region` and `--grid_key` the region name is
  None, and building a file name raises inside every attempt (see Findings).

## Model

| member | source | states |
|---|---|---|
| Mgrs.Arange | getMGRS.py:20-22 | `np.arange(start, stop, step)` for a positive step: element k is start + k·step, every element is below stop, and the range stops at the first value that reaches stop |
| Mgrs.Axes | getMGRS.py:20-24 | lons = −180, −174, …, 174 (60 values); lats = −80, −72, …, 72 (20 values); lon labels 1..60; the 20 band letters C..X without I and O |
| Mgrs.LabelledKey | getMGRS.py:28 | `str(zone).zfill(2) + letter` is the three-character key: two zone digits, then the band letter |
| Mgrs.BandIndex | getMGRS.py:23-24 | a letter found in the band alphabet is reported with its position, and that position holds the letter |
| Mgrs.LabelKey | getMGRS.py:28 | the key each loop step writes, `str(zone).zfill(2) + letter`, is the key of the cell at that zone and band |
| Mgrs.ParseKey | getMGRS.py:28 | each cell's key reads back as that cell, so distinct cells never share a key |
| Mgrs.AddRegular | getMGRS.py:28-29 | one write of the nested loops adds a new key, the next cell in band-then-zone order, with its regular 6°×8° box, and nothing else |
| Mgrs.RegularGrid | getMGRS.py:25-29 | after the nested loops the dictionary holds exactly the 1200 regular cells: key of (zone, band) ↦ (−180+6(zone−1), −80+8·band, −174+6(zone−1), −72+8·band) |
| Mgrs.OverlayBandX | getMGRS.py:31-33 | the loop rewrites every band-X entry to 72–84° with the zone's longitudes, leaves every other entry as it was, and keeps 1200 entries |
| Mgrs.Irregularities | getMGRS.py:34-42 | the six writes and three deletions turn the overlaid grid into the table; every deleted key was present, so no `del` raises; 1197 entries remain |
| Mgrs.AbsorbedKey | getMGRS.py:40-42 | the three deleted keys are exactly the keys of the cells 32X, 34X and 36X |
| Mgrs.MergedSize | getMGRS.py:34-39 | the six irregular writes overwrite present keys, so no entry is added, and 32X, 34X and 36X are still present for the deletions |
| Mgrs.RemoveKey | getMGRS.py:40-42 | `del` of a present key removes exactly one entry |
| Mgrs.DeletedSize | getMGRS.py:40-42 | the three deletions of present keys remove three entries |
| Mgrs.BuildGrid | getMGRS.py:14-43 | `getMGRS()` returns a dictionary whose keys are exactly the keys `Lookup` knows, with `Lookup`'s boxes as values, 1197 entries |
| Mgrs.TableKeys | getMGRS.py:26-42 | `zfill2(n) + letter` is a key for every zone 1..60 and band letter, except 32X, 34X and 36X |
| Mgrs.OnlyLabelledKeys | getMGRS.py:26-29 | every key of the table has the form `zfill2(n) + letter` for a zone 1..60 and a band letter |
| Mgrs.AbsorbedKeysMissing | getMGRS.py:40-42 | looking up 32X, 34X or 36X fails (KeyError) |
| Mgrs.IrregularCells | getMGRS.py:34-39 | 31V = (0,56,3,64), 32V = (3,56,12,64), 31X = (0,72,9,84), 33X = (9,72,21,84), 35X = (21,72,33,84), 37X = (33,72,42,84) |
| Mgrs.RegularCells | getMGRS.py:20-29 | for bands C..W, away from 31V/32V, the entry is (−180+6(j−1), −80+8i, −174+6(j−1), −72+8i) |
| Mgrs.TallBandX | getMGRS.py:31-33 | outside the Svalbard zones 31..37, band X spans south 72 to north 84 with the regular longitudes |
| Mgrs.CellsWellFormed | getMGRS.py:28-39 | every box has west < east and south < north; it is 6° wide unless irregular, and 8° tall except band X, which is 12° |
| Mgrs.RowTiles | getMGRS.py:28-39 | along a band, a cell's east edge is the west edge of the next present zone; after an absorbed zone, that is the zone after it (31V/32V cover 0–12; 31X…37X cover 0–42) |
| Mgrs.RowEnds | getMGRS.py:20-29 | every band starts at −180 at zone 01 and ends at 180 at zone 60 |
| Mgrs.BandsStack | getMGRS.py:21-29 | within a zone, a band's north edge is the next band's south edge |
| Mgrs.OnlyIrregularCellsDiffer | getMGRS.py:34-39 | apart from the six irregular keys, every present entry keeps its overlaid value (regular, or 72–84° in band X) |
| Text.NumeralValue | eedl.py:215 | `str(n)` is a string of decimal digits that denotes n, with no leading zero |
| Text.ZFill | eedl.py:215 | `zfill(width)` pads with leading '0' to at least `width` characters and never truncates: the original string is the suffix |
| Text.ZFillValue | eedl.py:215 | a zero-padded numeral still denotes the number it padded |
| Text.ZFillInjective | eedl.py:215 | padding numerals to a fixed width never maps two numbers to the same string |
| Projection.UtmProjection | eedl.py:147-150 | an empty key fails; otherwise "EPSG:327" + the key without its last character when that character is ≤ 'M', and "EPSG:326" + the same otherwise |
| Projection.SouthernBands | eedl.py:147 | the band letter is ≤ 'M' exactly for bands C..M (indices 0..9); M is southern |
| Projection.EpsgDigits | eedl.py:148-150 | for zone n, "326"/"327" followed by the two-digit zone is the numeral of 32600+n / 32700+n |
| Projection.ProjectionOfKey | eedl.py:178-181 | on a table key, the rule keeps the two-digit zone and chooses the base from the band index |
| Projection.CellHemisphere | eedl.py:147-150 | every box of bands C..M lies south of the equator and every box of bands N..X north of it, irregular cells included |
| Projection.ProjectionCode | eedl.py:178-181 | on a table key the rule yields "EPSG:" + str(32700+zone) for bands C..M and "EPSG:" + str(32600+zone) for bands N..X |
| Projection.ProjectionMatchesHemisphere | eedl.py:329-332 | for every key in the table, no box straddles the equator, and the rule yields "EPSG:" + str(32700+zone) for a southern box and "EPSG:" + str(32600+zone) for a northern one |
| Projection.Zone17N | eedl.py:147-150 | key 17N gives EPSG:32617, and its box is (−84, 0, −78, 8) |
| Projection.PaddedZone | eedl.py:147-150 | a zero-padded zone keeps its zero: 01C and 01M give EPSG:32701, 01N gives EPSG:32601 |
| Projection.MakeRectangle | eedl.py:143-158 | corners [x−h, y−v, x+h, y+v] in the key's projection; centred on the point; 2h wide and 2v tall; min ≤ max on an axis exactly when its half-extent is ≥ 0; fails without a key |
| Projection.VerticalDefaultsToHorizontal | eedl.py:143-144 | omitting the vertical half-extent is the same as passing the horizontal one |
| Projection.LandsatSizedSquare | eedl.py:309 | `make_rectangle(point, 185000/2)` is a 185000 m square |
| Projection.DownloadCrs | eedl.py:172-181 | a non-empty `--crs` wins; otherwise Landsat keeps the image's own projection; otherwise the zone's UTM projection, failing without a key |
| Projection.GridBounds | eedl.py:264-268 | without a zone key the `--bounds` given (default [−84, 24, −78, 32]) are kept unchanged; with one, the key's box as [west, south, east, north], and an unknown key raises KeyError |
| Download.Extension | eedl.py:211-214 | ".tif" exactly when the format is "GEOTiff" (case-sensitive), ".png" for every other format |
| Download.FieldWidth | eedl.py:215 | for an index below 100000, `str(index).zfill(5)` is exactly five characters |
| Download.OutStem | eedl.py:345 | the name stem is at least prefix + 5 characters long, and exactly that long for indexes below 100000 |
| Download.OutStemField | eedl.py:215 | the stem is `sensor + '_' + region + '_'` followed by a numeral that denotes the index |
| Download.OutStemInjective | eedl.py:345 | two export tasks of one run with different indexes never share a name |
| Download.OutName | eedl.py:211-215 | the file name is the stem followed by the format's extension |
| Download.RegionName | eedl.py:247-260 | `region_name` is `--region` when given, otherwise the `--grid_key` string; it is None exactly when neither is given |
| Download.FileName | eedl.py:215 | the file name is built exactly when the region name is defined, and is then `OutName` of the sensor, region, index and format |
| Download.OutNameInjective | eedl.py:215 | for fixed sensor, region and format, the file name is injective in the index |
| Download.ImageCount | eedl.py:290-295 | Landsat: the count is `min(maxims, collection_size)`, i.e. at most both and equal to one of them; Sentinel-2: `maxims` unchanged |
| Download.Indexes | eedl.py:359 | `range(max_ims)` is 0, 1, …, max_ims−1, and empty when max_ims ≤ 0 |
| Download.LandsatIndexesInList | eedl.py:292-295 | on Landsat every index is below the collection size and below `maxims`, so it addresses an element of `collection.toList(max_ims)` |
| Download.DownloadNamesDistinct | eedl.py:359-361 | the indexes of one run are written to pairwise distinct file names |
| Download.RetryFrom | eedl.py:193 | the decorator from attempt i makes at least one and at most `tries − i` calls, with one sleep between consecutive calls |
| Download.RetryFromOutcome | eedl.py:193 | from attempt i the decorator stops at the first success or after the last try; every earlier attempt failed; the result is that of the last attempt made |
| Download.RetryFromSleeps | eedl.py:193 | from attempt i, sleep k lasts delay·backoff^k |
| Download.Retry | eedl.py:193-197 | success exactly when one of the first `tries` attempts succeeds, and then with the first success; otherwise all `tries` attempts were made and the last error propagates; one sleep between consecutive attempts |
| Download.RetryLoop | eedl.py:193 | the decorator's counting-down loop with a multiplying delay computes exactly `Retry` |
| Download.DoublingDelays | eedl.py:193 | the delays 1, 2, 4, …, 256 are the powers 2^0 … 2^8 |
| Download.DoublingTotal | eedl.py:193 | the nine sleeps 1, 2, 4, …, 256 add up to 511 seconds |
| Download.DownloadBackoff | eedl.py:193-197 | under `tries=10, delay=1, backoff=2`: at most 10 attempts; the sleeps are a prefix of 1, 2, 4, …, 256; at most 511 s in total |
| Download.DownloadAttempt | eedl.py:206-221 | one attempt saves the file exactly when the URL is obtained, the file name can be built, the request and the write succeed and the status is not 4xx/5xx; each failure is reported with its cause, in the order the code meets them |
| Download.NoContentIsSaved | eedl.py:216-218 | status 204 is saved as a success; status 404 fails with an HTTP error |
| Download.GetAndDownload | eedl.py:193-221 | the decorated download saves the image's file, named after the defined region, exactly when one of ten attempts succeeds; after ten failures the tenth attempt's failure propagates; the sleeps are a prefix of 1, 2, …, 256 |
| Download.NoRegionNeverSaves | eedl.py:215 | with neither `--region` nor `--grid_key`, every image fails all ten attempts (with TypeError once the URL is known) after 511 s of sleeps |
| Download.DownloadAll | eedl.py:359-361 | one download run per index of `range(max_ims)`, in index order |
| Download.DownloadChecked | eedl.py:359-361 | the download run with the region checked first: it fails at once exactly when there is no region name; otherwise one run per index, each saved file named after the region and its index |
| Download.SavedFilesDistinct | eedl.py:359-361 | the files saved by one run are pairwise distinct |
| Export.Tasks | eedl.py:333-354 | the task list has one task per sampled point |
| Export.TasksAt | eedl.py:333-354 | task i is the one configured for point i |
| Export.BuildExportTasks | eedl.py:328-355 | fails without a key; otherwise one task per point, each with the point's rectangle, the zone's projection, the format and the folder, named after its position; no two tasks share a name |
| Export.ProjectionSitesAgree | eedl.py:329-332 | the projection of `make_rectangle`, the `crs` of `get_url` (no `--crs`, not Landsat) and the export task's `crs` are the same string |
| Export.AsWrittenWaitsOnlyOnRace | eedl.py:368 | the guard as written holds exactly when some task's first status query returned READY and the second returned RUNNING |
| Export.StableStatesNeverWait | eedl.py:368 | when both queries of every task agree, the guard as written is false |
| Export.AnsweredTwice | eedl.py:368 | one observation per task, with both queries answering that task's state |
| Export.GuardAsWrittenNeverHolds | eedl.py:368 | for every list of task states, the empty one included, the guard as written is false |
| Export.PollGuardMeansPending | eedl.py:368 | the intended guard holds exactly when some task is READY or RUNNING |
| Export.FirstStates | eedl.py:368 | the states the first query of each task reported |
| Export.AsWrittenWaitsLess | eedl.py:368 | whenever the guard as written waits, the intended one waits too; a single RUNNING task makes the intended guard wait but not the guard as written |
| Export.WaitAsWritten | eedl.py:368-370 | the loop as written sleeps once per round whose guard holds and stops at the first round where it fails; with stable states it stops at once, without sleeping |
| Export.WaitForTasks | eedl.py:368-370 | the intended loop sleeps only while some task is READY or RUNNING and stops at the first round where none is |

## Findings

| source | as written | input that shows it | evidently intended | confidence | as-written member | corrected member |
|---|---|---|---|---|---|---|
| eedl.py:215 | `args.sensor + '_' + region_name + ...` with `region_name` None (neither `--region` nor `--grid_key` given, eedl.py:236, 247-248, 260) raises TypeError inside every attempt; `retry` repeats it ten times per image and then raises, so the default run saves no file | `eedl.py` run without arguments: bounds default to [−84, 24, −78, 32], the URL is fetched, then the name line raises | every saved file is named after a defined region; a run without one should stop before downloading instead of retrying each image ten times | not executed | Download.NoRegionNeverSaves | Download.DownloadChecked |
| eedl.py:368 | the guard `not all(s != 'READY' or s != 'RUNNING' ...)` over the tasks is false whenever a task's two status queries agree, so the loop never sleeps and "All tasks completed" is printed while tasks still run | one task that reports RUNNING: the clause is `'RUNNING' != 'READY' or …`, which is true, so the loop ends at once | loop while any task is READY or RUNNING (`and` instead of `or`) | not executed | Export.WaitAsWritten | Export.WaitForTasks |

## Left out

- Earth Engine calls are not modelled: collection filtering, `getDownloadURL`, `ee.batch.Export`, `task.start`, `task.status`, the point sampling and the mosaics. Their results are inputs: the collection size, the `Exchange` of each attempt, the sampled points and the polled states.
- The `pyproj` transform at eedl.py:152-153 is not modelled. It is a foreign call with floating-point numerics; `MakeRectangle` takes the projected centre as given.
- Floating point is modelled as exact `real` arithmetic.
- Projection.MakeRectangle: models the corner list passed to `ee.Geometry.Rectangle`. The geodesic rectangle Earth Engine builds from it and its `.bounds()` (eedl.py:158) are Earth Engine calls and are not modelled.
- HTTP streaming, file writes and the exists-then-`makedirs` check (eedl.py:208-210, 216-220) are I/O. They appear only as the outcome of an attempt.
- `process_map` runs the downloads with `cpu_count()` workers. The concurrency and the order in which downloads complete are not modelled, and neither is what happens to the other workers when one run raises. `Download.DownloadAll` gives the runs in index order.
- Radiometric scaling (`multiply(255/0.3)`, `0.0001`), the Sentinel-2 mosaic and the NumPy random seeding (eedl.py:274-306) are not modelled. They are server-side, floating-point or random.
- The command-line parsing (eedl.py:223-249) and the `__main__` printing of getMGRS.py are not modelled, apart from the fallback of the region name to the zone key (`Download.RegionName`). Outside `Download.RegionName`, an absent `--grid_key` is represented by the empty string: both an absent and an empty key raise at `grid_key[-1]`, and neither is looked up in the table. `Download.RegionName` keeps the two apart, because only an absent key leaves the region name None.
- Download.ImageCount: covers the default (non-mosaic) run only. In the mosaic run `max_ims` is passed unclamped to the point sampling, which is not modelled.
- Download.Retry: requires at least one try. The `retry` package also accepts `tries=-1` (retry forever) and a jitter and a maximum delay, none of which this program uses. The `retry` package itself is not part of this model; its documented loop is modelled by `Download.RetryLoop`.
- Export.WaitAsWritten: the polling loop can run forever. The model walks through a given finite sequence of poll rounds, and `done = false` means the rounds ran out before the loop ended. The same holds for `Export.WaitForTasks`.
- Text.ZFill: only models `zfill` on unsigned digit strings. The sign handling of `str.zfill` is not needed, because every index is non-negative.
