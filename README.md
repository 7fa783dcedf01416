# SDSS batch downloader — a Dafny model

`download_sdss_data.py` reads a catalogue of objects from a CSV file. For
each row it fetches the object's spectrum from the SDSS Science Archive
Server and its image cutout from SkyServer. Files are sorted into one
folder per M-type subclass (`M0` … `M9`), with an `Unknown` folder for
everything else.

This project models that script:

- **Naming rules** (module `Naming`, helpers in `Text` and `Paths`):
  - the subclass-to-folder rule (`Bucket`);
  - the fixed-width spectrum file name `spec-{plate:04d}-{mjd:5d}-{fiberID:04d}.fits`, together with Python's `str.strip`, `int` formatting and `os.path.join`/`dirname`;
  - the image file name and the destination paths;
  - the four archive URLs and the cutout URL.
- **Download procedure** (module `Downloader`):
  - `download_file` and its boolean result;
  - the four `if not downloaded_spectrum` attempts;
  - the per-row procedure: skip-if-exists, skipping rows whose identifiers do not convert, and image gating;
  - the loop over the rows;
  - the loading and column checks that precede the loop.
- **Properties across calls** (module `Properties`).

The file system is a set of existing paths. The network and the disk are a
`World` value that says:

- whether a folder can be created;
- how fetching a URL into a path ends: complete, a `RequestException`, or an uncaught `OSError` from `open`/`write`. For the two errors it also records whether the file had already been opened.

What a run does is recorded as a trace of `download_file` calls and
`time.sleep` pauses. An uncaught `OSError` ends the script, and the model
marks the state as crashed.

Each step of the script is first defined as a function. The functions are
`Download`, `TryCandidates`, `SpectrumStep`, `ImageStep`, `RowEffect`,
`RunEffect` and `Load`. The statements of the script are then written out as
methods, each proved to compute exactly its function:

- `DownloadFile`;
- `TryArchives`, the four literal fallbacks;
- `FetchSpectrum`;
- `FetchImage`;
- `ProcessRow`;
- `DownloadAll`, the row loop with its invariant;
- `RunScript`.

The lemmas in `Properties` state what the script promises of those
functions.

The subclass pattern is the one at download_sdss_data.py:98, `^M[0-9]$`:
only `M` followed by one digit gets a folder of its own, so `K5` goes to
`Unknown` (`OtherLetterBucketExample`). Python's `$` also
matches before a final newline, but `strip` has already removed any such
newline, so `BucketSpec` states the rule as "exactly `M` and one digit
after stripping".

## Model

| member | source | states |
|---|---|---|
| Text.Strip | download_sdss_data.py:92 | the result is the input without its leading and trailing whitespace, using Python's `isspace` set: a slice of the input that starts and ends with non-whitespace, with only whitespace cut on either side |
| Text.ZeroPadRoundTrip | download_sdss_data.py:124 | reading back the text `{n:0<width>d}` (sign, then zeros, then digits) gives `n`, for every integer including negatives |
| Text.FormatIntRoundTrip | download_sdss_data.py:124 | reading back `str(n)` gives `n` |
| Text.SpacePadStrips | download_sdss_data.py:124 | `{n:<width>d}` is `str(n)` with only blanks in front of it |
| Text.ZeroPadShape | download_sdss_data.py:124 | `{n:0<width>d}` is the sign, then only zeros, then the digits of abs(n) |
| Text.SpacePadShape | download_sdss_data.py:124 | `{n:<width>d}` is blanks followed by `str(n)` |
| Paths.Join | download_sdss_data.py:126 | `os.path.join`: an absolute second part replaces the first; a relative one follows the first directly when the first is empty or ends in '/', and after one added '/' otherwise; the second part always ends the result |
| Paths.DirName | download_sdss_data.py:30 | `os.path.dirname` gives a prefix of the path, and it is empty exactly when the path has no '/' |
| Paths.DirNameOfJoin | download_sdss_data.py:30 | for a non-empty folder `d` that does not end in '/' and a file name `f` without '/', the folder of `join(d, f)` is `d` again |
| Naming.Bucket | download_sdss_data.py:92-105 | the folder for a subclass label; its contract is stated by `BucketSpec` and `BucketIsFolderName` |
| Naming.BucketSpec | download_sdss_data.py:92-105 | the folder is the stripped subclass exactly when that is `M` plus one digit, and `Unknown` otherwise (including blanks, `Unknown` and other letters) |
| Naming.BucketIsFolderName | download_sdss_data.py:92-105 | every folder is a non-empty single path component |
| Naming.SpectrumFileName | download_sdss_data.py:124 | the spectrum file name starts with `spec-` and ends with `.fits` |
| Naming.SpectrumFileNameRoundTrip | download_sdss_data.py:124 | the file name can be read back into exactly the plate, MJD and fiber it was made from |
| Naming.SpectrumFileNameInjective | download_sdss_data.py:124 | two spectra share a file name only if plate, MJD and fiber all agree |
| Naming.SpectrumFileNameExample | download_sdss_data.py:124 | plate 266, MJD 51602, fiber 1 gives `spec-0266-51602-0001.fits` |
| Naming.ZeroPadNeverTruncates | download_sdss_data.py:124 | a plate or fiber of five digits or more is written in full, without padding |
| Naming.ImageFileName | download_sdss_data.py:173 | the image file name ends with `_image.jpg` |
| Naming.ImageFileNameRoundTrip | download_sdss_data.py:173 | the object's name reads back from the part before `_image.jpg` |
| Naming.ImageFileNameInjective | download_sdss_data.py:173 | two objects share an image file name only if their names are equal |
| Naming.SpectrumCandidates | download_sdss_data.py:120-155 | exactly four locations, each ending in `/spectra/<plate 04d>/<file>` |
| Naming.SpectrumCandidatesDistinct | download_sdss_data.py:120-155 | the four locations are pairwise different |
| Naming.ImageUrl | download_sdss_data.py:177-179 | the cutout request is the release's `getjpeg?ra=` endpoint, then the row's `ra`, `&dec=`, its `dec` and `&scale=`, and it ends with `&opt=` |
| Naming.PaddedCodeBucketExample | download_sdss_data.py:92-105 | the label " M4 " goes to folder `M4` |
| Naming.OtherLetterBucketExample | download_sdss_data.py:98-100 | the label `K5` goes to `Unknown` |
| Naming.ShippedSpectrumPath | download_sdss_data.py:126 | with the shipped settings a spectrum is saved as `spectra/<folder>/<file>` |
| Naming.ShippedImagePath | download_sdss_data.py:173 | with the shipped settings an image is saved as `images/<folder>/<name>_image.jpg` |
| Naming.DestinationsAreSeparate | download_sdss_data.py:126-173 | a row's spectrum path (line 126) and image path (line 173) never coincide, and each is written into `<root>/<folder>` |
| Naming.FileNamesHaveNoSlash | download_sdss_data.py:124 | neither the spectrum file name nor the image file name of line 173 contains a '/' |
| Downloader.Download | download_sdss_data.py:26-48 | one call is recorded; the result is true exactly when the folder exists or can be made and the fetch completes; on true the file exists; the script crashes exactly on an `open`/`write` error; existing paths are never removed, and the only paths that can appear are the file and its folder; when the folder cannot be made, nothing is created; a request that fails after the file was opened leaves the file in place |
| Downloader.DownloadFile | download_sdss_data.py:26-48 | the statements of `download_file` compute `Download` |
| Downloader.TryArchives | download_sdss_data.py:133-158 | the four `if not downloaded_spectrum` blocks compute `TryCandidates`: in order, stopping at the first success or crash |
| Downloader.FetchSpectrum | download_sdss_data.py:111-165 | the spectrum block computes `SpectrumStep`: an existing file is success with no request; otherwise a search, then a 0.5 s or 0.2 s pause |
| Downloader.FetchImage | download_sdss_data.py:169-186 | the image block computes `ImageStep` |
| Downloader.ProcessRow | download_sdss_data.py:88-189 | the loop body computes `RowEffect`, including the skip of a row whose identifiers do not convert |
| Downloader.DownloadAll | download_sdss_data.py:88 | the loop over the rows computes `RunEffect` and stops at an uncaught error |
| Downloader.CrashedRunIsStuck | download_sdss_data.py:41-43 | after an uncaught error, no further row does anything |
| Downloader.RequiredColumns | download_sdss_data.py:77-79 | a column is required exactly when it is `name`, `ra`, `dec` or `subclass`, or when spectra are on and it is `plate`, `mjd` or `fiberID` |
| Downloader.FillSubclass | download_sdss_data.py:64 | a missing subclass becomes `Unknown`; a present one and every other field are unchanged |
| Downloader.Load | download_sdss_data.py:51-84 | loading succeeds exactly when the file is there and has every required column; a missing file and a missing `subclass` column are each reported as such; on success every row comes through in order with its subclass filled |
| Downloader.RunScript | download_sdss_data.py:51-192 | the whole script: a load failure stops before any row; otherwise the result is the row loop from an empty trace |
| Properties.TryCandidatesStopsAtFirstSuccess | download_sdss_data.py:133-158 | when no location can end in an `open`/`write` error, or the folder cannot be had so that nothing is fetched: success exactly when the folder is ready and some location serves the file; the calls made are those up to and including the first location that serves it, or all four when none does |
| Properties.TryCandidatesWritesOnlyPath | download_sdss_data.py:133-158 | every attempt writes to the same destination, the only paths created are that file and its folder, nothing is removed and history only grows |
| Properties.TryCandidatesWithoutFolder | download_sdss_data.py:133-158 | when the folder neither exists nor can be made (lines 30-37 return False), every location is called, nothing is fetched or created, the search fails and the script goes on |
| Properties.TryCandidatesSettles | download_sdss_data.py:133-158 | with the folder ready, the search goes on exactly while requests raise a RequestException; the first location that does not ends it, with success on a complete answer and a crash after an `open`/`write` error; when all raise, all calls are made and the search fails without a crash |
| Properties.SpectrumStepSpec | download_sdss_data.py:128-165 | in every world, an existing spectrum gives success with no request and no change; for an absent one, when no location can end in an `open`/`write` error (or the folder cannot be had), the outcome, the calls and the 0.5 s or 0.2 s pause are as the search and its first success decide |
| Properties.SpectrumStepCrash | download_sdss_data.py:128-165 | the step crashes exactly when the file is absent, the folder can be had and the first location not raising a RequestException ends in an `open`/`write` error; the trace then ends with that call and no pause |
| Properties.SearchThenPause | download_sdss_data.py:133-165 | when no location can end in an `open`/`write` error (or the folder cannot be had), the search's outcome and calls are as `TryCandidatesStopsAtFirstSuccess` says, followed by 0.5 s of pause after a success and 0.2 s after none |
| Properties.SpectrumStepWritesOnlyPath | download_sdss_data.py:126-165 | the spectrum step calls only with the row's spectrum path, creates no path but that file and its folder, and on success that file exists |
| Properties.ImageStepSpec | download_sdss_data.py:169-186 | in every world, an image is requested exactly when images are on, the spectrum condition holds and the file is absent; then one call is made, a 0.5 s pause follows a success, and the script crashes after the call exactly when the folder can be had and the request ends in an `open`/`write` error |
| Properties.ImageStepWritesOnlyPath | download_sdss_data.py:173-182 | the image step calls only with the row's image path and creates no path but that file and its folder |
| Properties.ImageOnlyAfterSpectrum | download_sdss_data.py:169-171 | with spectra on, an image request for a row happens only if the row's identifiers converted and the spectrum step succeeded, so the spectrum file exists |
| Properties.ImageRequestedWhenWanted | download_sdss_data.py:169-181 | conversely, with images on, the spectrum step succeeded (or spectra off) and the image absent, the row's next call after the spectrum step requests its image from the cutout URL |
| Properties.QuietWhenDone | download_sdss_data.py:128-175 | a row whose wanted files exist makes no request and changes nothing |
| Properties.DoneIsStable | download_sdss_data.py:128-175 | once a row is done, more files never undo that |
| Properties.RowExtends | download_sdss_data.py:88-189 | a row never removes a file and only appends to the history |
| Properties.RunExtends | download_sdss_data.py:88 | the same holds for the whole loop |
| Properties.ReliableSpectrumStep | download_sdss_data.py:128-165 | when every request succeeds and every folder can be made, the spectrum step succeeds and its file exists |
| Properties.ReliableImageStep | download_sdss_data.py:171-182 | in the same world, an allowed image step leaves the image file in place |
| Properties.RowEstablishesDone | download_sdss_data.py:88-189 | in that world, every row ends with all files it asks for present |
| Properties.RunEstablishesDone | download_sdss_data.py:88 | in that world, after the loop every row is done and nothing crashed |
| Properties.QuietRunWhenAllDone | download_sdss_data.py:88-175 | a run over rows that are all done makes no request at all |
| Properties.SecondRunChangesNothing | download_sdss_data.py:88-175 | in a reliable world, running the script a second time over the same rows changes nothing |
| Properties.UnconvertibleRowsAreSkipped | download_sdss_data.py:111-118 | with spectra on, the run is the same as a run over only the rows whose identifiers convert |
| Properties.SpectraOffIgnoresIdentifiers | download_sdss_data.py:111-169 | with spectra off, the plate, MJD and fiber columns make no difference to the run |
| Properties.PartialSpectrumCountsAsDone | download_sdss_data.py:39-48 | if the first location fails mid-stream after the file was opened and the rest fail too, the step reports failure but the partial file stays, and the next run's existence check (lines 128-130) skips it as if it were complete |

## Left out

- `visualize_spectrum.py` is not part of this model. It reads FITS files through astropy, computes wavelengths in floating point and plots with matplotlib.
- The HTTP exchange itself is not modelled: `requests.get`, `stream=True`, the 30 s timeout, `raise_for_status` and the 8192-byte chunks. How a fetch ends is an input, `World.fetch`.
- `os.makedirs` is modelled as creating only the leaf folder, decided by `World.canMakeDir`. Intermediate folders are not added to the set of paths.
- The root folders created at lines 20-23 are not modelled. They matter only through `canMakeDir`.
- `time.sleep` is recorded as a `Sleep` event in the trace, not as time passing.
- The contents of downloaded files are not modelled, only their existence.
- CSV parsing and pandas dtype coercion are not modelled. A row arrives with `plate`, `mjd` and `fiberID` as either an integer or a failed conversion (`None`).
- Lines 55-62 declare `plate`, `mjd` and `fiberID` as `int` columns, so pandas converts them while reading. A cell it cannot convert raises there, and the handler at lines 72-74 ends the script before any row. In the script as shipped, `int()` at lines 113-115 therefore always receives an integer, and the `ValueError` branch at lines 116-118 cannot be reached. The model keeps that branch as written: `None` stands for a failed conversion. `UnconvertibleRowsAreSkipped` and the skip in `ProcessRow` describe lines 112-118 as written, not a case that arises with the declared dtypes.
- Read errors caught by the generic handler at lines 72-74 are not modelled, for example a malformed CSV file or a cell pandas cannot coerce. They stop the script before any row, as the modelled load errors do.
- Subclass values that are not strings are not modelled. After `fillna(...).astype(str)` every value is a string.
- `ra`, `dec` and `IMG_SCALE` are kept as the strings Python would print. Float formatting is not modelled.
- Console messages are not modelled, including the skip message at lines 188-189. The gating decision behind that message is modelled.
- Naming.SpectrumFileName: its own contract gives only the prefix and suffix. The exact layout is carried by `SpectrumFileNameRoundTrip`, `SpectrumFileNameExample` and the shape lemmas of `Text`.
