/**
 * The batch downloader: `download_file`, the per-row procedure (spectrum
 * first, through four archive locations, then the image if allowed) and
 * the loop over the catalogue.
 *
 * The file system is a set of existing paths. The network and the disk
 * are a `World`: whether a folder can be created, and what fetching a URL
 * into a path does. Each row's observable behaviour is the list of
 * `download_file` calls and pauses it produces, collected in a trace.
 *
 * Each operation is defined once as a function (`Download`, `TryCandidates`,
 * `SpectrumStep`, `ImageStep`, `RowEffect`, `RunEffect`, `Load`), and the
 * script's statements are written out as methods (`DownloadFile`,
 * `ProcessRow`, `DownloadAll`, `RunScript`) proved to compute exactly those
 * functions.
 */
module Downloader {
  import opened Wrappers
  import opened Text
  import opened Paths
  import opened Naming

  // ---------------------------------------------------------------------------
  // Data
  // ---------------------------------------------------------------------------

  /** What `requests.get` and the writes into the destination end with. */
  datatype FetchOutcome =
    | Complete                        // a 2xx answer, every chunk written
    | RequestError(fileOpened: bool)  // a RequestException (connection, non-2xx, or mid-stream)
    | WriteError(fileOpened: bool)    // an OSError from open() or write(): not caught

  /** The parts of the outside world the script depends on. */
  datatype World = World(canMakeDir: string -> bool, fetch: (string, string) -> FetchOutcome)

  /** One `download_file(url, path)` call, or one `time.sleep`. */
  datatype Event = Call(url: string, path: string) | Sleep(ms: nat)

  /**
   * The paths that exist, what has happened so far, and whether an uncaught
   * exception has ended the script.
   */
  datatype State = State(fs: set<string>, trace: seq<Event>, crashed: bool)

  /** One catalogue row as read from the CSV file. */
  datatype RawRow = RawRow(
    name: int, ra: string, dec: string,
    subclass: Option<string>,
    plate: Option<int>, mjd: Option<int>, fiber: Option<int>)

  /** One catalogue row once missing subclasses are filled in. */
  datatype Row = Row(
    name: int, ra: string, dec: string,
    subclass: string,
    plate: Option<int>, mjd: Option<int>, fiber: Option<int>)

  /** The CSV file: its column names and its rows. */
  datatype Table = Table(columns: seq<string>, rows: seq<RawRow>)

  datatype LoadError =
    | InputMissing                           // FileNotFoundError
    | SubclassColumnMissing                  // KeyError on df['subclass']
    | ColumnsMissing(required: seq<string>)  // the required-column check

  /** `os.path.exists(p)`: the empty path never exists. */
  predicate Exists(fs: set<string>, p: string) {
    p != [] && p in fs
  }

  /** `int(row['plate'])`, `int(row['mjd'])` and `int(row['fiberID'])` all succeed. */
  predicate HasIdentifiers(row: Row) {
    row.plate.Some? && row.mjd.Some? && row.fiber.Some?
  }

  /** The folder `dir` is there, or `os.makedirs(dir)` can make it. */
  predicate DirReady(w: World, fs: set<string>, dir: string) {
    Exists(fs, dir) || (dir != [] && w.canMakeDir(dir))
  }

  /** Fetching `url` into `path` would return True. */
  predicate Succeeds(w: World, fs: set<string>, url: string, path: string) {
    DirReady(w, fs, DirName(path)) && w.fetch(url, path) == Complete
  }

  // ---------------------------------------------------------------------------
  // download_file
  // ---------------------------------------------------------------------------

  /**
   * `download_file(url, path)`. It creates the destination folder when it is
   * missing and returns False when that fails; a RequestException also gives
   * False. It returns True only once every chunk is written, and the file
   * then exists. An error from open() or write() is not caught and ends the
   * script. A request that fails after the file was opened leaves a partial
   * file behind.
   */
  function Download(w: World, st: State, url: string, path: string): (r: (State, bool))
    requires !st.crashed
    ensures r.0.trace == st.trace + [Call(url, path)]
    ensures r.1 <==> Succeeds(w, st.fs, url, path)
    ensures r.1 ==> Exists(r.0.fs, path) && !r.0.crashed
    ensures r.0.crashed <==> DirReady(w, st.fs, DirName(path)) && w.fetch(url, path).WriteError?
    ensures st.fs <= r.0.fs
    ensures r.0.fs <= st.fs + {DirName(path), path}
    ensures !DirReady(w, st.fs, DirName(path)) ==> r.0.fs == st.fs
    ensures DirReady(w, st.fs, DirName(path)) && w.fetch(url, path) == RequestError(true) ==> Exists(r.0.fs, path)
  {
    var dir := DirName(path);
    var called := st.(trace := st.trace + [Call(url, path)]);
    if !Exists(st.fs, dir) && !(dir != [] && w.canMakeDir(dir)) then (called, false)
    else
      var fs := if Exists(st.fs, dir) then st.fs else st.fs + {dir};
      match w.fetch(url, path)
      case Complete => (called.(fs := fs + {path}), true)
      case RequestError(wasOpen) => (called.(fs := if wasOpen then fs + {path} else fs), false)
      case WriteError(wasOpen) => (called.(fs := if wasOpen then fs + {path} else fs, crashed := true), false)
  }

  method DownloadFile(w: World, st: State, url: string, path: string) returns (st': State, ok: bool)
    requires !st.crashed
    ensures (st', ok) == Download(w, st, url, path)
  {
    st' := st.(trace := st.trace + [Call(url, path)]);
    var dir := DirName(path);
    if !Exists(st'.fs, dir) {
      if !(dir != [] && w.canMakeDir(dir)) {
        return st', false;
      }
      st' := st'.(fs := st'.fs + {dir});
    }
    match w.fetch(url, path) {
      case Complete =>
        st' := st'.(fs := st'.fs + {path});
        ok := true;
      case RequestError(wasOpen) =>
        if wasOpen {
          st' := st'.(fs := st'.fs + {path});
        }
        ok := false;
      case WriteError(wasOpen) =>
        if wasOpen {
          st' := st'.(fs := st'.fs + {path});
        }
        st' := st'.(crashed := true);
        ok := false;
    }
  }

  // ---------------------------------------------------------------------------
  // One row
  // ---------------------------------------------------------------------------

  /** Tries the URLs in order into the same path, stopping at the first success or at a crash. */
  function TryCandidates(w: World, st: State, urls: seq<string>, path: string): (r: (State, bool))
    requires !st.crashed
    ensures r.1 ==> !r.0.crashed
    decreases |urls|
  {
    if urls == [] then (st, false)
    else
      var (st1, ok) := Download(w, st, urls[0], path);
      if ok || st1.crashed then (st1, ok) else TryCandidates(w, st1, urls[1..], path)
  }

  /**
   * The spectrum step for a row whose identifiers converted: an existing file
   * counts as success with no request; otherwise the four candidates are
   * tried, followed by a 0.5 s pause on success and 0.2 s on failure.
   */
  function SpectrumStep(cfg: Config, w: World, st: State, bucket: string, plate: int, mjd: int, fiber: int): (r: (State, bool))
    requires !st.crashed
    ensures r.1 ==> !r.0.crashed
  {
    var file := SpectrumFileName(plate, mjd, fiber);
    var path := SpectrumPath(cfg, bucket, file);
    if Exists(st.fs, path) then (st, true)
    else SearchAndPause(w, st, SpectrumCandidates(cfg.dataRelease, plate, file), path)
  }

  /** The search over the locations, then 0.5 s of pause after a success and 0.2 s after none. */
  function SearchAndPause(w: World, st: State, urls: seq<string>, path: string): (r: (State, bool))
    requires !st.crashed
    ensures r.1 ==> !r.0.crashed
  {
    var (st1, ok) := TryCandidates(w, st, urls, path);
    if st1.crashed then (st1, false)
    else (st1.(trace := st1.trace + [Sleep(if ok then 500 else 200)]), ok)
  }

  /**
   * The image step. `wanted` is "spectra are off or the spectrum step
   * succeeded". An existing image is left alone; a fetched one is followed
   * by a 0.5 s pause.
   */
  function ImageStep(cfg: Config, w: World, st: State, bucket: string, name: int, ra: string, dec: string, wanted: bool): State
    requires !st.crashed
  {
    if !(cfg.downloadImages && wanted) then st
    else
      var path := ImagePath(cfg, bucket, name);
      if Exists(st.fs, path) then st
      else
        var (st1, ok) := Download(w, st, ImageUrl(cfg, ra, dec), path);
        if ok then st1.(trace := st1.trace + [Sleep(500)]) else st1
  }

  /** The spectrum phase of a row: its result and whether it succeeded (false when spectra are off). */
  function SpectrumPhase(cfg: Config, w: World, st: State, row: Row): (r: (State, bool))
    requires !st.crashed
    requires cfg.downloadSpectra ==> HasIdentifiers(row)
  {
    if cfg.downloadSpectra then
      SpectrumStep(cfg, w, st, Bucket(row.subclass), row.plate.value, row.mjd.value, row.fiber.value)
    else (st, false)
  }

  /** Everything the loop body does for one row. */
  function RowEffect(cfg: Config, w: World, st: State, row: Row): State {
    if st.crashed then st
    else if cfg.downloadSpectra && !HasIdentifiers(row) then st
    else
      var (st1, ok) := SpectrumPhase(cfg, w, st, row);
      if st1.crashed then st1
      else ImageStep(cfg, w, st1, Bucket(row.subclass), row.name, row.ra, row.dec, !cfg.downloadSpectra || ok)
  }

  /** The loop over the rows, in order; a crash ends it. */
  function RunEffect(cfg: Config, w: World, st: State, rows: seq<Row>): State
    decreases |rows|
  {
    if rows == [] then st else RunEffect(cfg, w, RowEffect(cfg, w, st, rows[0]), rows[1..])
  }

  /**
   * The four archive attempts as the script writes them: each later URL is
   * tried only while `downloaded` is still false. An uncaught error from
   * `download_file` ends the script at once.
   */
  method TryArchives(w: World, st: State, urls: seq<string>, path: string) returns (st': State, downloaded: bool)
    requires !st.crashed
    requires |urls| == 4
    ensures (st', downloaded) == TryCandidates(w, st, urls, path)
  {
    assert urls[1..][1..] == urls[2..] && urls[2..][1..] == urls[3..] && urls[3..][1..] == [];
    downloaded := false;
    var ok;
    st', ok := DownloadFile(w, st, urls[0], path);
    if st'.crashed { return; }
    if ok { downloaded := true; }
    if !downloaded {
      ghost var before := st';
      st', ok := DownloadFile(w, st', urls[1], path);
      assert TryCandidates(w, before, urls[1..], path) ==
        if ok || st'.crashed then (st', ok) else TryCandidates(w, st', urls[2..], path);
      if st'.crashed { return; }
      if ok { downloaded := true; }
    }
    if !downloaded {
      ghost var before := st';
      st', ok := DownloadFile(w, st', urls[2], path);
      assert TryCandidates(w, before, urls[2..], path) ==
        if ok || st'.crashed then (st', ok) else TryCandidates(w, st', urls[3..], path);
      if st'.crashed { return; }
      if ok { downloaded := true; }
    }
    if !downloaded {
      ghost var before := st';
      st', ok := DownloadFile(w, st', urls[3], path);
      assert TryCandidates(w, before, urls[3..], path) ==
        if ok || st'.crashed then (st', ok) else TryCandidates(w, st', [], path);
      if st'.crashed { return; }
      if ok { downloaded := true; }
    }
  }

  /** The spectrum block of the loop body, for a row whose identifiers converted. */
  method FetchSpectrum(cfg: Config, w: World, st: State, bucket: string, plate: int, mjd: int, fiber: int)
    returns (st': State, downloaded: bool)
    requires !st.crashed
    ensures (st', downloaded) == SpectrumStep(cfg, w, st, bucket, plate, mjd, fiber)
  {
    var file := SpectrumFileName(plate, mjd, fiber);
    var path := SpectrumPath(cfg, bucket, file);
    if Exists(st.fs, path) {
      return st, true;
    }
    st', downloaded := TryArchives(w, st, SpectrumCandidates(cfg.dataRelease, plate, file), path);
    if st'.crashed { return; }
    if downloaded {
      st' := st'.(trace := st'.trace + [Sleep(500)]);
    } else {
      st' := st'.(trace := st'.trace + [Sleep(200)]);
    }
  }

  /** The image block of the loop body. */
  method FetchImage(cfg: Config, w: World, st: State, bucket: string, name: int, ra: string, dec: string, shouldDownloadImage: bool)
    returns (st': State)
    requires !st.crashed
    ensures st' == ImageStep(cfg, w, st, bucket, name, ra, dec, shouldDownloadImage)
  {
    st' := st;
    if cfg.downloadImages && shouldDownloadImage {
      var path := ImagePath(cfg, bucket, name);
      if !Exists(st.fs, path) {
        var ok;
        st', ok := DownloadFile(w, st, ImageUrl(cfg, ra, dec), path);
        if ok {
          st' := st'.(trace := st'.trace + [Sleep(500)]);
        }
      }
    }
  }

  /** The loop body: bucket, then spectrum, then image. */
  method ProcessRow(cfg: Config, w: World, st: State, row: Row) returns (st': State)
    requires !st.crashed
    ensures st' == RowEffect(cfg, w, st, row)
  {
    st' := st;
    var bucket := Bucket(row.subclass);
    var downloaded := false;
    if cfg.downloadSpectra {
      if row.plate.None? || row.mjd.None? || row.fiber.None? {
        assert RowEffect(cfg, w, st, row) == st;
        return;
      }
      st', downloaded := FetchSpectrum(cfg, w, st, bucket, row.plate.value, row.mjd.value, row.fiber.value);
      assert SpectrumPhase(cfg, w, st, row) == (st', downloaded);
      if st'.crashed {
        assert RowEffect(cfg, w, st, row) == st';
        return;
      }
    } else {
      assert SpectrumPhase(cfg, w, st, row) == (st, false);
    }
    var shouldDownloadImage := !cfg.downloadSpectra || downloaded;
    ghost var mid := st';
    assert RowEffect(cfg, w, st, row) == ImageStep(cfg, w, mid, bucket, row.name, row.ra, row.dec, shouldDownloadImage);
    st' := FetchImage(cfg, w, st', bucket, row.name, row.ra, row.dec, shouldDownloadImage);
  }

  /** `for index, row in df.iterrows()`: every row in order, until an uncaught error. */
  method DownloadAll(cfg: Config, w: World, st0: State, rows: seq<Row>) returns (st: State)
    ensures st == RunEffect(cfg, w, st0, rows)
  {
    st := st0;
    var i := 0;
    while i < |rows| && !st.crashed
      invariant 0 <= i <= |rows|
      invariant RunEffect(cfg, w, st0, rows) == RunEffect(cfg, w, st, rows[i..])
    {
      assert rows[i..][1..] == rows[i + 1..];
      st := ProcessRow(cfg, w, st, rows[i]);
      i := i + 1;
    }
    if st.crashed {
      CrashedRunIsStuck(cfg, w, st, rows[i..]);
    }
  }

  /** Once crashed, nothing further happens. */
  lemma {:induction false} CrashedRunIsStuck(cfg: Config, w: World, st: State, rows: seq<Row>)
    requires st.crashed
    ensures RunEffect(cfg, w, st, rows) == st
  {
    if rows != [] {
      CrashedRunIsStuck(cfg, w, st, rows[1..]);
    }
  }

  // ---------------------------------------------------------------------------
  // Reading the catalogue and the whole script
  // ---------------------------------------------------------------------------

  /** `required_cols`: the identifying columns, plus the spectrum identifiers when spectra are on. */
  function RequiredColumns(cfg: Config): (r: seq<string>)
    ensures forall c :: c in r <==>
      (c in ["name", "ra", "dec", "subclass"] || (cfg.downloadSpectra && c in ["plate", "mjd", "fiberID"]))
  {
    ["name", "ra", "dec", "subclass"] + (if cfg.downloadSpectra then ["plate", "mjd", "fiberID"] else [])
  }

  /** `fillna('Unknown')` on one row. */
  function FillSubclass(raw: RawRow): (r: Row)
    ensures raw.subclass.Some? ==> r.subclass == raw.subclass.value
    ensures raw.subclass.None? ==> r.subclass == Unknown
    ensures r.name == raw.name && r.ra == raw.ra && r.dec == raw.dec
    ensures r.plate == raw.plate && r.mjd == raw.mjd && r.fiber == raw.fiber
  {
    Row(raw.name, raw.ra, raw.dec,
        match raw.subclass case Some(s) => s case None => Unknown,
        raw.plate, raw.mjd, raw.fiber)
  }

  function FillSubclasses(raws: seq<RawRow>): (rows: seq<Row>)
    ensures |rows| == |raws|
    ensures forall i :: 0 <= i < |raws| ==> rows[i] == FillSubclass(raws[i])
  {
    if raws == [] then [] else [FillSubclass(raws[0])] + FillSubclasses(raws[1..])
  }

  /**
   * Reading the catalogue: a missing file, a missing `subclass` column or
   * any other missing required column stops the script before any row is
   * processed. Otherwise every row comes through in order, with missing
   * subclasses replaced by "Unknown".
   */
  function Load(cfg: Config, input: Option<Table>): (r: Result<seq<Row>, LoadError>)
    ensures r.Success? <==> input.Some? && forall c :: c in RequiredColumns(cfg) ==> c in input.value.columns
    ensures r == Failure(InputMissing) <==> input.None?
    ensures r == Failure(SubclassColumnMissing) <==> input.Some? && "subclass" !in input.value.columns
    ensures r.Success? ==>
      |r.value| == |input.value.rows| && forall i :: 0 <= i < |r.value| ==> r.value[i] == FillSubclass(input.value.rows[i])
  {
    match input
    case None => Failure(InputMissing)
    case Some(table) =>
      if "subclass" !in table.columns then Failure(SubclassColumnMissing)
      else if exists c :: c in RequiredColumns(cfg) && c !in table.columns then
        Failure(ColumnsMissing(RequiredColumns(cfg)))
      else Success(FillSubclasses(table.rows))
  }

  /** The whole script, from reading the catalogue to the end of the loop. */
  method RunScript(cfg: Config, w: World, fs: set<string>, input: Option<Table>)
    returns (r: Result<State, LoadError>)
    ensures r.Failure? <==> Load(cfg, input).Failure?
    ensures r.Failure? ==> r.error == Load(cfg, input).error
    ensures r.Success? ==> r.value == RunEffect(cfg, w, State(fs, [], false), Load(cfg, input).value)
  {
    var loaded := Load(cfg, input);
    if loaded.Failure? {
      return Failure(loaded.error);
    }
    var st := DownloadAll(cfg, w, State(fs, [], false), loaded.value);
    return Success(st);
  }
}
