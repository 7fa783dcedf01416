/**
 * What the downloader promises across calls: which archive location wins,
 * when a file is fetched or left alone, that the image waits for the
 * spectrum, which rows are skipped, and that a run over a reliable archive
 * leaves every target in place so that running again does nothing.
 */
module Properties {
  import opened Wrappers
  import opened Text
  import opened Paths
  import opened Naming
  import opened Downloader

  // ---------------------------------------------------------------------------
  // Vocabulary
  // ---------------------------------------------------------------------------

  /** `st2` continues `st1`: no path disappears and the history only grows. */
  predicate Extends(st1: State, st2: State) {
    st1.fs <= st2.fs && st1.trace <= st2.trace
  }

  /** Every event of `trace` from index `n` on is a pause or a call that writes to `path`. */
  predicate OnlyWritesTo(trace: seq<Event>, n: nat, path: string) {
    forall i :: n <= i < |trace| ==> trace[i].Sleep? || trace[i].path == path
  }

  /** Some event of `trace` from index `n` on is a call that writes to `path`. */
  predicate CallsTo(trace: seq<Event>, n: nat, path: string) {
    exists i :: n <= i < |trace| && trace[i].Call? && trace[i].path == path
  }

  /** The `download_file` calls for `urls`, in order, all into `path`. */
  function Calls(urls: seq<string>, path: string): (r: seq<Event>)
    ensures |r| == |urls|
    ensures forall i :: 0 <= i < |urls| ==> r[i] == Call(urls[i], path)
  {
    if urls == [] then [] else [Call(urls[0], path)] + Calls(urls[1..], path)
  }

  /** The index of the first URL that would be served completely, or `|urls|`. */
  function FirstComplete(w: World, urls: seq<string>, path: string): (k: nat)
    ensures k <= |urls|
    ensures k < |urls| ==> w.fetch(urls[k], path) == Complete
    ensures forall j :: 0 <= j < k ==> w.fetch(urls[j], path) != Complete
  {
    if urls == [] then 0
    else if w.fetch(urls[0], path) == Complete then 0
    else 1 + FirstComplete(w, urls[1..], path)
  }

  /** No fetch of these URLs into `path` fails while writing. */
  predicate NoWriteErrors(w: World, urls: seq<string>, path: string) {
    forall i :: 0 <= i < |urls| ==> !w.fetch(urls[i], path).WriteError?
  }

  /** Every request is served and every folder can be made. */
  ghost predicate Reliable(w: World) {
    (forall u, p :: w.fetch(u, p) == Complete) && (forall d :: w.canMakeDir(d))
  }

  /** Where the row's spectrum is saved. */
  function SpectrumDestination(cfg: Config, row: Row): string
    requires HasIdentifiers(row)
  {
    SpectrumPath(cfg, Bucket(row.subclass), SpectrumFileName(row.plate.value, row.mjd.value, row.fiber.value))
  }

  /** Where the row's image is saved. */
  function ImageDestination(cfg: Config, row: Row): string {
    ImagePath(cfg, Bucket(row.subclass), row.name)
  }

  /**
   * Nothing is left to fetch for `row`: it is a row the loop skips, or each
   * file the configuration asks for exists.
   */
  predicate Done(cfg: Config, fs: set<string>, row: Row) {
    if cfg.downloadSpectra && !HasIdentifiers(row) then true
    else
      (cfg.downloadSpectra ==> Exists(fs, SpectrumDestination(cfg, row)))
      && (cfg.downloadImages ==> Exists(fs, ImageDestination(cfg, row)))
  }

  /** The rows whose plate, MJD and fiber convert to integers, in order. */
  function Convertible(rows: seq<Row>): (r: seq<Row>)
    ensures |r| <= |rows|
    ensures forall x :: x in r <==> x in rows && HasIdentifiers(x)
  {
    if rows == [] then []
    else if HasIdentifiers(rows[0]) then [rows[0]] + Convertible(rows[1..])
    else Convertible(rows[1..])
  }

  /** Two rows describe the same target; they may differ in plate, MJD and fiber. */
  predicate SameTarget(a: Row, b: Row) {
    a.name == b.name && a.ra == b.ra && a.dec == b.dec && a.subclass == b.subclass
  }

  // ---------------------------------------------------------------------------
  // Growth: nothing is ever removed and history is only appended to
  // ---------------------------------------------------------------------------

  /** The only paths that appear are the destination `path` and its folder. */
  predicate CreatesOnly(fs: set<string>, fs': set<string>, path: string) {
    fs' <= fs + {DirName(path), path}
  }

  lemma {:induction false} TryCandidatesWritesOnlyPath(w: World, st: State, urls: seq<string>, path: string)
    requires !st.crashed
    ensures var r := TryCandidates(w, st, urls, path);
      Extends(st, r.0) && CreatesOnly(st.fs, r.0.fs, path)
      && OnlyWritesTo(r.0.trace, |st.trace|, path) && (r.1 ==> Exists(r.0.fs, path))
    decreases |urls|
  {
    if urls != [] {
      var (st1, ok) := Download(w, st, urls[0], path);
      if !(ok || st1.crashed) {
        TryCandidatesWritesOnlyPath(w, st1, urls[1..], path);
      }
    }
  }

  /** The spectrum step only touches the spectrum's own destination, and success means the file is there. */
  lemma SpectrumStepWritesOnlyPath(cfg: Config, w: World, st: State, bucket: string, plate: int, mjd: int, fiber: int)
    requires !st.crashed
    ensures var r := SpectrumStep(cfg, w, st, bucket, plate, mjd, fiber);
      var sp := SpectrumPath(cfg, bucket, SpectrumFileName(plate, mjd, fiber));
      Extends(st, r.0) && CreatesOnly(st.fs, r.0.fs, sp)
      && OnlyWritesTo(r.0.trace, |st.trace|, sp) && (r.1 ==> Exists(r.0.fs, sp))
  {
    var file := SpectrumFileName(plate, mjd, fiber);
    var sp := SpectrumPath(cfg, bucket, file);
    if !Exists(st.fs, sp) {
      var urls := SpectrumCandidates(cfg.dataRelease, plate, file);
      SearchAndPauseWritesOnlyPath(w, st, urls, sp);
      assert SpectrumStep(cfg, w, st, bucket, plate, mjd, fiber) == SearchAndPause(w, st, urls, sp);
    }
  }

  lemma ImageStepWritesOnlyPath(cfg: Config, w: World, st: State, bucket: string, row: Row, wanted: bool)
    requires !st.crashed
    ensures var r := ImageStep(cfg, w, st, bucket, row.name, row.ra, row.dec, wanted);
      var ip := ImagePath(cfg, bucket, row.name);
      Extends(st, r) && CreatesOnly(st.fs, r.fs, ip) && OnlyWritesTo(r.trace, |st.trace|, ip)
  {
    var ip := ImagePath(cfg, bucket, row.name);
    var url := ImageUrl(cfg, row.ra, row.dec);
    var r := ImageStep(cfg, w, st, bucket, row.name, row.ra, row.dec, wanted);
    if cfg.downloadImages && wanted && !Exists(st.fs, ip) {
      var (st1, ok) := Download(w, st, url, ip);
      CallWritesTo(st.trace, url, ip);
      if ok {
        SleepKeepsWritesTo(st1.trace, |st.trace|, ip, 500);
        assert r == st1.(trace := st1.trace + [Sleep(500)]);
      } else {
        assert r == st1;
      }
      assert Extends(st, st1);
      assert Extends(st, r);
      assert CreatesOnly(st.fs, r.fs, ip);
    }
  }

  lemma CallWritesTo(trace: seq<Event>, url: string, path: string)
    ensures OnlyWritesTo(trace + [Call(url, path)], |trace|, path)
  {
  }

  lemma SleepKeepsWritesTo(trace: seq<Event>, n: nat, path: string, ms: nat)
    requires OnlyWritesTo(trace, n, path)
    ensures OnlyWritesTo(trace + [Sleep(ms)], n, path)
  {
  }

  /** A trace that only writes to `path` makes no call that writes elsewhere. */
  lemma NoCallsToOtherPath(trace: seq<Event>, n: nat, path: string, other: string)
    requires OnlyWritesTo(trace, n, path) && path != other
    ensures !CallsTo(trace, n, other)
  {
  }

  lemma RowExtends(cfg: Config, w: World, st: State, row: Row)
    ensures Extends(st, RowEffect(cfg, w, st, row))
  {
    if !st.crashed && (!cfg.downloadSpectra || HasIdentifiers(row)) {
      var bucket := Bucket(row.subclass);
      if cfg.downloadSpectra {
        SpectrumStepWritesOnlyPath(cfg, w, st, bucket, row.plate.value, row.mjd.value, row.fiber.value);
      }
      var (st1, ok) := SpectrumPhase(cfg, w, st, row);
      if !st1.crashed {
        ImageStepWritesOnlyPath(cfg, w, st1, bucket, row, !cfg.downloadSpectra || ok);
      }
    }
  }

  /** A run never deletes a path and only appends to the history. */
  lemma {:induction false} RunExtends(cfg: Config, w: World, st: State, rows: seq<Row>)
    ensures Extends(st, RunEffect(cfg, w, st, rows))
    decreases |rows|
  {
    if rows != [] {
      RowExtends(cfg, w, st, rows[0]);
      RunExtends(cfg, w, RowEffect(cfg, w, st, rows[0]), rows[1..]);
    }
  }

  // ---------------------------------------------------------------------------
  // The four archive locations
  // ---------------------------------------------------------------------------

  /** Whether the folder can be had does not change while the same path is being tried. */
  lemma DownloadKeepsReady(w: World, st: State, url: string, path: string)
    requires !st.crashed
    ensures DirReady(w, Download(w, st, url, path).0.fs, DirName(path)) == DirReady(w, st.fs, DirName(path))
  {
    var dir := DirName(path);
    var fs' := Download(w, st, url, path).0.fs;
    if DirReady(w, st.fs, dir) {
      assert Exists(st.fs, dir) ==> Exists(fs', dir);
    }
  }

  /** The calls for a list of URLs start with the call for its first URL. */
  lemma CallsOfPrefix(urls: seq<string>, n: nat, path: string)
    requires n < |urls|
    ensures Calls(urls[..n + 1], path) == [Call(urls[0], path)] + Calls(urls[1..][..n], path)
  {
    assert urls[..n + 1] == [urls[0]] + urls[1..][..n];
  }

  lemma AppendAssociates(t: seq<Event>, e: Event, xs: seq<Event>)
    ensures t + [e] + xs == t + ([e] + xs)
  {
  }

  /** Success exactly when the folder can be had and some location serves the file; no crash. */
  lemma {:induction false} TryCandidatesOutcome(w: World, st: State, urls: seq<string>, path: string)
    requires !st.crashed
    requires NoWriteErrors(w, urls, path)
    ensures var r := TryCandidates(w, st, urls, path);
      !r.0.crashed && (r.1 <==> DirReady(w, st.fs, DirName(path)) && FirstComplete(w, urls, path) < |urls|)
    decreases |urls|
  {
    if urls != [] {
      assert !w.fetch(urls[0], path).WriteError?;
      var (st1, ok) := Download(w, st, urls[0], path);
      if !ok {
        var rest := urls[1..];
        assert NoWriteErrors(w, rest, path) by {
          assert forall i :: 0 <= i < |rest| ==> rest[i] == urls[i + 1];
        }
        TryCandidatesOutcome(w, st1, rest, path);
        DownloadKeepsReady(w, st, urls[0], path);
      }
    }
  }

  /** The calls made are those up to and including the first success, or all of them. */
  lemma {:induction false} TryCandidatesCalls(w: World, st: State, urls: seq<string>, path: string)
    requires !st.crashed
    requires NoWriteErrors(w, urls, path)
    ensures var r := TryCandidates(w, st, urls, path);
      var k := FirstComplete(w, urls, path);
      (r.1 ==> k < |urls| && r.0.trace == st.trace + Calls(urls[..k + 1], path))
      && (!r.1 ==> r.0.trace == st.trace + Calls(urls, path))
    decreases |urls|
  {
    if urls == [] {
      return;
    }
    assert !w.fetch(urls[0], path).WriteError?;
    var (st1, ok) := Download(w, st, urls[0], path);
    var call := Call(urls[0], path);
    assert st1.trace == st.trace + [call];
    if ok {
      assert FirstComplete(w, urls, path) == 0;
      CallsOfPrefix(urls, 0, path);
      assert Calls(urls[1..][..0], path) == [];
      assert [call] + [] == [call];
      assert TryCandidates(w, st, urls, path) == (st1, true);
      assert st1.trace == st.trace + Calls(urls[..1], path);
    } else {
      var rest := urls[1..];
      assert NoWriteErrors(w, rest, path) by {
        assert forall i :: 0 <= i < |rest| ==> rest[i] == urls[i + 1];
      }
      TryCandidatesCalls(w, st1, rest, path);
      var r1 := TryCandidates(w, st1, rest, path);
      assert TryCandidates(w, st, urls, path) == r1;
      if r1.1 {
        TryCandidatesOutcome(w, st1, rest, path);
        DownloadKeepsReady(w, st, urls[0], path);
        assert w.fetch(urls[0], path) != Complete;
        var n := FirstComplete(w, rest, path) + 1;
        assert FirstComplete(w, urls, path) == n;
        assert r1.0.trace == st1.trace + Calls(rest[..n], path);
        CallsOfPrefix(urls, n, path);
        AppendAssociates(st.trace, call, Calls(rest[..n], path));
        assert r1.0.trace == st.trace + Calls(urls[..n + 1], path);
      } else {
        var n := |rest|;
        assert rest[..n] == rest && urls[..n + 1] == urls;
        assert r1.0.trace == st1.trace + Calls(rest[..n], path);
        CallsOfPrefix(urls, n, path);
        AppendAssociates(st.trace, call, Calls(rest[..n], path));
        assert r1.0.trace == st.trace + Calls(urls, path);
      }
    }
  }

  /**
   * The locations are tried in order and the first complete answer ends the
   * search: the result is success exactly when the folder can be had and
   * some location serves the file, and the calls made are those up to and
   * including the first that succeeds, or all of them when none does.
   */
  lemma TryCandidatesStopsAtFirstSuccess(w: World, st: State, urls: seq<string>, path: string)
    requires !st.crashed
    requires DirReady(w, st.fs, DirName(path)) ==> NoWriteErrors(w, urls, path)
    ensures var r := TryCandidates(w, st, urls, path);
      var k := FirstComplete(w, urls, path);
      !r.0.crashed
      && (r.1 <==> DirReady(w, st.fs, DirName(path)) && k < |urls|)
      && (r.1 ==> r.0.trace == st.trace + Calls(urls[..k + 1], path))
      && (!r.1 ==> r.0.trace == st.trace + Calls(urls, path))
  {
    if DirReady(w, st.fs, DirName(path)) {
      TryCandidatesOutcome(w, st, urls, path);
      TryCandidatesCalls(w, st, urls, path);
    } else {
      TryCandidatesWithoutFolder(w, st, urls, path);
    }
  }

  /**
   * When the folder neither exists nor can be made, every location is
   * called in turn, each call fails before any request, and nothing else
   * changes: no file appears and the script does not crash.
   */
  lemma {:induction false} TryCandidatesWithoutFolder(w: World, st: State, urls: seq<string>, path: string)
    requires !st.crashed && !DirReady(w, st.fs, DirName(path))
    ensures TryCandidates(w, st, urls, path) == (st.(trace := st.trace + Calls(urls, path)), false)
    decreases |urls|
  {
    if urls != [] {
      var d := Download(w, st, urls[0], path);
      assert d == (st.(trace := st.trace + [Call(urls[0], path)]), false);
      TryCandidatesWithoutFolder(w, d.0, urls[1..], path);
      assert TryCandidates(w, st, urls, path) == TryCandidates(w, d.0, urls[1..], path);
      AppendAssociates(st.trace, Call(urls[0], path), Calls(urls[1..], path));
      assert Calls(urls, path) == [Call(urls[0], path)] + Calls(urls[1..], path);
      assert d.0.trace + Calls(urls[1..], path) == st.trace + Calls(urls, path);
    } else {
      assert st.trace + Calls(urls, path) == st.trace;
    }
  }

  /** The index of the first URL whose fetch does not end in a RequestException, or `|urls|`. */
  function FirstSettled(w: World, urls: seq<string>, path: string): (k: nat)
    ensures k <= |urls|
    ensures k < |urls| ==> !w.fetch(urls[k], path).RequestError?
    ensures forall j :: 0 <= j < k ==> w.fetch(urls[j], path).RequestError?
  {
    if urls == [] then 0
    else if !w.fetch(urls[0], path).RequestError? then 0
    else 1 + FirstSettled(w, urls[1..], path)
  }

  /**
   * With the folder in place or creatable, the search goes on exactly while
   * requests raise a RequestException. The first location that does not
   * ends it: a complete answer is success, an `open`/`write` error crashes
   * the script after that call. When every location raises, all four calls
   * are made and the search fails without a crash.
   */
  lemma {:induction false} TryCandidatesSettles(w: World, st: State, urls: seq<string>, path: string)
    requires !st.crashed && DirReady(w, st.fs, DirName(path))
    ensures var r := TryCandidates(w, st, urls, path);
      var k := FirstSettled(w, urls, path);
      (k < |urls| ==>
        r.0.trace == st.trace + Calls(urls[..k + 1], path)
        && (r.1 <==> w.fetch(urls[k], path) == Complete)
        && (r.0.crashed <==> w.fetch(urls[k], path).WriteError?))
      && (k == |urls| ==> r.0.trace == st.trace + Calls(urls, path) && !r.1 && !r.0.crashed)
    decreases |urls|
  {
    if urls == [] {
      return;
    }
    var d := Download(w, st, urls[0], path);
    var call := Call(urls[0], path);
    assert d.0.trace == st.trace + [call];
    if !w.fetch(urls[0], path).RequestError? {
      assert FirstSettled(w, urls, path) == 0;
      assert TryCandidates(w, st, urls, path) == d;
      CallsOfPrefix(urls, 0, path);
      assert Calls(urls[1..][..0], path) == [];
      assert [call] + [] == [call];
      assert d.0.trace == st.trace + Calls(urls[..1], path);
    } else {
      var rest := urls[1..];
      assert !d.1 && !d.0.crashed;
      DownloadKeepsReady(w, st, urls[0], path);
      TryCandidatesSettles(w, d.0, rest, path);
      var r1 := TryCandidates(w, d.0, rest, path);
      assert TryCandidates(w, st, urls, path) == r1;
      var n := FirstSettled(w, rest, path);
      assert FirstSettled(w, urls, path) == n + 1;
      if n < |rest| {
        assert urls[n + 1] == rest[n];
        assert r1.0.trace == d.0.trace + Calls(rest[..n + 1], path);
        CallsOfPrefix(urls, n + 1, path);
        AppendAssociates(st.trace, call, Calls(rest[..n + 1], path));
        assert r1.0.trace == st.trace + Calls(urls[..n + 2], path);
      } else {
        assert rest[..n] == rest && urls[..n + 1] == urls;
        assert r1.0.trace == d.0.trace + Calls(rest[..n], path);
        CallsOfPrefix(urls, n, path);
        AppendAssociates(st.trace, call, Calls(rest[..n], path));
        assert r1.0.trace == st.trace + Calls(urls, path);
      }
    }
  }

  // ---------------------------------------------------------------------------
  // One row
  // ---------------------------------------------------------------------------

  /**
   * The search and its pause: success exactly when the folder can be had and
   * some location serves the file; the calls up to the first that does, or
   * all of them, then 0.5 s or 0.2 s of pause.
   */
  lemma SearchThenPause(w: World, st: State, urls: seq<string>, sp: string)
    requires !st.crashed
    requires DirReady(w, st.fs, DirName(sp)) ==> NoWriteErrors(w, urls, sp)
    ensures var r := SearchAndPause(w, st, urls, sp);
      var k := FirstComplete(w, urls, sp);
      !r.0.crashed
      && (r.1 <==> DirReady(w, st.fs, DirName(sp)) && k < |urls|)
      && (r.1 ==> Exists(r.0.fs, sp) && r.0.trace == st.trace + Calls(urls[..k + 1], sp) + [Sleep(500)])
      && (!r.1 ==> r.0.trace == st.trace + Calls(urls, sp) + [Sleep(200)])
  {
    TryCandidatesStopsAtFirstSuccess(w, st, urls, sp);
    TryCandidatesWritesOnlyPath(w, st, urls, sp);
    var s := TryCandidates(w, st, urls, sp);
    var r := SearchAndPause(w, st, urls, sp);
    assert r == (s.0.(trace := s.0.trace + [Sleep(if s.1 then 500 else 200)]), s.1);
  }

  /** The search and its pause write only to `sp`, and create nothing but `sp` and its folder. */
  lemma SearchAndPauseWritesOnlyPath(w: World, st: State, urls: seq<string>, sp: string)
    requires !st.crashed
    ensures var r := SearchAndPause(w, st, urls, sp);
      Extends(st, r.0) && CreatesOnly(st.fs, r.0.fs, sp)
      && OnlyWritesTo(r.0.trace, |st.trace|, sp) && (r.1 ==> Exists(r.0.fs, sp))
  {
    TryCandidatesWritesOnlyPath(w, st, urls, sp);
    var t := TryCandidates(w, st, urls, sp);
    if !t.0.crashed {
      SleepKeepsWritesTo(t.0.trace, |st.trace|, sp, if t.1 then 500 else 200);
    }
  }

  /**
   * The spectrum step: an existing file is success with no request and no
   * pause. Otherwise, when no location can end in an `open`/`write` error
   * (or the folder cannot be had, so nothing is fetched), success comes
   * exactly when the folder can be had and one of the four locations serves
   * the file; the calls of the search are followed by a pause of 0.5 s on
   * success or 0.2 s on failure, and success leaves the file in place.
   * `SpectrumStepCrash` covers the worlds with write errors.
   */
  lemma SpectrumStepSpec(cfg: Config, w: World, st: State, bucket: string, plate: int, mjd: int, fiber: int)
    requires !st.crashed
    requires var file := SpectrumFileName(plate, mjd, fiber);
      var sp := SpectrumPath(cfg, bucket, file);
      !Exists(st.fs, sp) && DirReady(w, st.fs, DirName(sp))
      ==> NoWriteErrors(w, SpectrumCandidates(cfg.dataRelease, plate, file), sp)
    ensures var file := SpectrumFileName(plate, mjd, fiber);
      var sp := SpectrumPath(cfg, bucket, file);
      var urls := SpectrumCandidates(cfg.dataRelease, plate, file);
      var k := FirstComplete(w, urls, sp);
      var r := SpectrumStep(cfg, w, st, bucket, plate, mjd, fiber);
      !r.0.crashed
      && (Exists(st.fs, sp) ==> r == (st, true))
      && (!Exists(st.fs, sp) ==>
            (r.1 <==> DirReady(w, st.fs, DirName(sp)) && k < 4)
            && (r.1 ==> Exists(r.0.fs, sp) && r.0.trace == st.trace + Calls(urls[..k + 1], sp) + [Sleep(500)])
            && (!r.1 ==> r.0.trace == st.trace + Calls(urls, sp) + [Sleep(200)]))
  {
    var file := SpectrumFileName(plate, mjd, fiber);
    var sp := SpectrumPath(cfg, bucket, file);
    var urls := SpectrumCandidates(cfg.dataRelease, plate, file);
    if Exists(st.fs, sp) {
      assert SpectrumStep(cfg, w, st, bucket, plate, mjd, fiber) == (st, true);
    } else {
      assert DirReady(w, st.fs, DirName(sp)) ==> NoWriteErrors(w, urls, sp);
      SearchThenPause(w, st, urls, sp);
      assert SpectrumStep(cfg, w, st, bucket, plate, mjd, fiber) == SearchAndPause(w, st, urls, sp);
    }
  }

  /**
   * The spectrum step crashes exactly when the file is absent, the folder can
   * be had, and the first location that does not raise a RequestException
   * ends in an `open`/`write` error. The script then ends right after that
   * call: the trace holds the calls up to it and no pause.
   */
  lemma SpectrumStepCrash(cfg: Config, w: World, st: State, bucket: string, plate: int, mjd: int, fiber: int)
    requires !st.crashed
    ensures var file := SpectrumFileName(plate, mjd, fiber);
      var sp := SpectrumPath(cfg, bucket, file);
      var urls := SpectrumCandidates(cfg.dataRelease, plate, file);
      var k := FirstSettled(w, urls, sp);
      var r := SpectrumStep(cfg, w, st, bucket, plate, mjd, fiber);
      (r.0.crashed <==> !Exists(st.fs, sp) && DirReady(w, st.fs, DirName(sp)) && k < 4 && w.fetch(urls[k], sp).WriteError?)
      && (r.0.crashed ==> r.0.trace == st.trace + Calls(urls[..k + 1], sp))
  {
    var file := SpectrumFileName(plate, mjd, fiber);
    var sp := SpectrumPath(cfg, bucket, file);
    var urls := SpectrumCandidates(cfg.dataRelease, plate, file);
    if !Exists(st.fs, sp) {
      assert SpectrumStep(cfg, w, st, bucket, plate, mjd, fiber) == SearchAndPause(w, st, urls, sp);
      var t := TryCandidates(w, st, urls, sp);
      if DirReady(w, st.fs, DirName(sp)) {
        TryCandidatesSettles(w, st, urls, sp);
      } else {
        TryCandidatesWithoutFolder(w, st, urls, sp);
      }
      assert SearchAndPause(w, st, urls, sp).0.crashed == t.0.crashed;
      assert t.0.crashed ==> SearchAndPause(w, st, urls, sp).0 == t.0;
    }
  }

  /**
   * The image step: the image is requested exactly when images are on, the
   * row qualifies and the file is absent; a request is followed by a 0.5 s
   * pause only when it succeeds, and success leaves the file in place. An
   * `open`/`write` error on a ready folder ends the script after the call.
   */
  lemma ImageStepSpec(cfg: Config, w: World, st: State, bucket: string, row: Row, wanted: bool)
    requires !st.crashed
    ensures var ip := ImagePath(cfg, bucket, row.name);
      var url := ImageUrl(cfg, row.ra, row.dec);
      var r := ImageStep(cfg, w, st, bucket, row.name, row.ra, row.dec, wanted);
      var requested := cfg.downloadImages && wanted && !Exists(st.fs, ip);
      (!requested ==> r == st)
      && (requested ==> (r.crashed <==> DirReady(w, st.fs, DirName(ip)) && w.fetch(url, ip).WriteError?))
      && (requested ==>
            r.trace == st.trace + [Call(url, ip)] + (if Succeeds(w, st.fs, url, ip) then [Sleep(500)] else [])
            && (Succeeds(w, st.fs, url, ip) ==> Exists(r.fs, ip)))
  {
    var ip := ImagePath(cfg, bucket, row.name);
    var url := ImageUrl(cfg, row.ra, row.dec);
    var r := ImageStep(cfg, w, st, bucket, row.name, row.ra, row.dec, wanted);
    if cfg.downloadImages && wanted && !Exists(st.fs, ip) {
      var d := Download(w, st, url, ip);
      assert r == if d.1 then d.0.(trace := d.0.trace + [Sleep(500)]) else d.0;
      assert d.0.trace == st.trace + [Call(url, ip)];
    }
  }

  /**
   * With spectra on, the image of a row is requested only when the row's
   * identifiers converted and the spectrum step succeeded, so the spectrum
   * is in place by the end of the row.
   */
  lemma ImageOnlyAfterSpectrum(cfg: Config, w: World, st: State, row: Row)
    requires !st.crashed && cfg.downloadSpectra
    ensures var r := RowEffect(cfg, w, st, row);
      CallsTo(r.trace, |st.trace|, ImageDestination(cfg, row))
      ==> HasIdentifiers(row)
          && SpectrumStep(cfg, w, st, Bucket(row.subclass), row.plate.value, row.mjd.value, row.fiber.value).1
          && Exists(r.fs, SpectrumDestination(cfg, row))
  {
    var r := RowEffect(cfg, w, st, row);
    var ip := ImageDestination(cfg, row);
    if !HasIdentifiers(row) {
      assert r == st;
      return;
    }
    var bucket := Bucket(row.subclass);
    var plate, mjd, fiber := row.plate.value, row.mjd.value, row.fiber.value;
    var sp := SpectrumDestination(cfg, row);
    var s := SpectrumStep(cfg, w, st, bucket, plate, mjd, fiber);
    SpectrumStepWritesOnlyPath(cfg, w, st, bucket, plate, mjd, fiber);
    assert r == if s.0.crashed then s.0 else ImageStep(cfg, w, s.0, bucket, row.name, row.ra, row.dec, s.1) by {
      assert SpectrumPhase(cfg, w, st, row) == s;
    }
    if s.1 {
      ImageStepWritesOnlyPath(cfg, w, s.0, bucket, row, true);
    } else {
      assert sp != ip by {
        DestinationsAreSeparate(cfg, row.subclass, plate, mjd, fiber, row.name);
      }
      NoCallsToOtherPath(s.0.trace, |st.trace|, sp, ip);
    }
  }

  /**
   * The converse: when images are on, the spectrum phase succeeded (or
   * spectra are off) and the image is absent, the row's next call after the
   * spectrum phase is the request for its image.
   */
  lemma ImageRequestedWhenWanted(cfg: Config, w: World, st: State, row: Row)
    requires !st.crashed && cfg.downloadImages
    requires cfg.downloadSpectra ==> HasIdentifiers(row)
    requires var s := SpectrumPhase(cfg, w, st, row);
      (!cfg.downloadSpectra || s.1) && !Exists(s.0.fs, ImageDestination(cfg, row))
    ensures var s := SpectrumPhase(cfg, w, st, row);
      var r := RowEffect(cfg, w, st, row);
      |s.0.trace| < |r.trace| && r.trace[|s.0.trace|] == Call(ImageUrl(cfg, row.ra, row.dec), ImageDestination(cfg, row))
      && CallsTo(r.trace, |st.trace|, ImageDestination(cfg, row))
  {
    var s := SpectrumPhase(cfg, w, st, row);
    var ip := ImageDestination(cfg, row);
    var url := ImageUrl(cfg, row.ra, row.dec);
    var bucket := Bucket(row.subclass);
    if cfg.downloadSpectra {
      SpectrumStepWritesOnlyPath(cfg, w, st, bucket, row.plate.value, row.mjd.value, row.fiber.value);
    }
    assert |st.trace| <= |s.0.trace| && !s.0.crashed;
    var r := RowEffect(cfg, w, st, row);
    var d := Download(w, s.0, url, ip);
    assert r == if d.1 then d.0.(trace := d.0.trace + [Sleep(500)]) else d.0;
    assert d.0.trace == s.0.trace + [Call(url, ip)];
    assert r.trace[|s.0.trace|] == Call(url, ip);
  }

  /** Once every wanted file of a row exists, processing the row does nothing at all. */
  lemma QuietWhenDone(cfg: Config, w: World, st: State, row: Row)
    requires !st.crashed && Done(cfg, st.fs, row)
    ensures RowEffect(cfg, w, st, row) == st
  {
  }

  /** Paths only ever appear, so a row that is done stays done. */
  lemma DoneIsStable(cfg: Config, fs: set<string>, fs': set<string>, row: Row)
    requires fs <= fs' && Done(cfg, fs, row)
    ensures Done(cfg, fs', row)
  {
  }

  /** Against a reliable archive, the spectrum step always succeeds and leaves the file in place. */
  lemma ReliableSpectrumStep(cfg: Config, w: World, st: State, subclass: string, plate: int, mjd: int, fiber: int)
    requires Reliable(w) && !st.crashed
    ensures var bucket := Bucket(subclass);
      var s := SpectrumStep(cfg, w, st, bucket, plate, mjd, fiber);
      s.1 && !s.0.crashed && Exists(s.0.fs, SpectrumPath(cfg, bucket, SpectrumFileName(plate, mjd, fiber)))
  {
    var bucket := Bucket(subclass);
    var file := SpectrumFileName(plate, mjd, fiber);
    var sp := SpectrumPath(cfg, bucket, file);
    SpectrumStepWritesOnlyPath(cfg, w, st, bucket, plate, mjd, fiber);
    if !Exists(st.fs, sp) {
      DestinationsAreSeparate(cfg, subclass, plate, mjd, fiber, 0);
      assert DirReady(w, st.fs, DirName(sp));
      var urls := SpectrumCandidates(cfg.dataRelease, plate, file);
      assert Download(w, st, urls[0], sp).1;
      assert TryCandidates(w, st, urls, sp).1;
    }
  }

  /** Against a reliable archive, a wanted image is in place after the image step. */
  lemma ReliableImageStep(cfg: Config, w: World, st: State, row: Row)
    requires Reliable(w) && !st.crashed
    ensures var bucket := Bucket(row.subclass);
      var r := ImageStep(cfg, w, st, bucket, row.name, row.ra, row.dec, true);
      !r.crashed && Extends(st, r) && (cfg.downloadImages ==> Exists(r.fs, ImagePath(cfg, bucket, row.name)))
  {
    var bucket := Bucket(row.subclass);
    var ip := ImagePath(cfg, bucket, row.name);
    ImageStepWritesOnlyPath(cfg, w, st, bucket, row, true);
    if cfg.downloadImages && !Exists(st.fs, ip) {
      DestinationsAreSeparate(cfg, row.subclass, 0, 0, 0, row.name);
      assert DirReady(w, st.fs, DirName(ip));
      assert Download(w, st, ImageUrl(cfg, row.ra, row.dec), ip).1;
    }
  }

  /** Against a reliable archive, one pass over a row fetches everything it asks for. */
  lemma RowEstablishesDone(cfg: Config, w: World, st: State, row: Row)
    requires Reliable(w) && !st.crashed
    ensures var r := RowEffect(cfg, w, st, row);
      !r.crashed && Done(cfg, r.fs, row)
  {
    var r := RowEffect(cfg, w, st, row);
    if cfg.downloadSpectra && !HasIdentifiers(row) {
      return;
    }
    var bucket := Bucket(row.subclass);
    if cfg.downloadSpectra {
      var plate, mjd, fiber := row.plate.value, row.mjd.value, row.fiber.value;
      var s := SpectrumStep(cfg, w, st, bucket, plate, mjd, fiber);
      ReliableSpectrumStep(cfg, w, st, row.subclass, plate, mjd, fiber);
      assert r == ImageStep(cfg, w, s.0, bucket, row.name, row.ra, row.dec, true) by {
        assert SpectrumPhase(cfg, w, st, row) == s;
      }
      ReliableImageStep(cfg, w, s.0, row);
      var sp := SpectrumDestination(cfg, row);
      assert Exists(s.0.fs, sp) && s.0.fs <= r.fs;
      assert Exists(r.fs, sp);
    } else {
      assert r == ImageStep(cfg, w, st, bucket, row.name, row.ra, row.dec, true);
      ReliableImageStep(cfg, w, st, row);
    }
    assert cfg.downloadImages ==> Exists(r.fs, ImageDestination(cfg, row));
  }

  // ---------------------------------------------------------------------------
  // The whole run
  // ---------------------------------------------------------------------------

  /** Against a reliable archive, a run leaves every row of the catalogue done. */
  lemma {:induction false} RunEstablishesDone(cfg: Config, w: World, st: State, rows: seq<Row>)
    requires Reliable(w) && !st.crashed
    ensures var r := RunEffect(cfg, w, st, rows);
      !r.crashed && forall row :: row in rows ==> Done(cfg, r.fs, row)
    decreases |rows|
  {
    if rows != [] {
      var st1 := RowEffect(cfg, w, st, rows[0]);
      RowEstablishesDone(cfg, w, st, rows[0]);
      RunEstablishesDone(cfg, w, st1, rows[1..]);
      RunExtends(cfg, w, st1, rows[1..]);
      DoneIsStable(cfg, st1.fs, RunEffect(cfg, w, st1, rows[1..]).fs, rows[0]);
      assert forall row :: row in rows ==> row == rows[0] || row in rows[1..];
    }
  }

  /** A run over a catalogue whose rows are all done changes nothing and requests nothing. */
  lemma {:induction false} QuietRunWhenAllDone(cfg: Config, w: World, st: State, rows: seq<Row>)
    requires !st.crashed
    requires forall row :: row in rows ==> Done(cfg, st.fs, row)
    ensures RunEffect(cfg, w, st, rows) == st
    decreases |rows|
  {
    if rows != [] {
      QuietWhenDone(cfg, w, st, rows[0]);
      QuietRunWhenAllDone(cfg, w, st, rows[1..]);
    }
  }

  /**
   * The script is safe to re-run: against a reliable archive, running it a
   * second time over the same catalogue changes nothing and makes no request.
   */
  lemma SecondRunChangesNothing(cfg: Config, w: World, st: State, rows: seq<Row>)
    requires Reliable(w) && !st.crashed
    ensures var once := RunEffect(cfg, w, st, rows);
      RunEffect(cfg, w, once, rows) == once
  {
    RunEstablishesDone(cfg, w, st, rows);
    QuietRunWhenAllDone(cfg, w, RunEffect(cfg, w, st, rows), rows);
  }

  /**
   * With spectra on, rows whose plate, MJD or fiber does not convert are
   * skipped outright: the run is the run over the convertible rows alone.
   */
  lemma {:induction false} UnconvertibleRowsAreSkipped(cfg: Config, w: World, st: State, rows: seq<Row>)
    requires cfg.downloadSpectra
    ensures RunEffect(cfg, w, st, rows) == RunEffect(cfg, w, st, Convertible(rows))
    decreases |rows|
  {
    if rows != [] {
      var st1 := RowEffect(cfg, w, st, rows[0]);
      UnconvertibleRowsAreSkipped(cfg, w, st1, rows[1..]);
      if HasIdentifiers(rows[0]) {
        var c := [rows[0]] + Convertible(rows[1..]);
        assert c[0] == rows[0] && c[1..] == Convertible(rows[1..]);
      } else {
        assert st1 == st;
      }
    }
  }

  /**
   * With spectra off, plate, MJD and fiber play no part: two catalogues that
   * list the same targets give the same run.
   */
  lemma {:induction false} SpectraOffIgnoresIdentifiers(cfg: Config, w: World, st: State, rows1: seq<Row>, rows2: seq<Row>)
    requires !cfg.downloadSpectra
    requires |rows1| == |rows2| && forall i :: 0 <= i < |rows1| ==> SameTarget(rows1[i], rows2[i])
    ensures RunEffect(cfg, w, st, rows1) == RunEffect(cfg, w, st, rows2)
    decreases |rows1|
  {
    if rows1 != [] {
      SpectraOffRow(cfg, w, st, rows1[0], rows2[0]);
      var st1 := RowEffect(cfg, w, st, rows1[0]);
      SpectraOffIgnoresIdentifiers(cfg, w, st1, rows1[1..], rows2[1..]);
    }
  }

  /** With spectra off, a row's effect depends only on the target it names. */
  lemma SpectraOffRow(cfg: Config, w: World, st: State, a: Row, b: Row)
    requires !cfg.downloadSpectra && SameTarget(a, b)
    ensures RowEffect(cfg, w, st, a) == RowEffect(cfg, w, st, b)
  {
    if !st.crashed {
      var bucket := Bucket(a.subclass);
      assert RowEffect(cfg, w, st, a) == ImageStep(cfg, w, st, bucket, a.name, a.ra, a.dec, true);
      assert RowEffect(cfg, w, st, b) == ImageStep(cfg, w, st, bucket, b.name, b.ra, b.dec, true);
    }
  }

  /**
   * A spectrum request that fails after the file was opened leaves a partial
   * file, and the existence check then takes it for a finished download: the
   * row gets no image this time, but the next pass skips the spectrum and
   * goes on to the image.
   */
  lemma PartialSpectrumCountsAsDone(cfg: Config, w: World, st: State, row: Row)
    requires !st.crashed && cfg.downloadSpectra && HasIdentifiers(row)
    requires var sp := SpectrumDestination(cfg, row);
      var file := SpectrumFileName(row.plate.value, row.mjd.value, row.fiber.value);
      var urls := SpectrumCandidates(cfg.dataRelease, row.plate.value, file);
      !Exists(st.fs, sp) && DirReady(w, st.fs, DirName(sp))
      && w.fetch(urls[0], sp) == RequestError(true)
      && forall i :: 0 <= i < 4 ==> w.fetch(urls[i], sp).RequestError?
    ensures var r := RowEffect(cfg, w, st, row);
      var bucket := Bucket(row.subclass);
      var sp := SpectrumDestination(cfg, row);
      var plate, mjd, fiber := row.plate.value, row.mjd.value, row.fiber.value;
      !r.crashed && Exists(r.fs, sp)
      && !SpectrumStep(cfg, w, st, bucket, plate, mjd, fiber).1
      && SpectrumStep(cfg, w, r, bucket, plate, mjd, fiber) == (r, true)
  {
    var bucket := Bucket(row.subclass);
    var plate, mjd, fiber := row.plate.value, row.mjd.value, row.fiber.value;
    var file := SpectrumFileName(plate, mjd, fiber);
    var sp := SpectrumDestination(cfg, row);
    var urls := SpectrumCandidates(cfg.dataRelease, plate, file);
    PartialSearch(w, st, urls, sp);
    var t := TryCandidates(w, st, urls, sp);
    var s := SpectrumStep(cfg, w, st, bucket, plate, mjd, fiber);
    assert s == (t.0.(trace := t.0.trace + [Sleep(200)]), false);
    assert RowEffect(cfg, w, st, row) == s.0 by {
      assert SpectrumPhase(cfg, w, st, row) == s;
    }
  }

  /**
   * Every location fails to deliver, the first after opening the file: the
   * search fails, yet a file is left at the destination.
   */
  lemma PartialSearch(w: World, st: State, urls: seq<string>, sp: string)
    requires !st.crashed && urls != []
    requires DirReady(w, st.fs, DirName(sp))
    requires w.fetch(urls[0], sp) == RequestError(true)
    requires forall i :: 0 <= i < |urls| ==> w.fetch(urls[i], sp).RequestError?
    ensures var t := TryCandidates(w, st, urls, sp);
      !t.1 && !t.0.crashed && Exists(t.0.fs, sp)
  {
    var (st1, ok) := Download(w, st, urls[0], sp);
    assert Exists(st1.fs, sp) && !ok && !st1.crashed;
    var rest := urls[1..];
    assert forall i :: 0 <= i < |rest| ==> rest[i] == urls[i + 1];
    assert NoWriteErrors(w, rest, sp);
    TryCandidatesOutcome(w, st1, rest, sp);
    TryCandidatesWritesOnlyPath(w, st1, rest, sp);
  }
}
