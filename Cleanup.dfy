/**
 * The retention sweep (app/api/cleanup/route.ts): every file in the uploads
 * directory and then in the output directory whose age exceeds the retention
 * window is deleted, and the deletions are counted.
 */
module Cleanup {
  import opened Wrappers
  import opened Storage

  const MillisPerHour := 60 * 60 * 1000

  /** `FILE_RETENTION_HOURS` as read by `parseInt`, 24 when the variable is unset. */
  function RetentionHours(configured: Option<int>): int {
    configured.GetOr(24)
  }

  function RetentionMs(hours: int): int {
    hours * MillisPerHour
  }

  /** Without configuration the window is a day: 86 400 000 ms. */
  lemma DefaultRetentionWindow()
    ensures RetentionMs(RetentionHours(None)) == 86_400_000
  {
  }

  /** A file is due for deletion when its age is strictly greater than the window. */
  predicate Expired(now: int, mtime: int, retentionMs: int) {
    now - mtime > retentionMs
  }

  /** The files, the deletions so far, and whether every `stat` and `unlink` succeeded. */
  datatype Sweep = Sweep(files: map<Path, int>, deleted: nat, ok: bool)

  /**
   * One iteration for the file `name` of `dir`: `stat`, then `unlink` if it
   * has expired. A `stat` of a missing file, or an `unlink` of an undeletable
   * one, rejects and so ends the sweep.
   */
  function Visit(st: Sweep, dir: Dir, name: string, now: int, retentionMs: int, undeletable: set<Path>): Sweep {
    var p := Path(dir, name);
    if p !in st.files then st.(ok := false)
    else if !Expired(now, st.files[p], retentionMs) then st
    else if p in undeletable then st.(ok := false)
    else Sweep(st.files - {p}, st.deleted + 1, true)
  }

  /** The loop over a directory listing; a failed `stat` or `unlink` ends the whole sweep. */
  function SweepDir(st: Sweep, dir: Dir, names: seq<string>, now: int, retentionMs: int,
                    undeletable: set<Path>): Sweep
    decreases |names|
  {
    if names == [] || !st.ok then st
    else SweepDir(Visit(st, dir, names[0], now, retentionMs, undeletable), dir, names[1..], now, retentionMs,
                  undeletable)
  }

  /**
   * The whole sweep: the uploads listing, then the output listing. A listing
   * that could not be read (None) counts as an empty one.
   */
  function SweepAll(files: map<Path, int>, uploads: Option<seq<string>>, outputs: Option<seq<string>>,
                    now: int, retentionMs: int, undeletable: set<Path>): Sweep
  {
    var afterUploads := SweepDir(Sweep(files, 0, true), Uploads, uploads.GetOr([]), now, retentionMs, undeletable);
    SweepDir(afterUploads, Output, outputs.GetOr([]), now, retentionMs, undeletable)
  }

  /**
   * A sweep only removes files, and only deletable, listed files of `dir`
   * that have expired; it changes no modification time; the count grows by
   * the number of files removed. When no `stat` or `unlink` failed, every
   * listed file that was present and expired is gone.
   */
  lemma {:induction false} SweepDirEffect(st: Sweep, dir: Dir, names: seq<string>, now: int, retentionMs: int,
                                          undeletable: set<Path>)
    ensures var r := SweepDir(st, dir, names, now, retentionMs, undeletable);
      && r.files.Keys <= st.files.Keys
      && (forall p :: p in r.files ==> r.files[p] == st.files[p])
      && (forall p :: p in st.files && p !in r.files ==>
            p.dir == dir && p.name in names && Expired(now, st.files[p], retentionMs) && p !in undeletable)
      && r.deleted == st.deleted + (|st.files| - |r.files|)
      && (r.ok ==> st.ok)
      && (st.ok && r.ok ==>
            forall p :: (p in st.files && p.dir == dir && p.name in names
                         && Expired(now, st.files[p], retentionMs)) ==> p !in r.files)
    decreases |names|
  {
    if names != [] && st.ok {
      var p := Path(dir, names[0]);
      var next := Visit(st, dir, names[0], now, retentionMs, undeletable);
      SweepDirEffect(next, dir, names[1..], now, retentionMs, undeletable);
      if p in st.files && Expired(now, st.files[p], retentionMs) && p !in undeletable {
        assert next.files.Keys == st.files.Keys - {p};
        assert |next.files| == |st.files| - 1;
      }
      forall q | q in st.files && q.dir == dir && q.name in names[1..]
        ensures q.name in names
      {
      }
      assert names == [names[0]] + names[1..];
    }
  }

  /** The output of the sweep; `deletedFiles` is the reported count. */
  datatype Outcome = Cleaned(deletedFiles: nat) | Failed

  /** The listed files of the sweep: each directory's entries in its own listing. */
  predicate Listed(p: Path, uploads: Option<seq<string>>, outputs: Option<seq<string>>) {
    match p.dir
    case Uploads => p.name in uploads.GetOr([])
    case Output => p.name in outputs.GetOr([])
  }

  /**
   * A successful sweep deleted exactly the listed files whose age exceeds the
   * window, touched nothing else, and reports as many deletions as files are
   * gone. A failed one may already have deleted files, and keeps them deleted;
   * no undeletable file is ever gone.
   */
  lemma SweepAllEffect(files: map<Path, int>, uploads: Option<seq<string>>, outputs: Option<seq<string>>,
                       now: int, retentionMs: int, undeletable: set<Path>)
    ensures var r := SweepAll(files, uploads, outputs, now, retentionMs, undeletable);
      && r.files.Keys <= files.Keys
      && (forall p :: p in r.files ==> r.files[p] == files[p])
      && r.deleted == |files| - |r.files|
      && (forall p :: p in files && p !in r.files ==>
            Expired(now, files[p], retentionMs) && Listed(p, uploads, outputs) && p !in undeletable)
      && (r.ok ==>
            forall p :: (p in files && Expired(now, files[p], retentionMs) && Listed(p, uploads, outputs))
                        ==> p !in r.files)
  {
    var start := Sweep(files, 0, true);
    var mid := SweepDir(start, Uploads, uploads.GetOr([]), now, retentionMs, undeletable);
    SweepDirEffect(start, Uploads, uploads.GetOr([]), now, retentionMs, undeletable);
    SweepDirEffect(mid, Output, outputs.GetOr([]), now, retentionMs, undeletable);
  }

  /**
   * An `unlink` that rejects aborts the sweep: when a listed, expired entry
   * cannot be deleted, the route answers with its failure.
   */
  lemma UndeletableExpiredFileFails(files: map<Path, int>, uploads: Option<seq<string>>,
                                    outputs: Option<seq<string>>, now: int, retentionMs: int,
                                    undeletable: set<Path>, p: Path)
    requires p in files && p in undeletable
    requires Listed(p, uploads, outputs) && Expired(now, files[p], retentionMs)
    ensures !SweepAll(files, uploads, outputs, now, retentionMs, undeletable).ok
  {
    SweepAllEffect(files, uploads, outputs, now, retentionMs, undeletable);
  }

  /**
   * The uploads directory is swept first: if it fails, the sweep ends in the
   * state the uploads loop left, so its deletions stay made and no output
   * file has been touched.
   */
  lemma UploadsBeforeOutput(files: map<Path, int>, uploads: Option<seq<string>>, outputs: Option<seq<string>>,
                            now: int, retentionMs: int, undeletable: set<Path>)
    requires !SweepDir(Sweep(files, 0, true), Uploads, uploads.GetOr([]), now, retentionMs, undeletable).ok
    ensures var r := SweepAll(files, uploads, outputs, now, retentionMs, undeletable);
      && r == SweepDir(Sweep(files, 0, true), Uploads, uploads.GetOr([]), now, retentionMs, undeletable)
      && !r.ok
      && forall p :: p in files && p.dir == Output ==> p in r.files
  {
    var start := Sweep(files, 0, true);
    var mid := SweepDir(start, Uploads, uploads.GetOr([]), now, retentionMs, undeletable);
    SweepDirEffect(start, Uploads, uploads.GetOr([]), now, retentionMs, undeletable);
    FailedStays(mid, Output, outputs.GetOr([]), now, retentionMs, undeletable);
  }

  /** Once a `stat` or `unlink` has rejected, the rest of the sweep does nothing. */
  lemma FailedStays(st: Sweep, dir: Dir, names: seq<string>, now: int, retentionMs: int, undeletable: set<Path>)
    requires !st.ok
    ensures SweepDir(st, dir, names, now, retentionMs, undeletable) == st
  {
  }

  /** A listed name with no file behind it makes its `stat` reject, so the loop fails. */
  lemma {:induction false} MissingInDirFails(st: Sweep, dir: Dir, names: seq<string>, n: string, now: int,
                                             retentionMs: int, undeletable: set<Path>)
    requires n in names && Path(dir, n) !in st.files
    ensures !SweepDir(st, dir, names, now, retentionMs, undeletable).ok
    decreases |names|
  {
    if st.ok {
      var next := Visit(st, dir, names[0], now, retentionMs, undeletable);
      if names[0] == n {
        FailedStays(next, dir, names[1..], now, retentionMs, undeletable);
      } else {
        assert n in names[1..] by {
          assert names == [names[0]] + names[1..];
        }
        MissingInDirFails(next, dir, names[1..], n, now, retentionMs, undeletable);
      }
    }
  }

  /** No name occurs twice in a listing, as `readdir` gives them. */
  predicate Distinct(names: seq<string>) {
    forall i, j :: 0 <= i < j < |names| ==> names[i] != names[j]
  }

  /**
   * When every listed name has a file behind it and no expired listed entry
   * is undeletable, no `stat` or `unlink` rejects and the loop succeeds.
   */
  lemma {:induction false} NothingRejectsInDir(st: Sweep, dir: Dir, names: seq<string>, now: int,
                                               retentionMs: int, undeletable: set<Path>)
    requires st.ok && Distinct(names)
    requires forall n :: n in names ==> Path(dir, n) in st.files
    requires forall n :: n in names && Path(dir, n) in undeletable ==>
               !Expired(now, st.files[Path(dir, n)], retentionMs)
    ensures SweepDir(st, dir, names, now, retentionMs, undeletable).ok
    decreases |names|
  {
    if names != [] {
      var p := Path(dir, names[0]);
      var next := Visit(st, dir, names[0], now, retentionMs, undeletable);
      var rest := names[1..];
      assert next.ok && next.files.Keys <= st.files.Keys;
      assert forall q :: q in next.files ==> next.files[q] == st.files[q];
      forall n | n in rest
        ensures n in names && n != names[0] && Path(dir, n) in next.files
      {
        var k :| 0 <= k < |rest| && rest[k] == n;
        assert names[k + 1] == n;
      }
      assert Distinct(rest) by {
        forall i, j | 0 <= i < j < |rest| ensures rest[i] != rest[j] {
          assert rest[i] == names[i + 1] && rest[j] == names[j + 1];
        }
      }
      NothingRejectsInDir(next, dir, rest, now, retentionMs, undeletable);
    }
  }

  /** A listed name with no file behind it makes the whole sweep fail. */
  lemma MissingListedFileFails(files: map<Path, int>, uploads: Option<seq<string>>, outputs: Option<seq<string>>,
                               now: int, retentionMs: int, undeletable: set<Path>, p: Path)
    requires p !in files && Listed(p, uploads, outputs)
    ensures !SweepAll(files, uploads, outputs, now, retentionMs, undeletable).ok
  {
    var start := Sweep(files, 0, true);
    var mid := SweepDir(start, Uploads, uploads.GetOr([]), now, retentionMs, undeletable);
    if p.dir == Uploads {
      MissingInDirFails(start, Uploads, uploads.GetOr([]), p.name, now, retentionMs, undeletable);
      FailedStays(mid, Output, outputs.GetOr([]), now, retentionMs, undeletable);
    } else {
      SweepDirEffect(start, Uploads, uploads.GetOr([]), now, retentionMs, undeletable);
      MissingInDirFails(mid, Output, outputs.GetOr([]), p.name, now, retentionMs, undeletable);
    }
  }

  /**
   * A sweep in which nothing rejects succeeds: every listed name has a file
   * behind it and no listed, expired entry is undeletable.
   */
  lemma NothingRejectsSucceeds(files: map<Path, int>, uploads: Option<seq<string>>, outputs: Option<seq<string>>,
                               now: int, retentionMs: int, undeletable: set<Path>)
    requires Distinct(uploads.GetOr([])) && Distinct(outputs.GetOr([]))
    requires forall p :: Listed(p, uploads, outputs) ==> p in files
    requires forall p :: Listed(p, uploads, outputs) && p in undeletable ==> !Expired(now, files[p], retentionMs)
    ensures SweepAll(files, uploads, outputs, now, retentionMs, undeletable).ok
  {
    var start := Sweep(files, 0, true);
    var mid := SweepDir(start, Uploads, uploads.GetOr([]), now, retentionMs, undeletable);
    forall n | n in uploads.GetOr([]) ensures Path(Uploads, n) in files {
      assert Listed(Path(Uploads, n), uploads, outputs);
    }
    NothingRejectsInDir(start, Uploads, uploads.GetOr([]), now, retentionMs, undeletable);
    SweepDirEffect(start, Uploads, uploads.GetOr([]), now, retentionMs, undeletable);
    forall n | n in outputs.GetOr([]) ensures Path(Output, n) in mid.files {
      assert Listed(Path(Output, n), uploads, outputs);
    }
    NothingRejectsInDir(mid, Output, outputs.GetOr([]), now, retentionMs, undeletable);
  }

  /** Two missing directories: nothing is deleted and the count is 0. */
  lemma MissingDirectoriesAreEmpty(files: map<Path, int>, now: int, retentionMs: int, undeletable: set<Path>)
    ensures SweepAll(files, None, None, now, retentionMs, undeletable) == Sweep(files, 0, true)
  {
  }

  /**
   * With one upload older than the window and one newer, exactly the older
   * one goes and the count is 1; a file whose age equals the window stays.
   */
  lemma OneOldOneNew(now: int, retentionMs: int)
    requires retentionMs >= 0
    ensures var old1 := Path(Uploads, "a"); var new1 := Path(Uploads, "b"); var edge := Path(Output, "c");
      var files := map[old1 := now - retentionMs - 1, new1 := now, edge := now - retentionMs];
      var r := SweepAll(files, Some(["a", "b"]), Some(["c"]), now, retentionMs, {});
      r == Sweep(map[new1 := now, edge := now - retentionMs], 1, true)
  {
    var old1, new1, edge := Path(Uploads, "a"), Path(Uploads, "b"), Path(Output, "c");
    var files := map[old1 := now - retentionMs - 1, new1 := now, edge := now - retentionMs];
    var kept := map[new1 := now, edge := now - retentionMs];
    var afterA := Visit(Sweep(files, 0, true), Uploads, "a", now, retentionMs, {});
    assert afterA == Sweep(kept, 1, true);
    assert Visit(afterA, Uploads, "b", now, retentionMs, {}) == afterA;
    assert SweepDir(Sweep(files, 0, true), Uploads, ["a", "b"], now, retentionMs, {}) == afterA by {
      assert ["a", "b"][1..] == ["b"];
      assert ["b"][1..] == [];
    }
    assert Visit(afterA, Output, "c", now, retentionMs, {}) == afterA;
    assert SweepDir(afterA, Output, ["c"], now, retentionMs, {}) == afterA by {
      assert ["c"][1..] == [];
    }
  }

  /**
   * `GET`: runs the sweep over the two listings (None where `readdir`
   * rejected) against the file system, with a single clock reading `now`.
   */
  method Clean(fs: FileSystem, uploads: Option<seq<string>>, outputs: Option<seq<string>>,
               now: int, configuredHours: Option<int>)
    returns (outcome: Outcome)
    modifies fs
    ensures fs.undeletable == old(fs.undeletable)
    ensures var r := SweepAll(old(fs.files), uploads, outputs, now, RetentionMs(RetentionHours(configuredHours)),
                              old(fs.undeletable));
      && fs.files == r.files
      && outcome == if r.ok then Cleaned(r.deleted) else Failed
  {
    var retentionMs := RetentionMs(RetentionHours(configuredHours));
    var deletedCount := 0;
    var ok;
    deletedCount, ok := CleanDirectory(fs, Uploads, uploads.GetOr([]), now, retentionMs, deletedCount);
    if !ok {
      return Failed;
    }
    deletedCount, ok := CleanDirectory(fs, Output, outputs.GetOr([]), now, retentionMs, deletedCount);
    if !ok {
      return Failed;
    }
    outcome := Cleaned(deletedCount);
  }

  /**
   * One directory's loop: stat each listed file and unlink it once it has
   * expired; the first `stat` or `unlink` that rejects ends the loop.
   */
  method CleanDirectory(fs: FileSystem, dir: Dir, names: seq<string>, now: int, retentionMs: int, count: nat)
    returns (deletedCount: nat, ok: bool)
    modifies fs
    ensures fs.undeletable == old(fs.undeletable)
    ensures var r := SweepDir(Sweep(old(fs.files), count, true), dir, names, now, retentionMs, fs.undeletable);
      fs.files == r.files && deletedCount == r.deleted && ok == r.ok
  {
    ghost var goal := SweepDir(Sweep(fs.files, count, true), dir, names, now, retentionMs, fs.undeletable);
    deletedCount := count;
    var i := 0;
    while i < |names|
      invariant 0 <= i <= |names|
      invariant fs.undeletable == old(fs.undeletable)
      invariant SweepDir(Sweep(fs.files, deletedCount, true), dir, names[i..], now, retentionMs, fs.undeletable) == goal
    {
      var p := Path(dir, names[i]);
      assert names[i..][1..] == names[i + 1..];
      var mtime := fs.Stat(p);
      if mtime.None? {
        return deletedCount, false;
      }
      if now - mtime.value > retentionMs {
        var removed := fs.Unlink(p);
        if !removed {
          return deletedCount, false;
        }
        deletedCount := deletedCount + 1;
      }
      i := i + 1;
    }
    ok := true;
  }
}
