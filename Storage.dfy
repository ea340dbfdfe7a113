/**
 * The two public directories the routes read and write, reduced to what the
 * routes observe of them: which files exist and when each was last modified.
 */
module Storage {
  import opened Wrappers

  /** `public/uploads` and `public/output` under the server's working directory. */
  datatype Dir = Uploads | Output

  datatype Path = Path(dir: Dir, name: string)

  class FileSystem {
    /** Every existing file with its modification time, in milliseconds since the epoch. */
    var files: map<Path, int>
    /**
     * Entries `unlink` refuses to remove although `stat` finds them: a
     * sub-directory, or a file the server lacks the permission to delete.
     */
    var undeletable: set<Path>

    constructor (initial: map<Path, int>, protected: set<Path>)
      ensures files == initial && undeletable == protected
    {
      files := initial;
      undeletable := protected;
    }

    /** `writeFile`: creates or replaces the file, stamped with the current time. */
    method WriteFile(p: Path, now: int)
      modifies this
      ensures files == old(files)[p := now] && undeletable == old(undeletable)
    {
      files := files[p := now];
    }

    /** `stat(p).mtimeMs`, or None where `stat` rejects because the file is gone. */
    function Stat(p: Path): Option<int>
      reads this
    {
      if p in files then Some(files[p]) else None
    }

    /**
     * `unlink`: removes the file; fails, changing nothing, when there is none
     * or when it is undeletable.
     */
    method Unlink(p: Path) returns (ok: bool)
      modifies this
      ensures ok <==> p in old(files) && p !in undeletable
      ensures files == if ok then old(files) - {p} else old(files)
      ensures undeletable == old(undeletable)
    {
      ok := p in files && p !in undeletable;
      if ok {
        files := files - {p};
      }
    }
  }
}
