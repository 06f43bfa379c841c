/**
 * Marker storage: the names of the two marker files of one execution
 * (the success marker and the process-id marker), the write-once unique
 * identifier that scopes them, and their deletion.
 *
 * The filesystem is a set of existing paths. PHP's `uniqid()` is not
 * modelled: every operation that may generate an identifier takes the value
 * it would return as the parameter `generated`.
 */
module Files {

  const FilesPrefix: string := "php_shell_executor"
  const SuccessKind: string := "success"
  const ProcessIdKind: string := "process_id"

  /**
   * PHP's `empty()` on the stored identifier, which is also its falsiness:
   * the string "" (standing here for the initial `null` too) and "0".
   */
  predicate IsEmpty(id: string)
  {
    id == "" || id == "0"
  }

  /** `<directory>/php_shell_executor__<kind>__<id>` */
  function FilePath(directory: string, kind: string, id: string): (p: string)
    ensures |p| == |directory| + |FilesPrefix| + |kind| + |id| + 5
    ensures p[..|directory| + 1] == directory + "/" && p[|p| - |id|..] == id
  {
    directory + "/" + FilesPrefix + "__" + kind + "__" + id
  }

  function SuccessPath(directory: string, id: string): string
  {
    FilePath(directory, SuccessKind, id)
  }

  function ProcessIdPath(directory: string, id: string): string
  {
    FilePath(directory, ProcessIdKind, id)
  }

  /** The identifier a read leaves stored: the old one, or a fresh one if the old one is empty. */
  function IdAfterGet(stored: string, generated: string): (id: string)
    requires !IsEmpty(generated)
    ensures !IsEmpty(id)
    ensures !IsEmpty(stored) ==> id == stored
  {
    if IsEmpty(stored) then generated else stored
  }

  /** What `cleanup` deletes: the process-id marker and the file named by the bare identifier. */
  function CleanupSet(fs: set<string>, directory: string, id: string): (rest: set<string>)
    ensures rest <= fs && fs - rest <= {ProcessIdPath(directory, id), id}
    ensures ProcessIdPath(directory, id) !in rest && id !in rest
  {
    fs - {ProcessIdPath(directory, id), id}
  }

  /** Where each part of a marker path sits. */
  lemma FilePathLayout(directory: string, kind: string, id: string)
    ensures var p := FilePath(directory, kind, id);
      && p[|directory| + 1..|directory| + |FilesPrefix| + 3] == FilesPrefix + "__"
      && p[|directory| + |FilesPrefix| + 3..|p| - |id| - 2] == kind
      && p[|p| - |id| - 2..|p| - |id|] == "__"
  {
    var p := FilePath(directory, kind, id);
    var head := directory + "/" + FilesPrefix + "__";
    assert p == head + kind + ("__" + id);
    assert p == head + (kind + "__" + id);
  }

  /**
   * Under one directory, marker paths whose kinds have the same length
   * determine kind and identifier.
   */
  lemma {:induction false} FilePathInjective(directory: string, k1: string, id1: string, k2: string, id2: string)
    requires |k1| == |k2|
    requires FilePath(directory, k1, id1) == FilePath(directory, k2, id2)
    ensures k1 == k2 && id1 == id2
  {
    var p := FilePath(directory, k1, id1);
    var head := directory + "/" + FilesPrefix + "__";
    assert p == head + k1 + ("__" + id1);
    assert p == head + k2 + ("__" + id2);
    assert k1 == p[|head|..|head| + |k1|];
    assert k2 == p[|head|..|head| + |k2|];
    assert id1 == p[|head| + |k1| + 2..];
    assert id2 == p[|head| + |k2| + 2..];
  }

  /** Two executions with different identifiers never share a marker path. */
  lemma DistinctIdsDistinctPaths(directory: string, kind: string, id1: string, id2: string)
    requires id1 != id2
    ensures FilePath(directory, kind, id1) != FilePath(directory, kind, id2)
  {
    if FilePath(directory, kind, id1) == FilePath(directory, kind, id2) {
      FilePathInjective(directory, kind, id1, kind, id2);
    }
  }

  /**
   * A success marker is never a process-id marker, whatever the two
   * identifiers: the kind segments differ in their first character.
   */
  lemma MarkersDisjoint(directory: string, id1: string, id2: string)
    ensures SuccessPath(directory, id1) != ProcessIdPath(directory, id2)
  {
    FilePathLayout(directory, SuccessKind, id1);
    FilePathLayout(directory, ProcessIdKind, id2);
    var k := |directory| + |FilesPrefix| + 3;
    assert SuccessPath(directory, id1)[k] == 's';
    assert ProcessIdPath(directory, id2)[k] == 'p';
  }

  /** Changing the directory changes only the prefix of a marker path. */
  lemma DirectoryIsOnlyPrefix(d1: string, d2: string, kind: string, id: string)
    ensures FilePath(d2, kind, id) == d2 + FilePath(d1, kind, id)[|d1|..]
  {
    var tail := "/" + FilesPrefix + "__" + kind + "__" + id;
    assert FilePath(d1, kind, id) == d1 + tail;
    assert FilePath(d2, kind, id) == d2 + tail;
    assert (d1 + tail)[|d1|..] == tail;
  }

  /**
   * Cleanup deletes the process-id marker but not the success marker, which
   * is never the bare identifier either.
   */
  lemma CleanupKeepsSuccessMarker(fs: set<string>, directory: string, id: string)
    ensures SuccessPath(directory, id) in CleanupSet(fs, directory, id) <==> SuccessPath(directory, id) in fs
    ensures ProcessIdPath(directory, id) !in CleanupSet(fs, directory, id)
  {
    MarkersDisjoint(directory, id, id);
    FilePathLayout(directory, SuccessKind, id);
  }

  /**
   * Cleanup only deletes, keeps every file other than its two targets, and
   * cleaning up twice removes nothing more than cleaning up once.
   */
  lemma CleanupIdempotent(fs: set<string>, directory: string, id: string)
    ensures CleanupSet(CleanupSet(fs, directory, id), directory, id) == CleanupSet(fs, directory, id)
  {
  }

  /** Outcome of `setUniqueId`. */
  datatype SetIdOutcome = Stored | UniqueIdAlreadyExists(existing: string)

  class Files {
    /** Work directory of the markers. */
    var directory: string
    /** The identifier; "" is the initial `null`. */
    var uniqueId: string

    /** `tempDir` is what `sys_get_temp_dir()` returns. */
    constructor (tempDir: string)
      ensures directory == tempDir && uniqueId == ""
    {
      directory := tempDir;
      uniqueId := "";
    }

    method GetDirectory() returns (d: string)
      ensures d == directory
    {
      d := directory;
    }

    method SetDirectory(d: string)
      modifies this
      ensures directory == d && uniqueId == old(uniqueId)
    {
      directory := d;
    }

    /** Generates the identifier on first use, then keeps returning it. */
    method GetUniqueId(generated: string) returns (id: string)
      requires !IsEmpty(generated)
      modifies this
      ensures id == uniqueId && !IsEmpty(id)
      ensures uniqueId == IdAfterGet(old(uniqueId), generated)
      ensures directory == old(directory)
    {
      if IsEmpty(uniqueId) {
        uniqueId := generated;
      }
      id := uniqueId;
    }

    /** Stores `id` unless an identifier is already held, whichever way it got there. */
    method SetUniqueId(id: string) returns (r: SetIdOutcome)
      modifies this
      ensures IsEmpty(old(uniqueId)) ==> r == Stored && uniqueId == id
      ensures !IsEmpty(old(uniqueId)) ==> r == UniqueIdAlreadyExists(old(uniqueId)) && uniqueId == old(uniqueId)
      ensures directory == old(directory)
    {
      if !IsEmpty(uniqueId) {
        return UniqueIdAlreadyExists(uniqueId);
      }
      uniqueId := id;
      r := Stored;
    }

    method GetFilePath(kind: string, generated: string) returns (p: string)
      requires !IsEmpty(generated)
      modifies this
      ensures uniqueId == IdAfterGet(old(uniqueId), generated) && directory == old(directory)
      ensures p == FilePath(directory, kind, uniqueId)
    {
      var dir := GetDirectory();
      var id := GetUniqueId(generated);
      p := dir + "/" + FilesPrefix + "__" + kind + "__" + id;
    }

    method GetSuccess(generated: string) returns (p: string)
      requires !IsEmpty(generated)
      modifies this
      ensures uniqueId == IdAfterGet(old(uniqueId), generated) && directory == old(directory)
      ensures p == SuccessPath(directory, uniqueId)
    {
      p := GetFilePath(SuccessKind, generated);
    }

    method GetProcessId(generated: string) returns (p: string)
      requires !IsEmpty(generated)
      modifies this
      ensures uniqueId == IdAfterGet(old(uniqueId), generated) && directory == old(directory)
      ensures p == ProcessIdPath(directory, uniqueId)
    {
      p := GetFilePath(ProcessIdKind, generated);
    }

    /**
     * Best-effort deletion over the set of existing paths `fs`: deleting a
     * missing file is silently ignored, so this never fails.
     */
    method Cleanup(fs: set<string>, generated: string) returns (fs': set<string>)
      requires !IsEmpty(generated)
      modifies this
      ensures uniqueId == IdAfterGet(old(uniqueId), generated) && directory == old(directory)
      ensures fs' == CleanupSet(fs, directory, uniqueId)
    {
      var pidPath := GetProcessId(generated);
      fs' := fs - {pidPath};
      var id := GetUniqueId(generated);
      fs' := fs' - {id};
    }
  }

  /** Two reads of the identifier with no write in between return the same value. */
  method UniqueIdIsStable(files: Files, g1: string, g2: string) returns (first: string, second: string)
    requires !IsEmpty(g1) && !IsEmpty(g2)
    modifies files
    ensures first == second && !IsEmpty(first)
    ensures !IsEmpty(old(files.uniqueId)) ==> first == old(files.uniqueId)
  {
    first := files.GetUniqueId(g1);
    second := files.GetUniqueId(g2);
  }

  /**
   * Once a marker path has been resolved the identifier exists, so a later
   * write is rejected and the paths keep their identifier.
   */
  method IdIsWriteOnceAfterPathLookup(files: Files, generated: string, id: string) returns (p: string, r: SetIdOutcome)
    requires !IsEmpty(generated)
    modifies files
    ensures r.UniqueIdAlreadyExists?
    ensures p == ProcessIdPath(files.directory, files.uniqueId)
  {
    p := files.GetProcessId(generated);
    r := files.SetUniqueId(id);
  }

  /** A write on a fresh instance is what later reads return, unless it is empty. */
  method SetThenGet(files: Files, id: string, generated: string) returns (r: SetIdOutcome, read: string)
    requires IsEmpty(files.uniqueId) && !IsEmpty(generated)
    modifies files
    ensures r == Stored
    ensures read == if IsEmpty(id) then generated else id
  {
    r := files.SetUniqueId(id);
    read := files.GetUniqueId(generated);
  }

  /** Setting the directory and reading it back gives the value set. */
  method DirectoryRoundTrip(files: Files, d: string) returns (read: string)
    modifies files
    ensures read == d && files.uniqueId == old(files.uniqueId)
  {
    files.SetDirectory(d);
    read := files.GetDirectory();
  }
}
