/**
 * The durable key/value store: every key names one file under `<root>/<name>/`,
 * and the file holds one serialized object. The file system is a map from the
 * full path of a file to what the file holds.
 */
module DataStore {
  import opened Wrappers
  import opened Records

  /** `File.separator` on Android. */
  const Separator: char := '/'
  /** What a key's separators are replaced by. */
  const Bar: char := '|'

  /** One character of a key as it appears in the file name. */
  function Normal(c: char): char {
    if c == Separator then Bar else c
  }

  // ---------------------------------------------------------------------------
  // Keys and paths
  // ---------------------------------------------------------------------------

  /** `String.coordinated`: the key turned into a single file name, character by character. */
  function Coordinated(key: string): (r: string)
    ensures |r| == |key|
    ensures Separator !in r
    ensures forall i :: 0 <= i < |key| && key[i] != Separator ==> r[i] == key[i]
    ensures forall i :: 0 <= i < |key| && key[i] == Separator ==> r[i] == Bar
  {
    seq(|key|, i requires 0 <= i < |key| => Normal(key[i]))
  }

  /** Coordinating a key that is already coordinated changes nothing. */
  lemma CoordinatedIdempotent(key: string)
    ensures Coordinated(Coordinated(key)) == Coordinated(key)
  {
  }

  /** Two keys name the same file exactly when they agree up to separator versus '|'. */
  lemma SameEntryIff(a: string, b: string)
    ensures Coordinated(a) == Coordinated(b) <==>
            |a| == |b| && forall i :: 0 <= i < |a| ==> Normal(a[i]) == Normal(b[i])
  {
  }

  /** The store's directory: `file`. */
  function StoreDirectory(root: string, name: string): (d: string)
    ensures |d| == |root| + 1 + |name|
    ensures d[..|root|] == root && d[|root|] == Separator && d[|root| + 1..] == name
  {
    root + [Separator] + name
  }

  /** `key.coordinated.path`: the file that holds the entry for `key`. */
  function KeyPath(root: string, name: string, key: string): (p: string)
    ensures |p| == |StoreDirectory(root, name)| + 1 + |key|
    ensures p[..|StoreDirectory(root, name)|] == StoreDirectory(root, name)
    ensures p[|StoreDirectory(root, name)|] == Separator
    ensures p[|StoreDirectory(root, name)| + 1..] == Coordinated(key)
  {
    StoreDirectory(root, name) + [Separator] + Coordinated(key)
  }

  /** Within one store, two keys share a file exactly when their coordinated forms are equal. */
  lemma KeyPathInjective(root: string, name: string, a: string, b: string)
    ensures KeyPath(root, name, a) == KeyPath(root, name, b) <==> Coordinated(a) == Coordinated(b)
  {
    var n := |StoreDirectory(root, name)| + 1;
    if KeyPath(root, name, a) == KeyPath(root, name, b) {
      assert Coordinated(a) == KeyPath(root, name, a)[n..];
    }
  }

  /** Entries of stores with different directories never share a file, whatever the keys. */
  lemma EntriesOfDistinctStoresDiffer(root1: string, name1: string, key1: string,
                                      root2: string, name2: string, key2: string)
    requires StoreDirectory(root1, name1) != StoreDirectory(root2, name2)
    ensures KeyPath(root1, name1, key1) != KeyPath(root2, name2, key2)
  {
  }

  // ---------------------------------------------------------------------------
  // Files
  // ---------------------------------------------------------------------------

  /** What a file holds: one serialized object, or bytes that do not read back as one. */
  datatype Content =
    | Object(value: Value)
    | Unreadable  // empty, truncated, corrupt, or of a class the app cannot load

  /** How `getOrNull` ends. */
  datatype ReadOutcome =
    | Found(value: Value)
    | Null          // an IOException or ClassNotFoundException, caught
    | CastFailure   // the object is of another class: the cast raises ClassCastException

  /** Where an I/O error, if any, interrupts `write`. */
  datatype IoFault =
    | NoFault
    | CreateFails     // `createNewFile` fails: the old file is already deleted and no new one exists
    | StreamFails     // opening the stream, `writeObject` or `close` fails: the new file exists but is empty or incomplete
    | DeleteIgnored   // `delete` fails, its result is ignored, then opening the stream fails: the old file stays

  /** Reading the object in file `p`, cast to class `expected`. */
  function Read(files: map<string, Content>, p: string, expected: Class): (r: ReadOutcome)
    ensures r == Null <==> p !in files || files[p] == Unreadable
    ensures r.Found? <==> p in files && files[p].Object? && ClassOf(files[p].value) == expected
    ensures r.Found? ==> files[p] == Object(r.value) && ClassOf(r.value) == expected
  {
    if p !in files then Null
    else match files[p]
      case Unreadable => Null
      case Object(v) => if ClassOf(v) == expected then Found(v) else CastFailure
  }

  /** The files after `write` of `v` into file `p`: delete, create empty, write the object. */
  function WriteEffect(files: map<string, Content>, p: string, v: Value, fault: IoFault): map<string, Content> {
    match fault
    case NoFault => files[p := Object(v)]
    case CreateFails => files - {p}
    case StreamFails => files[p := Unreadable]
    case DeleteIgnored => files
  }

  /** A completed write reads back as the written object. */
  lemma ReadAfterWrite(files: map<string, Content>, p: string, v: Value)
    ensures Read(WriteEffect(files, p, v, NoFault), p, ClassOf(v)) == Found(v)
  {
  }

  /**
   * A failed write never leaves the new record behind. Once the old file was deleted, no record
   * reads back at all; when the delete itself failed unnoticed, the old record reads as before.
   */
  lemma ReadAfterFailedWrite(files: map<string, Content>, p: string, v: Value, fault: IoFault, c: Class)
    requires fault != NoFault
    ensures fault != DeleteIgnored ==> Read(WriteEffect(files, p, v, fault), p, c) == Null
    ensures fault == DeleteIgnored ==> Read(WriteEffect(files, p, v, fault), p, c) == Read(files, p, c)
  {
  }

  /** A write touches its own file only. */
  lemma WriteLeavesOtherFiles(files: map<string, Content>, p: string, v: Value, fault: IoFault, q: string)
    requires q != p
    ensures q in WriteEffect(files, p, v, fault) <==> q in files
    ensures q in files ==> WriteEffect(files, p, v, fault)[q] == files[q]
  {
  }

  /** A write for one key leaves every entry of the same store whose coordinated key differs as it read before. */
  lemma WriteLeavesOtherKeys(files: map<string, Content>, root: string, name: string, key: string, v: Value,
                             fault: IoFault, other: string, c: Class)
    requires Coordinated(other) != Coordinated(key)
    ensures Read(WriteEffect(files, KeyPath(root, name, key), v, fault), KeyPath(root, name, other), c)
            == Read(files, KeyPath(root, name, other), c)
  {
    KeyPathInjective(root, name, key, other);
    WriteLeavesOtherFiles(files, KeyPath(root, name, key), v, fault, KeyPath(root, name, other));
  }

  /** After a delete the file reads as null for every class, and every other file is as before. */
  lemma ReadAfterDelete(files: map<string, Content>, p: string, q: string, c: Class)
    ensures Read(files - {p}, p, c) == Null
    ensures q != p ==> Read(files - {p}, q, c) == Read(files, q, c)
  {
  }

  /**
   * The last write to a file decides its content, unless it failed before touching the file;
   * in particular writing the same object twice equals writing it once.
   */
  lemma LastWriteWins(files: map<string, Content>, p: string, v1: Value, f1: IoFault, v2: Value, f2: IoFault)
    ensures f2 != DeleteIgnored ==>
              WriteEffect(WriteEffect(files, p, v1, f1), p, v2, f2) == WriteEffect(files, p, v2, f2)
    ensures f2 == DeleteIgnored ==>
              WriteEffect(WriteEffect(files, p, v1, f1), p, v2, f2) == WriteEffect(files, p, v1, f1)
  {
  }

  /** The process's file system, shared by every store object. */
  class FileSystem {
    var files: map<string, Content>

    constructor (files: map<string, Content>)
      ensures this.files == files
    {
      this.files := files;
    }
  }

  /** `BaseDataStore(context, path, name)`: a view of the files under `<root>/<name>/`. */
  class BaseDataStore {
    const fs: FileSystem
    const root: string   // `path` in the source
    const name: string

    constructor (fs: FileSystem, root: string, name: string)
      ensures this.fs == fs && this.root == root && this.name == name
    {
      this.fs := fs;
      this.root := root;
      this.name := name;
    }

    /** `requirePath`: the store directory, one separator, then the key as a separator-free file name. */
    function RequirePath(key: string): (p: string)
      ensures p == StoreDirectory(root, name) + [Separator] + Coordinated(key)
      ensures Separator !in p[|StoreDirectory(root, name)| + 1..]
    {
      KeyPath(root, name, key)
    }

    /** `contains`: whether the file for `key` exists. */
    function Contains(key: string): (r: bool)
      reads fs
      ensures r <==> RequirePath(key) in fs.files
      ensures !r ==> forall c :: GetOrNull(key, c) == Null
    {
      RequirePath(key) in fs.files
    }

    /** `getOrNull<T>`: the object stored for `key` if it is of class `expected`. */
    function GetOrNull(key: string, expected: Class): (r: ReadOutcome)
      reads fs
      ensures r == Null <==> RequirePath(key) !in fs.files || fs.files[RequirePath(key)] == Unreadable
      ensures r.Found? ==> fs.files[RequirePath(key)] == Object(r.value) && ClassOf(r.value) == expected
      ensures r == CastFailure ==> fs.files[RequirePath(key)].Object? && ClassOf(fs.files[RequirePath(key)].value) != expected
    {
      Read(fs.files, RequirePath(key), expected)
    }

    /** `write`: replace the whole record for `key` (delete, create, write); an I/O error raises IllegalState. */
    method Write(key: string, content: Value, fault: IoFault) returns (outcome: Outcome)
      modifies fs
      ensures fs.files == WriteEffect(old(fs.files), RequirePath(key), content, fault)
      ensures outcome == if fault == NoFault then Completed else Thrown(IllegalState)
    {
      var p := RequirePath(key);
      if fault == DeleteIgnored {              // delete() returns false, createNewFile() finds the old file,
        return Thrown(IllegalState);           // and FileOutputStream(file) throws
      }
      fs.files := fs.files - {p};              // delete()
      if fault == CreateFails {
        return Thrown(IllegalState);
      }
      fs.files := fs.files[p := Unreadable];   // createNewFile(): an empty file
      if fault == StreamFails {
        return Thrown(IllegalState);
      }
      fs.files := fs.files[p := Object(content)];
      outcome := Completed;
    }

    /** `writeWhileNotExist`: write only when there is no file for `key` yet. */
    method WriteWhileNotExist(key: string, content: Value, fault: IoFault) returns (outcome: Outcome)
      modifies fs
      ensures old(Contains(key)) ==> fs.files == old(fs.files) && outcome == Completed
      ensures !old(Contains(key)) ==> fs.files == WriteEffect(old(fs.files), RequirePath(key), content, fault)
                                      && outcome == if fault == NoFault then Completed else Thrown(IllegalState)
    {
      outcome := Completed;
      if !Contains(key) {
        outcome := Write(key, content, fault);
      }
    }

    /**
     * `clear(key)` for a non-null key: delete the file for `key`, if any. The result of
     * `delete` is ignored, so when `deleteFails` the file stays and nothing is reported.
     */
    method Clear(key: string, deleteFails: bool)
      modifies fs
      ensures !deleteFails ==> fs.files == old(fs.files) - {RequirePath(key)} && !Contains(key)
      ensures deleteFails ==> fs.files == old(fs.files) && Contains(key) == old(Contains(key))
    {
      if !deleteFails {
        fs.files := fs.files - {RequirePath(key)};
      }
    }
  }
}
