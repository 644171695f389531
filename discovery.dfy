/**
 * The discovery document store of `app/api/discovery.py`: a dict filled once
 * from three JSON files, and the exact-key lookup behind
 * `GET /api/v1/get_pages/{id}`.
 */
module Discovery {
  import opened Wrappers
  import opened JsonValue

  /** The files `load_discovery_files` tries, in this order. */
  const DiscoveryFiles: seq<string> := ["home.json", "appfoundry.json", "modelgarden.json"]

  /** The keys those files are stored under. */
  const DiscoveryKeys: seq<string> := ["home", "appfoundry", "modelgarden"]

  const Suffix: string := ".json"

  /**
   * Python `s.replace(pat, "")`: every non-overlapping occurrence of `pat`,
   * scanned left to right, is removed.
   */
  function RemoveAll(s: string, pat: string): (r: string)
    requires pat != ""
    ensures |r| <= |s|
    ensures !Occurs(s, pat) ==> r == s
    decreases |s|
  {
    if |s| < |pat| then s
    else if s[..|pat|] == pat then
      assert OccursAt(s, pat, 0);
      RemoveAll(s[|pat|..], pat)
    else
      OccursInTail(s, pat);
      [s[0]] + RemoveAll(s[1..], pat)
  }

  /** `pat` appears in `s` at index `i`. */
  predicate OccursAt(s: string, pat: string, i: int) {
    0 <= i <= |s| - |pat| && s[i..i + |pat|] == pat
  }

  /** `pat` appears somewhere in `s`. */
  ghost predicate Occurs(s: string, pat: string) {
    exists i :: OccursAt(s, pat, i)
  }

  /** An occurrence in the tail of `s` is one in `s`, one place further on. */
  lemma OccursInTail(s: string, pat: string)
    requires s != []
    ensures Occurs(s[1..], pat) ==> Occurs(s, pat)
  {
    if Occurs(s[1..], pat) {
      var i :| OccursAt(s[1..], pat, i);
      assert s[i + 1..i + 1 + |pat|] == s[1..][i..i + |pat|];
      assert OccursAt(s, pat, i + 1);
    }
  }

  /** The store key of a file name: `file_name.replace('.json', '')`; a name without ".json" is its own key. */
  function StoreKey(fileName: string): (r: string)
    ensures |r| <= |fileName|
    ensures !Occurs(fileName, Suffix) ==> r == fileName
  {
    RemoveAll(fileName, Suffix)
  }

  /** A file name with no dot in its stem is stored under that stem. */
  lemma {:induction false} StoreKeyOfStem(stem: string)
    requires '.' !in stem
    ensures StoreKey(stem + Suffix) == stem
  {
    var s := stem + Suffix;
    if stem == [] {
      assert s == Suffix;
      assert s[|Suffix|..] == [];
    } else {
      assert s[0] == stem[0] != '.';
      assert s[..|Suffix|] != Suffix by { assert s[..|Suffix|][0] != Suffix[0]; }
      assert s[1..] == stem[1..] + Suffix;
      assert '.' !in stem[1..] by {
        forall i | 0 <= i < |stem[1..]| ensures stem[1..][i] != '.' { assert stem[1..][i] == stem[i + 1]; }
      }
      StoreKeyOfStem(stem[1..]);
      assert [stem[0]] + stem[1..] == stem;
    }
  }

  /** No two of the names are stored under the same key. */
  predicate DistinctKeys(names: seq<string>) {
    forall a, b :: 0 <= a < b < |names| ==> StoreKey(names[a]) != StoreKey(names[b])
  }

  /** The three discovery files are stored under "home", "appfoundry" and "modelgarden", no two alike. */
  lemma DiscoveryFileKeys()
    ensures |DiscoveryFiles| == |DiscoveryKeys| == 3
    ensures forall i :: 0 <= i < 3 ==> StoreKey(DiscoveryFiles[i]) == DiscoveryKeys[i]
    ensures DistinctKeys(DiscoveryFiles)
  {
    forall i | 0 <= i < 3 ensures StoreKey(DiscoveryFiles[i]) == DiscoveryKeys[i] {
      var stem := DiscoveryKeys[i];
      assert DiscoveryFiles[i] == stem + Suffix;
      assert '.' !in stem;
      StoreKeyOfStem(stem);
    }
  }

  /**
   * A Python dict from string keys to documents: its entries and the order
   * in which its keys were first inserted (`list(d.keys())`).
   */
  datatype Dict = Dict(keys: seq<string>, entries: map<string, Json>) {

    ghost predicate Valid() {
      && (forall i, j :: 0 <= i < j < |keys| ==> keys[i] != keys[j])
      && (forall k :: k in entries <==> k in keys)
    }

    /**
     * `d[k] = v`: `k` now maps to `v`, every other entry is unchanged, and
     * a new key goes to the end of the key order while an old one keeps its place.
     */
    function Put(k: string, v: Json): (r: Dict)
      ensures k in r.entries && r.entries[k] == v
      ensures forall k' :: k' != k ==> (k' in r.entries <==> k' in entries)
      ensures forall k' :: k' != k && k' in entries ==> r.entries[k'] == entries[k']
      ensures r.keys == if k in entries then keys else keys + [k]
      ensures Valid() ==> r.Valid()
    {
      Dict(if k in entries then keys else keys + [k], entries[k := v])
    }
  }

  const Empty: Dict := Dict([], map[])

  /**
   * The file system as `load_discovery_files` sees it: whether
   * `os.path.exists` holds for a file, and what opening it and `json.load`
   * give (None when either raises).
   */
  datatype FileSystem = FileSystem(present: string -> bool, read: string -> Option<Json>)

  /** A file is loaded when it exists and its contents parse. */
  predicate Loads(fs: FileSystem, fileName: string) {
    fs.present(fileName) && fs.read(fileName).Some?
  }

  /**
   * One iteration of the loading loop: a file that loads is stored under
   * its key, and a missing or unreadable one leaves the dict as it was.
   */
  function LoadOne(d: Dict, fs: FileSystem, fileName: string): (r: Dict)
    ensures !Loads(fs, fileName) ==> r == d
    ensures Loads(fs, fileName) ==> r.entries == d.entries[StoreKey(fileName) := fs.read(fileName).value]
    ensures Loads(fs, fileName) ==> r.keys == if StoreKey(fileName) in d.entries then d.keys else d.keys + [StoreKey(fileName)]
    ensures d.Valid() ==> r.Valid()
  {
    if fs.present(fileName) then
      match fs.read(fileName)
      case Some(doc) => d.Put(StoreKey(fileName), doc)
      case None => d
    else d
  }

  /** The dict after the loop has run over `names`, starting from `d`. */
  function LoadFiles(names: seq<string>, d: Dict, fs: FileSystem): (r: Dict)
    ensures d.Valid() ==> r.Valid()
    decreases |names|
  {
    if names == [] then d
    else LoadOne(LoadFiles(names[..|names| - 1], d, fs), fs, names[|names| - 1])
  }

  /** The documents that loading `names` writes, the later file winning on a shared key. */
  function Updates(names: seq<string>, fs: FileSystem): map<string, Json>
    decreases |names|
  {
    if names == [] then map[]
    else
      var last := names[|names| - 1];
      var u := Updates(names[..|names| - 1], fs);
      if Loads(fs, last) then u[StoreKey(last) := fs.read(last).value] else u
  }

  /** Loading overwrites the old dict with exactly the documents read and leaves every other entry alone. */
  lemma {:induction false} LoadFilesEntries(names: seq<string>, d: Dict, fs: FileSystem)
    ensures LoadFiles(names, d, fs).entries == d.entries + Updates(names, fs)
    decreases |names|
  {
    if names != [] {
      LoadFilesEntries(names[..|names| - 1], d, fs);
    }
  }

  /** Loading into the empty dict leaves exactly the documents read. */
  lemma LoadFromEmpty(names: seq<string>, fs: FileSystem)
    ensures LoadFiles(names, Empty, fs).entries == Updates(names, fs)
  {
  }

  /** Every key that `Updates` writes is the store key of one of the names. */
  lemma {:induction false} UpdatesKeys(names: seq<string>, fs: FileSystem, k: string)
    ensures k in Updates(names, fs) <==> exists i :: 0 <= i < |names| && StoreKey(names[i]) == k && Loads(fs, names[i])
    decreases |names|
  {
    if names != [] {
      var init := names[..|names| - 1];
      UpdatesKeys(init, fs, k);
      assert forall i :: 0 <= i < |init| ==> init[i] == names[i];
    }
  }

  /**
   * When every key `names` writes is already in the dict, loading keeps the
   * key order as it is.
   */
  lemma {:induction false} LoadFilesKeepsOrder(names: seq<string>, d: Dict, fs: FileSystem)
    requires Updates(names, fs).Keys <= d.entries.Keys
    ensures LoadFiles(names, d, fs).keys == d.keys
    decreases |names|
  {
    if names != [] {
      var init := names[..|names| - 1];
      var last := names[|names| - 1];
      assert Updates(init, fs).Keys <= d.entries.Keys by {
        forall k | k in Updates(init, fs) ensures k in d.entries {
          UpdatesKeys(init, fs, k);
          var i :| 0 <= i < |init| && StoreKey(init[i]) == k && Loads(fs, init[i]);
          assert init[i] == names[i];
          UpdatesKeys(names, fs, k);
        }
      }
      LoadFilesKeepsOrder(init, d, fs);
      LoadFilesEntries(init, d, fs);
      if Loads(fs, last) {
        UpdatesKeys(names, fs, StoreKey(last));
      }
    }
  }

  /** Running the load a second time, on the same files, changes nothing. */
  lemma LoadIdempotent(names: seq<string>, d: Dict, fs: FileSystem)
    ensures LoadFiles(names, LoadFiles(names, d, fs), fs) == LoadFiles(names, d, fs)
  {
    var once := LoadFiles(names, d, fs);
    var twice := LoadFiles(names, once, fs);
    LoadFilesEntries(names, d, fs);
    LoadFilesEntries(names, once, fs);
    assert twice.entries == once.entries;
    LoadFilesKeepsOrder(names, once, fs);
  }

  /** The documents the loop stores when it starts from the empty dict. */
  function Loaded(fs: FileSystem): Dict {
    LoadFiles(DiscoveryFiles, Empty, fs)
  }

  /** When no two names share a key, each name's key is written iff its file loads, with that file's document. */
  lemma {:induction false} UpdatesEntry(names: seq<string>, fs: FileSystem, i: nat)
    requires DistinctKeys(names)
    requires i < |names|
    ensures StoreKey(names[i]) in Updates(names, fs) <==> Loads(fs, names[i])
    ensures Loads(fs, names[i]) ==> Updates(names, fs)[StoreKey(names[i])] == fs.read(names[i]).value
    decreases |names|
  {
    var init := names[..|names| - 1];
    assert forall a :: 0 <= a < |init| ==> init[a] == names[a];
    if i == |names| - 1 {
      UpdatesKeys(init, fs, StoreKey(names[i]));
    } else {
      UpdatesEntry(init, fs, i);
    }
  }

  /**
   * A discovery file's key is present after loading iff the file exists and
   * parses, and then it holds exactly the parsed document.
   */
  lemma LoadedEntry(fs: FileSystem, i: nat)
    requires i < 3
    ensures DiscoveryKeys[i] in Loaded(fs).entries <==> Loads(fs, DiscoveryFiles[i])
    ensures Loads(fs, DiscoveryFiles[i]) ==>
              Loaded(fs).entries[DiscoveryKeys[i]] == fs.read(DiscoveryFiles[i]).value
  {
    DiscoveryFileKeys();
    LoadFromEmpty(DiscoveryFiles, fs);
    UpdatesEntry(DiscoveryFiles, fs, i);
  }

  /** After loading, the only keys are "home", "appfoundry" and "modelgarden". */
  lemma LoadedKeysKnown(fs: FileSystem, k: string)
    requires k in Loaded(fs).entries
    ensures k in DiscoveryKeys
  {
    DiscoveryFileKeys();
    LoadFilesEntries(DiscoveryFiles, Empty, fs);
    UpdatesKeys(DiscoveryFiles, fs, k);
  }

  /** Two file systems that agree on one discovery file load the same entry for its key, whatever the other files hold. */
  lemma OnlyOwnKey(fs1: FileSystem, fs2: FileSystem, i: nat)
    requires i < 3
    requires fs1.present(DiscoveryFiles[i]) == fs2.present(DiscoveryFiles[i])
    requires fs1.read(DiscoveryFiles[i]) == fs2.read(DiscoveryFiles[i])
    ensures DiscoveryKeys[i] in Loaded(fs1).entries <==> DiscoveryKeys[i] in Loaded(fs2).entries
    ensures DiscoveryKeys[i] in Loaded(fs1).entries ==>
              Loaded(fs1).entries[DiscoveryKeys[i]] == Loaded(fs2).entries[DiscoveryKeys[i]]
  {
    LoadedEntry(fs1, i);
    LoadedEntry(fs2, i);
  }

  /** The keys of the files in `names` that load, in the order the files are listed. */
  function LoadedKeys(names: seq<string>, fs: FileSystem): seq<string>
    decreases |names|
  {
    if names == [] then []
    else
      var last := names[|names| - 1];
      LoadedKeys(names[..|names| - 1], fs) + (if Loads(fs, last) then [StoreKey(last)] else [])
  }

  /**
   * Starting from the empty dict, the key order is the order of the files
   * that loaded, as long as no two files share a key.
   */
  lemma {:induction false} LoadFilesOrder(names: seq<string>, fs: FileSystem)
    requires DistinctKeys(names)
    ensures LoadFiles(names, Empty, fs).keys == LoadedKeys(names, fs)
    decreases |names|
  {
    if names != [] {
      var init := names[..|names| - 1];
      var last := names[|names| - 1];
      LoadFilesOrder(init, fs);
      LoadFilesEntries(init, Empty, fs);
      if Loads(fs, last) {
        UpdatesKeys(init, fs, StoreKey(last));
        assert forall i :: 0 <= i < |init| ==> init[i] == names[i];
        assert StoreKey(last) !in Updates(init, fs);
      }
    }
  }

  /** The loaded keys are the discovery keys whose files loaded, in file order. */
  lemma LoadedOrder(fs: FileSystem)
    ensures Loaded(fs).keys == LoadedKeys(DiscoveryFiles, fs)
  {
    DiscoveryFileKeys();
    LoadFilesOrder(DiscoveryFiles, fs);
  }

  /** The answer of `get_discovery`: the document with status 200, or a 404 body. */
  datatype Response = Ok(doc: Json) | NotFound(body: Json) {
    function Status(): nat {
      if Ok? then 200 else 404
    }
  }

  /** `{"detail": "Discovery '<id>' not found"}` */
  function NotFoundBody(id: string): Json {
    JObject(map["detail" := JString("Discovery '" + id + "' not found")])
  }

  /** The module-level `discovery_data` dict together with the operations on it. */
  class Store {
    var data: Dict

    ghost predicate Valid()
      reads this
    {
      data.Valid()
    }

    /** The dict as the module creates it, before any file is read. */
    constructor ()
      ensures Valid() && data == Empty
    {
      data := Empty;
    }

    /**
     * `load_discovery_files`: try each discovery file in turn; a file that
     * exists and parses is stored under its key, any other is skipped and the
     * loop goes on.
     */
    method Load(fs: FileSystem)
      requires Valid()
      modifies this
      ensures Valid()
      ensures data == LoadFiles(DiscoveryFiles, old(data), fs)
    {
      var files := DiscoveryFiles;
      for i := 0 to |files|
        invariant data.Valid()
        invariant data == LoadFiles(files[..i], old(data), fs)
      {
        var fileName := files[i];
        if fs.present(fileName) {
          var doc := fs.read(fileName);
          if doc.Some? {
            data := data.Put(StoreKey(fileName), doc.value);
          }
        }
        assert files[..i + 1][..i] == files[..i];
      }
      assert files[..|files|] == files;
    }

    /** `get_discovery`: an exact-key lookup that reads the store and changes nothing. */
    function Lookup(id: string): (r: Response)
      reads this
      ensures r.Ok? <==> id in data.entries
      ensures r.Ok? ==> r.doc == data.entries[id] && r.Status() == 200
      ensures r.NotFound? ==> r.body == NotFoundBody(id) && r.Status() == 404
    {
      if id in data.entries then Ok(data.entries[id]) else NotFound(NotFoundBody(id))
    }
  }

  /** Importing the module: an empty dict, then one run of the loading loop. */
  method Startup(fs: FileSystem) returns (s: Store)
    ensures fresh(s) && s.Valid()
    ensures s.data == Loaded(fs)
  {
    s := new Store();
    s.Load(fs);
  }

  /**
   * After loading into a fresh store, looking up a discovery key gives its
   * parsed document exactly when the file loaded, and 404 otherwise.
   */
  lemma LookupAfterLoad(s: Store, fs: FileSystem, i: nat)
    requires s.data == Loaded(fs)
    requires i < 3
    ensures s.Lookup(DiscoveryKeys[i]).Ok? <==> Loads(fs, DiscoveryFiles[i])
    ensures Loads(fs, DiscoveryFiles[i]) ==> s.Lookup(DiscoveryKeys[i]).doc == fs.read(DiscoveryFiles[i]).value
    ensures !Loads(fs, DiscoveryFiles[i]) ==> s.Lookup(DiscoveryKeys[i]).body == NotFoundBody(DiscoveryKeys[i])
  {
    LoadedEntry(fs, i);
  }

  /** Matching is exact: any id other than the three keys, such as "Home" or "home.json", is not found. */
  lemma LookupIsExact(s: Store, fs: FileSystem, id: string)
    requires s.data == Loaded(fs)
    requires id !in DiscoveryKeys
    ensures s.Lookup(id) == NotFound(NotFoundBody(id))
  {
    if id in s.data.entries {
      LoadedKeysKnown(fs, id);
    }
  }

  lemma LookupCaseSensitive(s: Store, fs: FileSystem)
    requires s.data == Loaded(fs)
    ensures s.Lookup("Home").NotFound? && s.Lookup("home.json").NotFound?
  {
    LookupIsExact(s, fs, "Home");
    LookupIsExact(s, fs, "home.json");
  }
}
