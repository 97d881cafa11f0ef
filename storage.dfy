/**
  The local artifact store (`LocalStorageService`): serialized models kept as files
  under a base directory and addressed by a key, with copy-in, load and existence check.
  The files themselves belong to the process's filesystem, which every store shares.
*/
module Storage {
  import opened Outcomes

  newtype byte = x: int | 0 <= x < 256
  type Bytes = seq<byte>

  /** The regular files that exist, by path, with their contents. */
  type Files = map<string, Bytes>

  /** The base directory every store of the stage is created with (the constructor's default). */
  const DefaultBaseDir: string := "local_models"

  /** The filesystem of the process: one object that every store reads and writes. */
  class FileSystem {
    var files: Files

    constructor (files: Files)
      ensures this.files == files
    {
      this.files := files;
    }
  }

  predicate IsAbsolute(path: string) {
    |path| > 0 && path[0] == '/'
  }

  /**
    POSIX `os.path.join(base, key)` for a single component: an absolute key replaces
    the base; otherwise the key is appended, with a `/` unless the base is empty or
    already ends in one.
  */
  function Join(base: string, key: string): (p: string)
    ensures |key| <= |p| && p[|p| - |key|..] == key
    ensures IsAbsolute(key) ==> p == key
    ensures !IsAbsolute(key) ==> |base| + |key| <= |p| <= |base| + 1 + |key| && p[..|base|] == base
    ensures !IsAbsolute(key) && base != "" ==> p[|p| - |key| - 1] == '/'
    ensures !IsAbsolute(key) && (base == "" || base[|base| - 1] == '/') ==> p == base + key
    ensures !IsAbsolute(key) && base != "" && base[|base| - 1] != '/' ==> p == base + "/" + key
  {
    if IsAbsolute(key) then key
    else if base == "" || base[|base| - 1] == '/' then base + key
    else base + "/" + key
  }

  /** Under a relative, non-empty base, distinct keys name distinct files. */
  lemma JoinInjective(base: string, k1: string, k2: string)
    requires base != "" && !IsAbsolute(base)
    requires Join(base, k1) == Join(base, k2)
    ensures k1 == k2
  {
    var p := Join(base, k1);
    if !IsAbsolute(k1) && !IsAbsolute(k2) {
      assert |k1| == |k2|;
      assert k1 == p[|p| - |k1|..] == k2;
    }
  }

  /**
    Under a non-empty base every full path has a directory part, so
    `os.path.dirname` of it is never empty and `os.makedirs` has something to create.
  */
  lemma JoinHasDirectory(base: string, key: string)
    requires base != ""
    ensures '/' in Join(base, key)
  {
    var p := Join(base, key);
    if IsAbsolute(key) {
      assert p[0] == '/';
    } else {
      assert p[|p| - |key| - 1] == '/';
    }
  }

  /**
    `shutil.copy(src, dest)` followed, when `remove` is set, by `os.remove(src)`:
    the copy fails when the source is missing or is the destination itself; otherwise
    the destination holds the source's bytes (replacing what was there) and only then
    is the source deleted.
  */
  function Upload(files: Files, src: string, dest: string, remove: bool): (r: Result<Files>)
    ensures r.Ok? <==> src in files && src != dest
    ensures src !in files ==> r == Err(FileNotFound(src))
    ensures src in files && src == dest ==> r == Err(SameFile(src))
    ensures r.Ok? ==> dest in r.value && r.value[dest] == files[src]
    ensures r.Ok? ==> (src in r.value <==> !remove)
    ensures r.Ok? && !remove ==> r.value[src] == files[src]
    ensures r.Ok? ==> forall p :: p != src && p != dest ==>
              (p in r.value <==> p in files) && (p in files ==> r.value[p] == files[p])
  {
    if src !in files then Err(FileNotFound(src))
    else if src == dest then Err(SameFile(src))
    else if remove then Ok(files[dest := files[src]] - {src})
    else Ok(files[dest := files[src]])
  }

  /**
    Reading `path` and unpickling it: a missing file raises FileNotFoundError before
    anything is read; bytes the deserialiser rejects raise an unpickling error.
  */
  function Load<M>(files: Files, path: string, unpickle: Bytes -> Option<M>): (r: Result<M>)
    ensures r.Ok? <==> path in files && unpickle(files[path]).Some?
    ensures r.Ok? ==> unpickle(files[path]) == Some(r.value)
    ensures path !in files ==> r == Err(FileNotFound(path))
  {
    if path !in files then Err(FileNotFound(path))
    else match unpickle(files[path])
      case None => Err(Unpickling(path))
      case Some(m) => Ok(m)
  }

  /** Copying the same source over the same destination a second time changes nothing. */
  lemma UploadIdempotent(files: Files, src: string, dest: string)
    requires Upload(files, src, dest, false).Ok?
    ensures var once := Upload(files, src, dest, false).value;
            Upload(once, src, dest, false) == Ok(once)
  {
    var once := Upload(files, src, dest, false).value;
    assert once[dest := once[src]] == once;
  }

  /** Loading the destination after an upload yields the model that loading the source yielded before it. */
  lemma UploadThenLoad<M>(files: Files, src: string, dest: string, remove: bool, unpickle: Bytes -> Option<M>)
    requires Upload(files, src, dest, remove).Ok?
    ensures var after := Upload(files, src, dest, remove).value;
            (Load(after, dest, unpickle).Ok? <==> Load(files, src, unpickle).Ok?) &&
            (Load(after, dest, unpickle).Ok? ==> Load(after, dest, unpickle).value == Load(files, src, unpickle).value)
  {
  }

  /** An upload leaves every other file loading as before. */
  lemma UploadKeepsOtherLoads<M>(files: Files, src: string, dest: string, remove: bool, path: string, unpickle: Bytes -> Option<M>)
    requires Upload(files, src, dest, remove).Ok?
    requires path != src && path != dest
    ensures Load(Upload(files, src, dest, remove).value, path, unpickle) == Load(files, path, unpickle)
  {
  }

  /** A store rooted at `baseDir` over the shared filesystem `fs`. */
  class LocalStorageService {
    const fs: FileSystem
    const baseDir: string

    /** The source also creates `baseDir` on disk; directories are not part of this model. */
    constructor (fs: FileSystem, baseDir: string)
      requires baseDir != ""
      ensures this.fs == fs && this.baseDir == baseDir
    {
      this.fs := fs;
      this.baseDir := baseDir;
    }

    /** `_full_path`: the file a key names, `os.path.join(base_dir, key)`. */
    function FullPath(key: string): (p: string)
      ensures IsAbsolute(key) ==> p == key
      ensures !IsAbsolute(key) && baseDir != "" && baseDir[|baseDir| - 1] != '/' ==> p == baseDir + "/" + key
      ensures baseDir != "" ==> '/' in p
    {
      if baseDir != "" then JoinHasDirectory(baseDir, key); Join(baseDir, key)
      else Join(baseDir, key)
    }

    /**
      `upload_file(from_file, to_filename, remove=remove)`: `src` is a path used as given,
      `key` is resolved under the base directory. On failure nothing changes.
    */
    method UploadFile(src: string, key: string, remove: bool) returns (r: Outcome)
      modifies fs
      ensures var u := Upload(old(fs.files), src, FullPath(key), remove);
              (u.Ok? ==> r == Pass && fs.files == u.value) &&
              (u.Err? ==> r == Fail(u.error) && fs.files == old(fs.files))
    {
      var dest := FullPath(key);
      if src !in fs.files {
        return Fail(FileNotFound(src));
      }
      if src == dest {
        return Fail(SameFile(src));
      }
      fs.files := fs.files[dest := fs.files[src]];
      if remove {
        fs.files := fs.files - {src};
      }
      r := Pass;
    }

    /** `load_model(filename)`: the unpickled contents of the key's file. */
    method LoadModel<M>(key: string, unpickle: Bytes -> Option<M>) returns (r: Result<M>)
      ensures r == Load(fs.files, FullPath(key), unpickle)
      ensures FullPath(key) !in fs.files ==> r == Err(FileNotFound(FullPath(key)))
      ensures r.Ok? ==> unpickle(fs.files[FullPath(key)]) == Some(r.value)
    {
      var path := FullPath(key);
      if path !in fs.files {
        return Err(FileNotFound(path));
      }
      var m := unpickle(fs.files[path]);
      if m.None? {
        return Err(Unpickling(path));
      }
      r := Ok(m.value);
    }

    /** `s3_key_path_available(bucket_name, s3_key)`: whether the key's file exists; never fails. */
    method S3KeyPathAvailable(key: string) returns (available: bool)
      ensures available <==> FullPath(key) in fs.files
    {
      available := FullPath(key) in fs.files;
    }
  }
}
