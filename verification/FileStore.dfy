/** The filesystem backend step by step: a crash may fall between any two system calls. */
module FileStore {
  import opened Base
  import opened Blob

  // How one system call ends: done, with an error, or not at all because the process died.
  datatype Step = Works | Errors | Crashes

  // One put: how each system call ends, and how much of a torn write reached the disk.
  datatype Script = Script(mkdir: Step, create: Step, chmod: Step, write: Step, close: Step,
                           rename: Step, cleanup: Step, torn: nat)

  datatype Ending = Installed | Failed(message: string) | Died

  const TMP := ".tmp"

  predicate HasSuffix(s: string, suffix: string) {
    |suffix| <= |s| && s[|s| - |suffix|..] == suffix
  }

  /** No temporary name is an object key. */
  lemma TempIsNotKey(tmp: string, c: Codec, raw: Bytes, w: Window, logType: string)
    requires HasSuffix(tmp, TMP)
    ensures tmp != PrepareBlob(c, raw, w, logType).1.key
  {
    var key := PrepareBlob(c, raw, w, logType).1.key;
    assert key[|key| - 1] == 'z';
    if |tmp| == |key| {
      assert tmp[|tmp| - 4..][3] == 'p';
    }
  }

  class FSStore {
    var files: map<string, Bytes>

    constructor ()
      ensures files == map[]
    {
      files := map[];
    }

    // The deferred removal of the temporary file; its error is ignored. A process that
    // died earlier does not come this far.
    method Leave(tmp: string, ended: Step, cleanup: Step, ending: Ending) returns (e: Ending)
      modifies this
      ensures files == if ended != Crashes && cleanup == Works then old(files) - {tmp} else old(files)
      ensures e == if ended == Crashes || cleanup == Crashes then Died else ending
    {
      if ended == Crashes {
        return Died;
      }
      if cleanup == Works {
        files := files - {tmp};
      }
      e := if cleanup == Crashes then Died else ending;
    }

    // Fills the temporary file that has just been created; says how the last call ended.
    method Fill(blob: Bytes, tmp: string, script: Script) returns (ended: Step, ending: Ending)
      requires tmp !in files
      modifies this
      ensures files - {tmp} == old(files) && tmp in files
      ensures ended == Works <==> script.chmod == script.write == script.close == Works
      ensures ended == Works ==> files[tmp] == blob && ending == Installed
      ensures ended != Works ==> ending.Failed?
    {
      files := files[tmp := []];
      if script.chmod != Works {
        return script.chmod, Failed("storage: chmod");
      }
      if script.write != Works {
        files := files[tmp := blob[..if script.torn <= |blob| then script.torn else |blob|]];
        return script.write, Failed("storage: write temp");
      }
      files := files[tmp := blob];
      if script.close != Works {
        return script.close, Failed("storage: close temp");
      }
      return Works, Installed;
    }

    // Writes a temporary file beside the target and renames it over the target.
    method Install(path: string, blob: Bytes, tmp: string, script: Script) returns (e: Ending)
      requires tmp !in files && tmp != path
      modifies this
      ensures files - {tmp} == old(files) || files == old(files)[path := blob]
      ensures e.Installed? ==> files == old(files)[path := blob]
      ensures e.Failed? ==> files - {tmp} == old(files) && (script.cleanup == Works ==> files == old(files))
      ensures e.Installed? <==>
              script.mkdir == script.create == script.chmod == script.write == script.close == script.rename == Works &&
              script.cleanup != Crashes
    {
      if script.mkdir != Works {
        return if script.mkdir == Crashes then Died else Failed("storage: mkdir");
      }
      if script.create != Works {
        return if script.create == Crashes then Died else Failed("storage: create temp");
      }
      var ended, ending := Fill(blob, tmp, script);
      if ended == Works && script.rename != Works {
        ended, ending := script.rename, Failed("storage: rename");
      }
      if ended == Works {
        files := (files - {tmp})[path := files[tmp]];
        assert files - {tmp} == files;
      }
      e := Leave(tmp, ended, script.cleanup, ending);
    }

    /** Whatever fails and wherever the process dies, the key is afterwards as it was or
        holds the complete object, no other key changes, and success is reported only for
        the complete object. */
    method PutLogs(c: Codec, raw: Bytes, w: Window, logType: string, tmp: string, script: Script)
      returns (r: Option<Result<Metadata>>)
      requires tmp !in files && HasSuffix(tmp, TMP)
      modifies this
      ensures var (blob, meta) := PrepareBlob(c, raw, w, logType);
              && (files - {tmp} == old(files) || files == old(files)[meta.key := blob])
              && (r.Some? && r.value.Ok? ==> r.value.value == meta && files == old(files)[meta.key := blob])
              && (r.Some? && r.value.Err? ==> files - {tmp} == old(files))
    {
      var (blob, meta) := PrepareBlob(c, raw, w, logType);
      TempIsNotKey(tmp, c, raw, w, logType);
      var e := Install(meta.key, blob, tmp, script);
      match e
      case Installed => r := Some(Ok(meta));
      case Failed(message) => r := Some(Err(message));
      case Died => r := None;
    }

    // Opening the file or reading it to its end may fail although the file is there.
    method GetLogs(c: Codec, key: string, canOpen: bool, canRead: bool) returns (r: Result<Bytes>)
      ensures r.Ok? <==> canOpen && key in files && canRead && c.gunzip(files[key]).Some?
      ensures r.Ok? ==> c.gunzip(files[key]) == Some(r.value)
    {
      if key !in files {
        return Err("storage: key not found: " + key);
      }
      if !canOpen {
        return Err("storage: open file");
      }
      if !canRead {
        return Err("storage: read");
      }
      match c.gunzip(files[key])
      case None => r := Err("storage: gzip reader");
      case Some(data) => r := Ok(data);
    }

    // Removing a file that is not there succeeds.
    method DeleteObject(key: string, removed: bool) returns (ok: bool)
      modifies this
      ensures files == if removed then old(files) - {key} else old(files)
      ensures ok <==> key !in files
    {
      if removed {
        files := files - {key};
      }
      ok := key !in files;
    }
  }
}
