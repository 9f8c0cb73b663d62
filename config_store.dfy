/** The file system under a configuration module (config.rs in both host
    applications), reduced to what `load_config` and `save_config` observe:
    whether the configuration directory can be resolved and created,
    whether writing succeeds, and which files hold which documents. */
module ConfigStore {
  import opened Common

  /** `CONFIG_FILE_NAME`. */
  const ConfigFileName: string := "config.json"

  /** What a file holds: a document that parses as a configuration, or
      content that cannot be read or parsed. */
  datatype Entry<D> = Parsed(doc: D) | Unreadable(reason: string)

  /** The optional settings of `update_settings`, the same in both
      applications. */
  datatype SettingsUpdate = SettingsUpdate(
    startWithWindows: Option<bool>,
    minimizeToTray: Option<bool>,
    autoConnect: Option<bool>,
    theme: Option<string>)

  class FileStore<D> {
    /** `app_config_dir()` and `create_dir_all` succeed. */
    var dirReady: bool
    /** `fs::write` succeeds. */
    var writable: bool
    var files: map<string, Entry<D>>

    constructor(dirReady: bool, writable: bool, files: map<string, Entry<D>>)
      ensures this.dirReady == dirReady && this.writable == writable && this.files == files
    {
      this.dirReady := dirReady;
      this.writable := writable;
      this.files := files;
    }
  }

  /** `load_config` with the given default: an error when the directory
      cannot be prepared or the file cannot be read or parsed, the default
      when there is no file, and the stored document otherwise. */
  function Load<D>(dirReady: bool, files: map<string, Entry<D>>, default: D): (r: Result<D>)
    ensures !dirReady ==> r.Err?
    ensures dirReady && ConfigFileName !in files ==> r == Ok(default)
    ensures dirReady && ConfigFileName in files ==>
      (r.Ok? <==> files[ConfigFileName].Parsed?)
      && (r.Ok? ==> r.value == files[ConfigFileName].doc)
  {
    if !dirReady then Err("cannot prepare the configuration directory")
    else if ConfigFileName !in files then Ok(default)
    else
      match files[ConfigFileName]
      case Parsed(doc) => Ok(doc)
      case Unreadable(reason) => Err(reason)
  }

  /** Loading after a successful save gives back the saved document. */
  lemma LoadAfterStore<D>(files: map<string, Entry<D>>, doc: D, default: D)
    ensures Load(true, files[ConfigFileName := Parsed(doc)], default) == Ok(doc)
  {
  }

  /** `save_config`: writes the document to the configuration file. */
  method Save<D>(fs: FileStore<D>, doc: D) returns (r: Outcome)
    modifies fs
    ensures fs.dirReady == old(fs.dirReady) && fs.writable == old(fs.writable)
    ensures r.Pass? <==> old(fs.dirReady) && old(fs.writable)
    ensures r.Pass? ==> fs.files == old(fs.files)[ConfigFileName := Parsed(doc)]
    ensures r.Fail? ==> fs.files == old(fs.files)
  {
    if !fs.dirReady {
      return Fail("cannot prepare the configuration directory");
    }
    if !fs.writable {
      return Fail("cannot write the configuration file");
    }
    fs.files := fs.files[ConfigFileName := Parsed(doc)];
    r := Pass;
  }

  /** What a load-modify-save leaves behind, given what the load returned:
      on a load error, that error and the files as they were; otherwise the
      modified document in the file if it could be written, the files as
      they were if not. */
  predicate Persisted<D(==)>(loaded: Result<D>, writable: bool, before: map<string, Entry<D>>,
                         after: map<string, Entry<D>>, change: D -> D, r: Outcome)
  {
    match loaded
    case Err(e) => r == Fail(e) && after == before
    case Ok(c) =>
      && (r.Pass? <==> writable)
      && after == (if r.Pass? then before[ConfigFileName := Parsed(change(c))] else before)
  }
}
