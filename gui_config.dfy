/** Configuration of the gui host application (gui/src-tauri/src/config.rs). */
module GuiConfig {
  import opened Common
  import opened ConfigStore
  import opened Types

  /** The configuration used when no file exists. */
  const Defaults: AppConfig := AppConfig(false, true, true, "dark")

  /** `load_config`. */
  function LoadConfig(dirReady: bool, files: map<string, Entry<AppConfig>>): (r: Result<AppConfig>)
    ensures dirReady && ConfigFileName !in files ==>
      r.Ok? && !r.value.startWithWindows && r.value.minimizeToTray && r.value.autoConnect
      && r.value.theme == "dark"
    ensures r.Ok? && ConfigFileName in files ==> files[ConfigFileName] == Parsed(r.value)
    ensures r.Err? <==> !dirReady || (ConfigFileName in files && files[ConfigFileName].Unreadable?)
  {
    Load(dirReady, files, Defaults)
  }

  /** `save_config`. */
  method SaveConfig(fs: FileStore<AppConfig>, config: AppConfig) returns (r: Outcome)
    modifies fs
    ensures fs.dirReady == old(fs.dirReady) && fs.writable == old(fs.writable)
    ensures r.Pass? <==> old(fs.dirReady) && old(fs.writable)
    ensures r.Pass? ==> fs.files == old(fs.files)[ConfigFileName := Parsed(config)]
    ensures r.Fail? ==> fs.files == old(fs.files)
  {
    r := Save(fs, config);
  }

  /** A saved configuration loads back unchanged. */
  lemma LoadAfterSave(files: map<string, Entry<AppConfig>>, config: AppConfig)
    ensures LoadConfig(true, files[ConfigFileName := Parsed(config)]) == Ok(config)
  {
    LoadAfterStore(files, config, Defaults);
  }

  /** The merge of `update_settings`: each given setting replaces its field. */
  function ApplySettings(config: AppConfig, u: SettingsUpdate): (c: AppConfig)
    ensures c.startWithWindows == UnwrapOr(u.startWithWindows, config.startWithWindows)
    ensures c.minimizeToTray == UnwrapOr(u.minimizeToTray, config.minimizeToTray)
    ensures c.autoConnect == UnwrapOr(u.autoConnect, config.autoConnect)
    ensures c.theme == UnwrapOr(u.theme, config.theme)
  {
    AppConfig(
      UnwrapOr(u.startWithWindows, config.startWithWindows),
      UnwrapOr(u.minimizeToTray, config.minimizeToTray),
      UnwrapOr(u.autoConnect, config.autoConnect),
      UnwrapOr(u.theme, config.theme))
  }

  /** An update that gives nothing leaves the configuration as it is. */
  lemma ApplyNothing(config: AppConfig)
    ensures ApplySettings(config, SettingsUpdate(None, None, None, None)) == config
  {
  }

  /** Applying the same update twice is applying it once. */
  lemma ApplyIdempotent(config: AppConfig, u: SettingsUpdate)
    ensures ApplySettings(ApplySettings(config, u), u) == ApplySettings(config, u)
  {
  }

  /** `update_settings`: loads, overrides the given fields one by one, saves.
      A load error is returned before anything is written. */
  method UpdateSettings(fs: FileStore<AppConfig>, u: SettingsUpdate) returns (r: Outcome)
    modifies fs
    ensures fs.dirReady == old(fs.dirReady) && fs.writable == old(fs.writable)
    ensures Persisted(LoadConfig(old(fs.dirReady), old(fs.files)), old(fs.writable), old(fs.files), fs.files,
                      c => ApplySettings(c, u), r)
  {
    var loaded := LoadConfig(fs.dirReady, fs.files);
    if loaded.Err? {
      return Fail(loaded.error);
    }
    var config := MergeSettings(loaded.value, u);
    r := SaveConfig(fs, config);
  }

  /** The field-by-field overrides of `update_settings`. */
  method MergeSettings(loaded: AppConfig, u: SettingsUpdate) returns (config: AppConfig)
    ensures config == ApplySettings(loaded, u)
  {
    config := loaded;
    ghost var target := ApplySettings(loaded, u);
    if u.startWithWindows.Some? {
      config := config.(startWithWindows := u.startWithWindows.value);
    }
    if u.minimizeToTray.Some? {
      config := config.(minimizeToTray := u.minimizeToTray.value);
    }
    if u.autoConnect.Some? {
      config := config.(autoConnect := u.autoConnect.value);
    }
    if u.theme.Some? {
      config := config.(theme := u.theme.value);
    }
    assert config.theme == target.theme;
  }
}
