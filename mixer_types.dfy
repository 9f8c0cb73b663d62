/** The records of the mixer host application (mixer-gui/src-tauri). Its
    types.rs is not part of this model; the shapes follow their uses in
    mixer-gui/src-tauri/src/lib.rs and config.rs. */
module MixerTypes {
  import opened Common

  /** What a mixer channel controls: the master volume, or the application
      with the given process. */
  datatype ChannelMapping = ChannelMapping(
    channelId: nat,
    isMaster: bool,
    processId: Option<u32>,
    processName: Option<string>)

  /** One slot of the mixer view. */
  datatype MixerChannel = MixerChannel(
    id: nat,
    value: int,
    isPhysical: bool,
    mappedApp: Option<string>,
    appProcessId: Option<u32>)

  /** The persisted configuration. */
  datatype AppConfig = AppConfig(
    channelMappings: seq<ChannelMapping>,
    startWithWindows: bool,
    minimizeToTray: bool,
    autoConnect: bool,
    theme: string)
}
