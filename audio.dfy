/** The audio backend as the host's routers see it: the `AudioManager` trait
    (mixer-gui/src-tauri/src/audio.rs and gui/src-tauri/src/audio.rs), with
    the platform bindings behind it replaced by a log of the volume calls
    made and an oracle that decides which calls fail. */
module Audio {
  import opened Common

  /** A volume-setting call, with the volume as an integer percentage. */
  datatype BackendCall = AppVolume(processId: u32, volume: int) | MasterVolume(volume: int)

  class AudioBackend {
    /** Every volume call made, in order. */
    var calls: seq<BackendCall>
    /** Which calls the platform refuses. */
    const refuses: BackendCall -> bool

    constructor(refuses: BackendCall -> bool)
      ensures calls == [] && this.refuses == refuses
    {
      calls := [];
      this.refuses := refuses;
    }

    /** `set_app_volume`. */
    method SetAppVolume(processId: u32, volume: int) returns (r: Outcome)
      modifies this
      ensures calls == old(calls) + [AppVolume(processId, volume)]
      ensures r.Fail? <==> refuses(AppVolume(processId, volume))
    {
      calls := calls + [AppVolume(processId, volume)];
      r := if refuses(AppVolume(processId, volume)) then Fail("set_app_volume failed") else Pass;
    }

    /** `set_master_volume`. */
    method SetMasterVolume(volume: int) returns (r: Outcome)
      modifies this
      ensures calls == old(calls) + [MasterVolume(volume)]
      ensures r.Fail? <==> refuses(MasterVolume(volume))
    {
      calls := calls + [MasterVolume(volume)];
      r := if refuses(MasterVolume(volume)) then Fail("set_master_volume failed") else Pass;
    }
  }
}
