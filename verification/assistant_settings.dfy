/** The three independent game-assistant toggles. */
module Assistant {

  datatype AssistantSettings = AssistantSettings(
    antiScreenRecording: bool := false,
    noBackgroundMode: bool := false,
    singleTransparentMode: bool := false)
}
