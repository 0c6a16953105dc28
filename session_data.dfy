/** The host-side session settings that the main menu and the lobby write
    and the match controller reads. In the game they are two static fields;
    here they are one object passed to every component that touches them. */
module SessionData {

  class SessionContext {
    var selectedSceneName: string
    var matchSeconds: int

    /** The static initialisers: no scene selected, a 180-second match. */
    constructor ()
      ensures selectedSceneName == "" && matchSeconds == 180
    {
      selectedSceneName := "";
      matchSeconds := 180;
    }
  }
}
