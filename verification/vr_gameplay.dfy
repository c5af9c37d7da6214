/**
 * Gameplay decisions of the VR layer: whether the game is shown on the
 * virtual screen instead of in full immersion, and the pause request that
 * the session handler issues when the headset stops being visible.
 */
module Gameplay {
  import opened VrTypes

  /** The key catchers that `Key_GetCatcher` may report, as far as the decision reads them. */
  datatype KeyCatcher = KeyCatcher(ui: bool, console: bool, other: bool)

  /**
   * `VR_Gameplay_ShouldRenderInVirtualScreen`: the virtual screen is used
   * outside intermission whenever the client is not in a live game or a menu
   * or the console catches the keys.
   */
  function ShouldRenderInVirtualScreen(intermission: bool, state: ConnState, catcher: KeyCatcher): (r: bool)
    ensures intermission ==> !r
    ensures !intermission && state == Active && !catcher.ui && !catcher.console ==> !r
  {
    if intermission then false
    else state == Cinematic || state != Active || (catcher.ui || catcher.console)
  }

  /**
   * Reference reading of the decision: full immersion exactly during
   * intermission or in a live game with neither a menu nor the console up.
   * The explicit cinematic test of the source is subsumed by `state != Active`.
   */
  lemma VirtualScreenIffNotPlaying(intermission: bool, state: ConnState, catcher: KeyCatcher)
    ensures ShouldRenderInVirtualScreen(intermission, state, catcher)
        <==> !(intermission || (state == Active && !catcher.ui && !catcher.console))
  {
  }

  /** The commands `VR_Gameplay_OpenMenuAndPauseIfPossible` appends to the command buffer. */
  function OpenMenuAndPauseIfPossible(state: ConnState, demoPlaying: bool, paused: real): (cmds: seq<string>)
    ensures |cmds| <= 1
    ensures cmds != [] <==> state == Active && !demoPlaying && paused == 0.0
    ensures forall c :: c in cmds ==> c == "togglemenu\n"
  {
    if state == Active && !demoPlaying && paused == 0.0 then ["togglemenu\n"] else []
  }
}
