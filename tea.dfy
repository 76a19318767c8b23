/** The messages and commands of the terminal UI's event loop, as far as the
    two models react to them. */
module Tea {

  /** A key press, named as the event loop spells it ("q", "ctrl+c",
      "shift+tab", ...), or any other message (window resizes, ticks). */
  datatype Msg = KeyMsg(key: string) | OtherMsg

  /** What an update asks the event loop to do next. */
  datatype Cmd = NoCmd | QuitCmd

  /** The keys both models quit on. */
  predicate IsQuitKey(k: string) {
    k == "q" || k == "ctrl+c" || k == "esc"
  }

  predicate IsQuit(msg: Msg) {
    msg.KeyMsg? && IsQuitKey(msg.key)
  }
}
