/** The Enter-key filter wrapped around the feed-url input's keydown handler. */
module Keyboard {
  import opened Commands

  /** The key code the filter lets through (Enter). */
  const ENTER_KEY_CODE := 13

  /** The part of a DOM keydown event the page looks at: the key code
      (`event.which`) and the text typed so far (`event.target.value`). */
  datatype KeyEvent = KeyEvent(which: int, targetValue: string)

  /** `onEnter(cb)(event)`: the event the wrapped callback is called with,
      or None when the callback is not called at all. */
  function OnEnter(event: KeyEvent): (delivered: Option<KeyEvent>)
    ensures delivered.Some? <==> event.which == ENTER_KEY_CODE
    ensures delivered.Some? ==> delivered.value == event
  {
    if ENTER_KEY_CODE == event.which then Some(event) else None
  }
}
