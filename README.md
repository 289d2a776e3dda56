# Playback synchronisation of the haipo podcast page

This Dafny project models the playback-synchronisation core of the haipo podcast
page (`src/App.js`). The page has one native `<audio>` element wrapped by the
`AudioPlayer` component, and one animated Haiku `Podcast` widget per feed episode.
The `App` component keeps the two sides in agreement. It records which widget is
current, which source is loaded and whether the App believes audio is playing.

The model has five modules:

- `Commands`: widget handles (opaque ids) and the command stream the page sends
  out. A command is `Play` or `Pause` to the audio element, or
  `SetPlayback(widget, newIsPlaying)` to a widget.
- `Keyboard`: the Enter-key filter `onEnter` around the feed-url input.
- `AudioPlayerComponent`: the `AudioPlayer` class with its props, its state and
  the listeners registered on the element.
  - `ComponentDidUpdate` turns a change of the `isPlaying` prop into one device
    call. It keeps the source's switch on the text `"old->new"`.
  - `ComponentDidMount` registers the `play`/`pause`/`seek` listeners and the
    callbacks table.
  - `OnNativeEvent` / `HandleEvent` forward a native event to the callback
    stored under its key.
- `AppComponent`: the App's state record, the updater functions its handlers
  pass to `setState`, and the `App` class. `SetCurrentHaikuPlaying` and
  `IsPlayingWasUpdated` send `setPlayback` to widgets.
- `Shell`: the mounted page as a whole.
  - `Step` is one event handled atomically: the App's updater, then the
    re-render of the player with props taken from the new App state, then its
    `componentDidUpdate`.
  - `Run` is a sequence of events.
  - The `Shell` class runs the components' methods and is proved to match `Step`
    and to keep the page invariant.
  - Its `log` field is the stream of commands sent, in order.

Two quirks of the source are reproduced as written:

- `setCurrentHaikuPlaying` compares against `this.state.isAudioPlaying`. The
  state field is `audioIsPlaying`, so the read yields `undefined` and the guard
  always passes. `StateProperty` models the property read, and
  `MisspelledGuardAlwaysPasses` proves the guard never holds a command back.
- The `seek` listener looks up the key `"seek"`. The callbacks table stores
  `onSeek`. So a `seek` event never reaches any callback (`MountedForwarding`,
  `OtherNativeEventsAreNoOps`).

Behaviour of the code a reader might not expect:

- A widget intent is never ignored. There is no check for an unknown widget. A
  pause intent from a widget that is not current still makes that widget current
  and stops the previous one.
- Native `play`/`pause` events do not change the App's `audioIsPlaying`. They
  only re-send the widget's visual state.
- Switching widgets while playing issues no `play()`: the `isPlaying` prop does
  not change, and the new source is left to the element's `autoPlay`.
- The listeners are never removed. The source has no unmount hook.

## Model

| member | source | states |
|---|---|---|
| `Keyboard.OnEnter` | src/App.js:49-55 | the wrapped callback is called exactly when the key code is 13, and with the same event |
| `Shell.StepRssUrl` | src/App.js:234-238 | only an Enter keydown changes the feed url, and it sets it to the typed text |
| `Shell.RssUrlIsLastEntered` | src/App.js:234-238 | after any events, the feed url is the text typed at the last Enter keydown, or the old url if there was none; no other event changes it |
| `AppComponent.WithRssUrl` | src/App.js:236-238 | the Enter updater sets `rssUrl` to the typed value and changes nothing else |
| `AppComponent.ToggledJson` | src/App.js:327-334 | the panel updater flips `showJson` and changes nothing else |
| `AppComponent.ToggleTwiceRestores` | src/App.js:328-333 | two panel clicks restore the state; one click always changes it |
| `Shell.StepShowJson` | src/App.js:327-334 | only a panel click changes `showJson`, and it flips it |
| `Shell.JsonPanelFollowsClickParity` | src/App.js:327-334 | after any events, `showJson` equals its old value exactly when the panel was clicked an even number of times |
| `AppComponent.InitialState` | src/App.js:125-132 | the page starts with no current widget, no audio url, not playing, panel closed, the default BBC feed url, and no haikus |
| `AppComponent.App.constructor` | src/App.js:125-132 | a new App holds the initial state |
| `AppComponent.AfterIntent` | src/App.js:297-302 | the intent updater makes the emitting widget current, with `audioUrl` the event's `srcUrl` and `audioIsPlaying` the event's `isPlaying`, and keeps `showJson`, `rssUrl` and `haikus` |
| `AppComponent.MisspelledGuardAlwaysPasses` | src/App.js:135-137 | the guard reads an absent state property (`undefined`), so it holds for every boolean argument |
| `AppComponent.ResyncCommands` | src/App.js:137-141 | `setCurrentHaikuPlaying(b)` sends exactly one `setPlayback(b)` to the current widget, none when there is no current widget, and no device call |
| `AppComponent.App.SetCurrentHaikuPlaying` | src/App.js:134-143 | the method with the source's guard sends exactly `ResyncCommands` and leaves the state alone |
| `AppComponent.IntentCommands` | src/App.js:292-296 | while an intent is applied, at most one command is sent: a stop to the previous current widget, and only when another widget emitted |
| `AppComponent.App.IsPlayingWasUpdated` | src/App.js:291-308 | the intent handler stops the previous widget as `IntentCommands` says, then applies `AfterIntent` |
| `AppComponent.App.SubmitRssUrl` | src/App.js:236-238 | the state becomes `WithRssUrl` of the old state |
| `AppComponent.App.ToggleShowJson` | src/App.js:328-334 | the state becomes `ToggledJson` of the old state |
| `AudioPlayerComponent.Unmounted` | src/App.js:58-65 | before mounting there is no device and the callbacks table holds only null `onPlay`/`onPause` |
| `AudioPlayerComponent.AudioPlayer.constructor` | src/App.js:58-65 | a new player has its props, the unmounted state, and no listeners |
| `AudioPlayerComponent.AudioPlayer.ComponentDidMount` | src/App.js:93-108 | mounting acquires the device, registers `play`, `pause` and `seek` listeners looking up `onPlay`, `onPause` and `seek`, and stores `onPlay`/`onPause`/`onSeek` from the props |
| `AudioPlayerComponent.Forward` | src/App.js:67-71 | a native event reaches a callback only if a listener is registered for it and a callback is stored under the key that listener reads |
| `AudioPlayerComponent.AudioPlayer.HandleEvent` | src/App.js:67-71 | the handler yields the callback stored under its key at event time, and nothing for a missing key |
| `AudioPlayerComponent.AudioPlayer.OnNativeEvent` | src/App.js:98-100 | a native event yields exactly the callback `Forward` names |
| `AudioPlayerComponent.MountedForwarding` | src/App.js:98-105 | once mounted, `play` reaches `onPlay`, `pause` reaches `onPause`, and `seek` and every other event reach nothing, whatever `onSeek` is |
| `AudioPlayerComponent.UnmountedForwardsNothing` | src/App.js:93-100 | before mounting, no native event reaches a callback |
| `AudioPlayerComponent.AudioPlayer.ComponentDidUpdate` | src/App.js:74-91 | the string switch issues `pause()` exactly on a true-to-false change, `play()` exactly on false-to-true, and nothing when the prop is unchanged or there is no device yet |
| `AudioPlayerComponent.AudioPlayer.Update` | src/App.js:74-77 | a re-render replaces the props, keeps state and listeners, and issues the device call for the old and new `isPlaying` |
| `Shell.PropsFor` | src/App.js:242-256 | the player's `isPlaying` and `src` props are the App's `audioIsPlaying` and `audioUrl`, and no `onSeek` is passed |
| `Shell.InitialSatisfiesInv` | src/App.js:125-132 | the mounted page satisfies the invariant: playing implies a current widget, and the player is mounted with its callbacks and listeners |
| `Shell.StepKeepsInv` | src/App.js:297-302 | every event keeps that invariant |
| `Shell.RerenderKeepsInSync` | src/App.js:74-91 | a re-render appends a device call exactly when `audioIsPlaying` changes, so the device calls keep alternating Play, Pause, ... |
| `Shell.DeviceCallKeepsAlternation` | src/App.js:77-86 | appending widget commands and the device call for a change of `isPlaying` keeps the device calls alternating, in step with the new value |
| `Shell.StepKeepsInSync` | src/App.js:74-91 | after every event, the device calls alternate starting with Play, and the App believes audio is playing exactly when an odd number of them went out |
| `Shell.RunKeepsInvAndSync` | src/App.js:125-132 | the invariant, the alternation and "only the current widget is shown playing" hold after any sequence of events |
| `Shell.PageStaysConsistent` | src/App.js:125-132 | from the freshly mounted page, after any events, playing implies a current widget, the device calls alternate in step with `audioIsPlaying`, and a widget last told to show "playing" is the current one |
| `Shell.LastFlagAppend` | src/App.js:137-141 | the flag a widget was last sent is decided by the later commands when they target it, otherwise by the earlier ones |
| `Shell.LastFlagUntargeted` | src/App.js:137-141 | commands that send no `setPlayback` to a widget leave its last flag undecided |
| `Shell.SendingToCurrentKeepsOnlyCurrent` | src/App.js:248-255 | an event that keeps the current widget and sends `setPlayback` only to it keeps "only the current widget is shown playing" |
| `Shell.IntentKeepsOnlyCurrent` | src/App.js:292-302 | a widget intent stops the previous current widget and makes the emitter current, so only the current widget is shown playing afterwards |
| `Shell.StepKeepsOnlyCurrent` | src/App.js:248-308 | every event keeps "a widget last told to show playing is the current widget", so at most one widget is shown playing |
| `Shell.FirstPlayFromIdle` | src/App.js:291-308 | from the idle page, a play intent makes the widget current with its source and sends exactly one `play()` |
| `Shell.PauseIntentFromCurrent` | src/App.js:291-308 | a pause intent from the current playing widget sends exactly one `pause()` and keeps the widget current |
| `Shell.SwitchStopsPreviousOnce` | src/App.js:292-302 | with widget `a` current and playing, a play intent from another widget sends exactly one command, a stop to `a`, makes the new widget current and gives the player the new source |
| `Shell.IntentWidgetCommands` | src/App.js:291-308 | any widget intent sends at most one widget command, first, and it is a stop to the previous current widget when another widget emitted |
| `Shell.RepeatedIntentIsNoOp` | src/App.js:291-308 | the same intent twice in a row: the second leaves the page as it was and sends nothing |
| `Shell.PlayEchoIsAbsorbed` | src/App.js:248-251 | while playing, the element's `play` event only re-sends "playing" to the current widget; no device call follows and nothing changes |
| `Shell.PauseEventResyncsWidget` | src/App.js:252-255 | the element's `pause` event only re-sends "paused" to the current widget |
| `Shell.OtherNativeEventsAreNoOps` | src/App.js:98-105 | `seek` and every other native event leave the page unchanged and send nothing |
| `Shell.NativeEventsNeverReachDevice` | src/App.js:248-255 | any run of native events leaves the page unchanged, sends no device call, and sends only `setPlayback` to the current widget |
| `Shell.StepPlaybackFields` | src/App.js:297-302 | only a widget intent changes the current widget, the audio url and `audioIsPlaying` |
| `Shell.PlaybackFollowsLastIntent` | src/App.js:291-308 | after any events, the current widget, audio url and playing flag are those of the last widget intent, or unchanged if there was none |
| `Shell.Shell.constructor` | src/App.js:93-108 | the mounted page: initial App state, player rendered from it and mounted, empty log |
| `Shell.Shell.OnWidgetIntent` | src/App.js:282-308 | a widget intent runs the handler, re-renders the player, appends the commands in the order sent, and keeps the invariant |
| `Shell.Shell.OnNativeEvent` | src/App.js:248-255 | a native event runs the forwarded App callback, if any, appends its commands, and keeps the invariant |
| `Shell.Shell.OnKeyDown` | src/App.js:234-239 | a keydown submits the url only on Enter, and keeps the invariant |
| `Shell.Shell.OnJsonPanelClick` | src/App.js:327-335 | a panel click toggles `showJson`, and keeps the invariant |

## Left out

- The GraphQL query, the Apollo/OneGraph client and the Twitter login with its `isLoggedIn` state (src/App.js:14-47, 145-165). These are network I/O and foreign libraries.
- JSX rendering, styles, the `JSON.stringify` panel text and the feed's loading and error views (src/App.js:110-121, 167-352). A new `rssUrl` makes the feed query reload, which unmounts and remounts the player and the widgets. The model keeps one mounted page and does not model that remount.
- `ReactDOM.findDOMNode` and `addEventListener` (src/App.js:94-100). The element is a flag, and its listeners are a map from event name to the key the handler reads.
- The internals of the Haiku `Podcast` widget (src/App.js:272-320). This includes its `state:set` logging handler and how it reacts to `setPlayback`. Widgets are opaque ids, and the events they emit are inputs.
- React's batching of `setState` and the promise returned by `audio.play()`. Each handler is one atomic step. Native events are arbitrary inputs, not tied to earlier device calls.
- The element's own reaction to a new `src` with `autoPlay`. The model keeps the source only as the player's `src` prop.
- `console.log` and `console.info` calls, and the event's `podcastId`, which is only logged.
- `AudioPlayerComponent.AudioPlayer.ComponentDidUpdate`: `isPlaying` is a boolean in the model. The switch's default branch is reached only by a non-boolean prop, so the model does not reach it.
