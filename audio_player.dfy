/** The `AudioPlayer` component: it owns the one native audio element, turns a
    change of its `isPlaying` prop into a `play()` or `pause()` call, and
    forwards the element's own `play`/`pause`/`seek` events to the callbacks
    it was given. `H` is whatever the parent passes as a callback. */
module AudioPlayerComponent {
  import opened Commands

  /** The props the parent renders the player with. */
  datatype Props<H> = Props(
    src: Option<string>,
    isPlaying: bool,
    onPlay: Option<H>,
    onPause: Option<H>,
    onSeek: Option<H>)

  /** The component's state. `deviceRef` says whether `audioPlayerRef` holds the
      audio element yet; `isAudioPlaying` is declared and never read or written
      again; `callbacks` is the key-to-callback table the native listeners read. */
  datatype State<H> = State(
    deviceRef: bool,
    isAudioPlaying: bool,
    callbacks: map<string, Option<H>>)

  /** The keys of the callbacks table, and the native event names. */
  const ON_PLAY := "onPlay"
  const ON_PAUSE := "onPause"
  const ON_SEEK := "onSeek"
  const SEEK := "seek"

  function Unmounted<H>(): (st: State<H>)
    ensures !st.deviceRef && st.callbacks.Keys == {ON_PLAY, ON_PAUSE}
    ensures forall k :: k in st.callbacks ==> st.callbacks[k].None?
  {
    State(false, false, map[ON_PLAY := None, ON_PAUSE := None])
  }

  /** The callbacks table the mount step stores: one entry per prop. */
  function MountedCallbacks<H>(props: Props<H>): map<string, Option<H>> {
    map[ON_PLAY := props.onPlay, ON_PAUSE := props.onPause, ON_SEEK := props.onSeek]
  }

  /** The listeners the mount step registers on the audio element: native
      event name to the callbacks key its handler looks up. The `seek` handler
      looks up "seek", a key the table never holds. */
  function MountedListeners(): map<string, string> {
    map["play" := ON_PLAY, "pause" := ON_PAUSE, SEEK := SEEK]
  }

  /** The device call a props update issues: pause on a true-to-false change of
      `isPlaying`, play on false-to-true, nothing otherwise or without a device. */
  function DeviceCommandFor(hasDevice: bool, wasPlaying: bool, isPlaying: bool): Option<Command> {
    if !hasDevice || wasPlaying == isPlaying then None
    else if isPlaying then Some(Play)
    else Some(Pause)
  }

  /** The callback the audio element's native event `name` reaches: the entry
      stored under the key its listener looks up, if a listener is registered,
      the key is stored and the entry is not null. */
  function Forward<H>(st: State<H>, listeners: map<string, string>, name: string): (cb: Option<H>)
    ensures cb.Some? ==> name in listeners && listeners[name] in st.callbacks
                         && st.callbacks[listeners[name]] == cb
    ensures name in listeners && listeners[name] in st.callbacks ==> cb == st.callbacks[listeners[name]]
    ensures name !in listeners || listeners[name] !in st.callbacks ==> cb.None?
  {
    if name in listeners && listeners[name] in st.callbacks then st.callbacks[listeners[name]] else None
  }

  /** Once mounted, `play` reaches the `onPlay` prop, `pause` the `onPause`
      prop, and `seek` (and every other event) reaches nothing, whatever
      `onSeek` was given. */
  lemma MountedForwarding<H>(st: State<H>, props: Props<H>, name: string)
    ensures var mounted := st.(deviceRef := true, callbacks := MountedCallbacks(props));
      Forward(mounted, MountedListeners(), name)
        == if name == "play" then props.onPlay
           else if name == "pause" then props.onPause
           else None
  {
  }

  /** Before the mount step nothing is registered on the element, so no native
      event reaches any callback. */
  lemma UnmountedForwardsNothing<H>(name: string)
    ensures Forward(Unmounted<H>(), map[], name).None?
  {
  }

  class AudioPlayer<H> {
    var props: Props<H>
    var state: State<H>
    /** The listeners registered on the audio element: event name to callbacks key. */
    var listeners: map<string, string>

    ghost predicate Valid()
      reads this
    {
      (!state.deviceRef ==> listeners == map[])
      && (state.deviceRef ==> listeners == MountedListeners())
    }

    constructor (initial: Props<H>)
      ensures Valid()
      ensures props == initial && state == Unmounted() && listeners == map[]
    {
      props := initial;
      state := Unmounted();
      listeners := map[];
    }

    /** `componentDidMount`: take hold of the audio element, register the three
        native listeners and store the callbacks from the current props. */
    method ComponentDidMount()
      requires Valid() && !state.deviceRef
      modifies this
      ensures Valid()
      ensures props == old(props)
      ensures state == old(state).(deviceRef := true, callbacks := MountedCallbacks(props))
      ensures listeners == MountedListeners()
    {
      listeners := listeners["play" := ON_PLAY];
      listeners := listeners["pause" := ON_PAUSE];
      listeners := listeners[SEEK := SEEK];
      var callbacks := map[ON_PLAY := props.onPlay, ON_PAUSE := props.onPause, ON_SEEK := props.onSeek];
      state := state.(deviceRef := true, callbacks := callbacks);
    }

    /** `_handleEvent(which)` applied to an event: the callback stored under
        `which` at the time of the event, when there is a non-null one. */
    method HandleEvent(which: string) returns (cb: Option<H>)
      ensures which !in state.callbacks ==> cb.None?
      ensures which in state.callbacks ==> cb == state.callbacks[which]
    {
      cb := None;
      if which in state.callbacks {
        var stored := state.callbacks[which];
        if stored.Some? {
          cb := stored;
        }
      }
    }

    /** The audio element fires its native event `name`: the registered
        listener, if any, runs its handler. */
    method OnNativeEvent(name: string) returns (cb: Option<H>)
      ensures cb == Forward(state, listeners, name)
    {
      cb := None;
      if name in listeners {
        cb := HandleEvent(listeners[name]);
      }
    }

    /** `componentDidUpdate(oldProps)`: the device call made for the change
        from `oldProps.isPlaying` to `props.isPlaying`, found by switching on
        the text "old->new". */
    method ComponentDidUpdate(oldProps: Props<H>) returns (cmd: Option<Command>)
      ensures cmd == DeviceCommandFor(state.deviceRef, oldProps.isPlaying, props.isPlaying)
      ensures cmd.Some? ==> IsDeviceCommand(cmd.value)
    {
      cmd := None;
      if state.deviceRef && oldProps.isPlaying != props.isPlaying {
        var transition := BoolText(oldProps.isPlaying) + "->" + BoolText(props.isPlaying);
        assert transition == if oldProps.isPlaying then "true->false" else "false->true";
        assert "false->true"[0] != "true->false"[0];
        if transition == "true->false" {
          cmd := Some(Pause);
        } else if transition == "false->true" {
          cmd := Some(Play);
        }
      }
    }

    /** The parent re-renders the player with `next`; React then calls
        `componentDidUpdate` with the previous props. */
    method Update(next: Props<H>) returns (cmd: Option<Command>)
      modifies this
      ensures props == next && state == old(state) && listeners == old(listeners)
      ensures cmd == DeviceCommandFor(state.deviceRef, old(props).isPlaying, next.isPlaying)
    {
      var oldProps := props;
      props := next;
      cmd := ComponentDidUpdate(oldProps);
    }
  }

  /** JavaScript's `String(b)` for a boolean. */
  function BoolText(b: bool): string {
    if b then "true" else "false"
  }
}
