/** The mounted page: the App, the AudioPlayer it renders, and the wiring
    between them. Every handler runs as one atomic step: the App's updater,
    then (when the App state was set) the re-render of the player with props
    taken from the new state and its `componentDidUpdate`. `Step` is that
    step as a function; the `Shell` class runs the components' methods and is
    proved to match it. */
module Shell {
  import opened Commands
  import opened Keyboard
  import opened AudioPlayerComponent
  import opened AppComponent

  /** The two callbacks the App passes to the player: `onPlay` forces the
      current widget to "playing", `onPause` to "paused". No `onSeek` is passed. */
  datatype AppHandler = OnPlayProp | OnPauseProp

  function ForcedPlayback(h: AppHandler): bool {
    h == OnPlayProp
  }

  /** The props the App renders the player with from its state. */
  function PropsFor(app: AppState): (p: Props<AppHandler>)
    ensures p.isPlaying == app.audioIsPlaying && p.src == app.audioUrl
    ensures p.onSeek.None?
  {
    Props(app.audioUrl, app.audioIsPlaying, Some(OnPlayProp), Some(OnPauseProp), None)
  }

  /** Everything a step reads and writes: the App state, the player state,
      and the listeners on the audio element. */
  datatype Sys = Sys(app: AppState, player: State<AppHandler>, listeners: map<string, string>)

  /** What one step leaves behind: the next state and the commands it sent. */
  datatype Reaction = Reaction(next: Sys, sent: seq<Command>)

  /** The events that reach the page. */
  datatype Event =
    | WidgetIntent(haiku: WidgetId, event: HaikuEvent) // a widget's isPlayingWasUpdated
    | NativeEvent(name: string)                        // the audio element fires `name`
    | KeyDown(key: KeyEvent)                           // a keydown in the url field
    | JsonPanelClick                                   // a click on the JSON panel

  /** The page right after mounting: initial App state, player mounted. */
  function Initial(): Sys {
    Sys(InitialState(),
        Unmounted<AppHandler>().(deviceRef := true, callbacks := MountedCallbacks(PropsFor(InitialState()))),
        MountedListeners())
  }

  /** What stays true of the page: playing implies a current widget, and the
      player stays mounted with the callbacks and listeners of its mount. */
  ghost predicate Inv(s: Sys) {
    (s.app.audioIsPlaying ==> s.app.currentPodcastHaiku.Some?)
    && s.player.deviceRef
    && s.player.callbacks == MountedCallbacks(PropsFor(InitialState()))
    && s.listeners == MountedListeners()
  }

  /** The App's state is set to `next`: the player is re-rendered and its
      `componentDidUpdate` issues the device call for the change. */
  function Rerender(s: Sys, next: AppState): (r: Reaction)
    ensures r.next == s.(app := next)
  {
    Reaction(s.(app := next), AsSeq(DeviceCommandFor(s.player.deviceRef, s.app.audioIsPlaying, next.audioIsPlaying)))
  }

  function Step(s: Sys, e: Event): Reaction {
    match e
    case WidgetIntent(haiku, event) =>
      var stop := IntentCommands(s.app, haiku);
      var r := Rerender(s, AfterIntent(s.app, haiku, event));
      Reaction(r.next, stop + r.sent)
    case NativeEvent(name) =>
      (match Forward(s.player, s.listeners, name)
       case None => Reaction(s, [])
       case Some(h) => Reaction(s, ResyncCommands(s.app, ForcedPlayback(h))))
    case KeyDown(key) =>
      (match OnEnter(key)
       case None => Reaction(s, [])
       case Some(entered) => Rerender(s, WithRssUrl(s.app, entered.targetValue)))
    case JsonPanelClick =>
      Rerender(s, ToggledJson(s.app))
  }

  /** The events `evs` handled one after another from `s`. */
  function Run(s: Sys, evs: seq<Event>): Reaction
    decreases |evs|
  {
    if evs == [] then Reaction(s, [])
    else
      var before := Run(s, evs[..|evs| - 1]);
      var last := Step(before.next, evs[|evs| - 1]);
      Reaction(last.next, before.sent + last.sent)
  }

  // ---------------------------------------------------------------------------
  // One step

  lemma InitialSatisfiesInv()
    ensures Inv(Initial())
  {
  }

  lemma StepKeepsInv(s: Sys, e: Event)
    requires Inv(s)
    ensures Inv(Step(s, e).next)
  {
  }

  /** Play, Pause, Play, ...: the device calls alternate, starting with Play. */
  ghost predicate Alternates(d: seq<Command>) {
    forall i :: 0 <= i < |d| ==> (d[i] == Play <==> i % 2 == 0)
  }

  /** The device calls in `log` alternate, and the App believes the audio is
      playing exactly when an odd number of them went out. */
  ghost predicate InSync(s: Sys, log: seq<Command>) {
    Alternates(DeviceLog(log)) && (s.app.audioIsPlaying <==> |DeviceLog(log)| % 2 == 1)
  }

  lemma ExtendAlternation(d: seq<Command>, c: Command)
    requires Alternates(d) && (c == Play <==> |d| % 2 == 0)
    ensures Alternates(d + [c])
  {
  }

  /** Appending widget commands and then the device call for a change from
      `was` to `now` keeps the device calls alternating, in step with `now`. */
  lemma DeviceCallKeepsAlternation(log: seq<Command>, prefix: seq<Command>, was: bool, now: bool)
    requires Alternates(DeviceLog(log)) && (was <==> |DeviceLog(log)| % 2 == 1)
    requires DeviceLog(prefix) == []
    ensures var d := DeviceLog(log + (prefix + AsSeq(DeviceCommandFor(true, was, now))));
      Alternates(d) && (now <==> |d| % 2 == 1)
  {
    var cmd := DeviceCommandFor(true, was, now);
    var dev := AsSeq(cmd);
    DeviceLogAppend(prefix, dev);
    DeviceLogAppend(log, prefix + dev);
    var d := DeviceLog(log);
    if cmd.None? {
      assert DeviceLog(dev) == [];
      assert d + [] == d;
    } else {
      assert dev == [cmd.value];
      assert DeviceLog(dev) == [cmd.value];
      ExtendAlternation(d, cmd.value);
    }
  }

  lemma RerenderKeepsInSync(s: Sys, log: seq<Command>, prefix: seq<Command>, next: AppState)
    requires Inv(s) && InSync(s, log) && DeviceLog(prefix) == []
    ensures InSync(Rerender(s, next).next, log + (prefix + Rerender(s, next).sent))
  {
    DeviceCallKeepsAlternation(log, prefix, s.app.audioIsPlaying, next.audioIsPlaying);
  }

  lemma StepKeepsInSync(s: Sys, log: seq<Command>, e: Event)
    requires Inv(s) && InSync(s, log)
    ensures InSync(Step(s, e).next, log + Step(s, e).sent)
  {
    match e
    case WidgetIntent(haiku, event) =>
      RerenderKeepsInSync(s, log, IntentCommands(s.app, haiku), AfterIntent(s.app, haiku, event));
    case NativeEvent(name) =>
      var sent := Step(s, e).sent;
      assert DeviceLog(sent) == [];
      DeviceLogAppend(log, sent);
    case KeyDown(key) =>
      if OnEnter(key).Some? {
        RerenderKeepsInSync(s, log, [], WithRssUrl(s.app, key.targetValue));
        assert [] + Step(s, e).sent == Step(s, e).sent;
      } else {
        assert log + [] == log;
      }
    case JsonPanelClick =>
      RerenderKeepsInSync(s, log, [], ToggledJson(s.app));
      assert [] + Step(s, e).sent == Step(s, e).sent;
  }

  /** Switching widgets: with widget `a` current and playing, a play intent
      from another widget `b` sends exactly one command, a stop to `a`, and no
      device call (the element keeps playing, now from the new source). */
  lemma SwitchStopsPreviousOnce(s: Sys, a: WidgetId, b: WidgetId, event: HaikuEvent)
    requires Inv(s) && s.app.currentPodcastHaiku == Some(a) && a != b
    requires s.app.audioIsPlaying && event.isPlaying
    ensures Step(s, WidgetIntent(b, event)).sent == [SetPlayback(a, false)]
    ensures Step(s, WidgetIntent(b, event)).next.app.currentPodcastHaiku == Some(b)
    ensures PropsFor(Step(s, WidgetIntent(b, event)).next.app).src == Some(event.srcUrl)
  {
  }

  /** From the idle page, a play intent makes the widget current with its
      source and sends exactly one device call, Play. */
  lemma FirstPlayFromIdle(haiku: WidgetId, event: HaikuEvent)
    requires event.isPlaying
    ensures Step(Initial(), WidgetIntent(haiku, event)).sent == [Play]
    ensures var app := Step(Initial(), WidgetIntent(haiku, event)).next.app;
      app.currentPodcastHaiku == Some(haiku) && app.audioUrl == Some(event.srcUrl) && app.audioIsPlaying
  {
  }

  /** A pause intent from the current, playing widget sends exactly one
      device call, Pause, and keeps the widget current. */
  lemma PauseIntentFromCurrent(s: Sys, haiku: WidgetId, event: HaikuEvent)
    requires Inv(s) && s.app.currentPodcastHaiku == Some(haiku) && s.app.audioIsPlaying
    requires !event.isPlaying
    ensures Step(s, WidgetIntent(haiku, event)).sent == [Pause]
    ensures Step(s, WidgetIntent(haiku, event)).next.app.currentPodcastHaiku == Some(haiku)
  {
  }

  /** A widget intent sends at most one widget command, and only to the widget
      that was current before, when another widget emitted. */
  lemma IntentWidgetCommands(s: Sys, haiku: WidgetId, event: HaikuEvent)
    requires Inv(s)
    ensures var sent := Step(s, WidgetIntent(haiku, event)).sent;
      forall i :: 0 <= i < |sent| && sent[i].SetPlayback? ==>
        i == 0 && s.app.currentPodcastHaiku.Some? && s.app.currentPodcastHaiku.value != haiku
        && sent[i] == SetPlayback(s.app.currentPodcastHaiku.value, false)
  {
  }

  /** The same intent twice in a row: the second leaves the state as it was
      and sends nothing. */
  lemma RepeatedIntentIsNoOp(s: Sys, haiku: WidgetId, event: HaikuEvent)
    requires Inv(s)
    ensures var first := Step(s, WidgetIntent(haiku, event));
      Step(first.next, WidgetIntent(haiku, event)) == Reaction(first.next, [])
  {
  }

  /** Echo of our own play(): while playing, the element's `play` event only
      re-sends "playing" to the current widget; no device call follows and
      the state is unchanged. */
  lemma PlayEchoIsAbsorbed(s: Sys)
    requires Inv(s) && s.app.audioIsPlaying
    ensures Step(s, NativeEvent("play")) == Reaction(s, [SetPlayback(s.app.currentPodcastHaiku.value, true)])
  {
    MountedForwarding(Unmounted<AppHandler>(), PropsFor(InitialState()), "play");
  }

  /** A `pause` from the element re-sends "paused" to the current widget. */
  lemma PauseEventResyncsWidget(s: Sys)
    requires Inv(s)
    ensures Step(s, NativeEvent("pause")) == Reaction(s, ResyncCommands(s.app, false))
  {
    MountedForwarding(Unmounted<AppHandler>(), PropsFor(InitialState()), "pause");
  }

  /** The element's `seek` event, and every event other than play and pause,
      does nothing at all. */
  lemma OtherNativeEventsAreNoOps(s: Sys, name: string)
    requires Inv(s) && name != "play" && name != "pause"
    ensures Step(s, NativeEvent(name)) == Reaction(s, [])
  {
    MountedForwarding(Unmounted<AppHandler>(), PropsFor(InitialState()), name);
  }

  // ---------------------------------------------------------------------------
  // Which widgets were last told to show "playing"

  /** The flag of the last `setPlayback` sent to widget `w` in `log`, if any:
      what `w` was last told to show. */
  function LastFlag(log: seq<Command>, w: WidgetId): Option<bool>
    decreases |log|
  {
    if log == [] then None
    else if log[|log| - 1].SetPlayback? && log[|log| - 1].widget == w then Some(log[|log| - 1].newIsPlaying)
    else LastFlag(log[..|log| - 1], w)
  }

  /** A widget last told to show "playing" is the current widget, so at most
      one widget is ever shown playing. */
  ghost predicate OnlyCurrentShownPlaying(s: Sys, log: seq<Command>) {
    forall w: WidgetId :: LastFlag(log, w) == Some(true) ==> s.app.currentPodcastHaiku == Some(w)
  }

  /** Commands sent after `a` decide the flag when one of them targets `w`. */
  lemma {:induction false} LastFlagAppend(a: seq<Command>, b: seq<Command>, w: WidgetId)
    ensures LastFlag(a + b, w) == if LastFlag(b, w).Some? then LastFlag(b, w) else LastFlag(a, w)
    decreases |b|
  {
    if b == [] {
      assert a + b == a;
    } else {
      assert (a + b)[..|a + b| - 1] == a + b[..|b| - 1];
      LastFlagAppend(a, b[..|b| - 1], w);
    }
  }

  /** Commands none of which is a `setPlayback` to `w` leave its flag open. */
  lemma {:induction false} LastFlagUntargeted(b: seq<Command>, w: WidgetId)
    requires forall i :: 0 <= i < |b| && b[i].SetPlayback? ==> b[i].widget != w
    ensures LastFlag(b, w).None?
    decreases |b|
  {
    if b != [] {
      LastFlagUntargeted(b[..|b| - 1], w);
    }
  }

  /** An event that keeps the current widget and sends `setPlayback` only to
      it keeps the property. */
  lemma SendingToCurrentKeepsOnlyCurrent(s: Sys, log: seq<Command>, s': Sys, sent: seq<Command>)
    requires OnlyCurrentShownPlaying(s, log)
    requires s'.app.currentPodcastHaiku == s.app.currentPodcastHaiku
    requires forall i :: 0 <= i < |sent| && sent[i].SetPlayback? ==> Some(sent[i].widget) == s.app.currentPodcastHaiku
    ensures OnlyCurrentShownPlaying(s', log + sent)
  {
    forall w: WidgetId | LastFlag(log + sent, w) == Some(true)
      ensures s'.app.currentPodcastHaiku == Some(w)
    {
      LastFlagAppend(log, sent, w);
      if Some(w) != s.app.currentPodcastHaiku {
        LastFlagUntargeted(sent, w);
      }
    }
  }

  /** A widget intent makes the emitter current and stops the previous current
      widget, so the property holds afterwards. */
  lemma IntentKeepsOnlyCurrent(s: Sys, log: seq<Command>, haiku: WidgetId, event: HaikuEvent)
    requires Inv(s) && OnlyCurrentShownPlaying(s, log)
    ensures OnlyCurrentShownPlaying(Step(s, WidgetIntent(haiku, event)).next,
                                    log + Step(s, WidgetIntent(haiku, event)).sent)
  {
    var r := Step(s, WidgetIntent(haiku, event));
    var stop := IntentCommands(s.app, haiku);
    var dev := AsSeq(DeviceCommandFor(s.player.deviceRef, s.app.audioIsPlaying, event.isPlaying));
    assert r.sent == stop + dev;
    assert r.next.app.currentPodcastHaiku == Some(haiku);
    if stop == [] {
      // No previous widget to stop: only the emitter can have been told `true`
      // by this event, and every other flag is as before.
      forall w: WidgetId | LastFlag(log + r.sent, w) == Some(true)
        ensures Some(haiku) == Some(w)
      {
        LastFlagAppend(log, dev, w);
        LastFlagUntargeted(dev, w);
      }
    } else {
      // The previous widget is told `false`, and it was the only one that
      // could have been left showing "playing".
      forall w: WidgetId
        ensures LastFlag(log + r.sent, w) != Some(true)
      {
        LastFlagAppend(log, stop + dev, w);
        LastFlagAppend(stop, dev, w);
        LastFlagUntargeted(dev, w);
        assert LastFlag(stop, w) == if stop[0].widget == w then Some(false) else None;
      }
    }
  }

  lemma StepKeepsOnlyCurrent(s: Sys, log: seq<Command>, e: Event)
    requires Inv(s) && OnlyCurrentShownPlaying(s, log)
    ensures OnlyCurrentShownPlaying(Step(s, e).next, log + Step(s, e).sent)
  {
    match e
    case WidgetIntent(haiku, event) =>
      IntentKeepsOnlyCurrent(s, log, haiku, event);
    case NativeEvent(name) =>
      var r := Step(s, e);
      var h := Forward(s.player, s.listeners, name);
      assert r.sent == (if h.Some? then ResyncCommands(s.app, ForcedPlayback(h.value)) else []);
      SendingToCurrentKeepsOnlyCurrent(s, log, r.next, r.sent);
    case KeyDown(key) =>
      var r := Step(s, e);
      StepPlaybackFields(s, e);
      SendingToCurrentKeepsOnlyCurrent(s, log, r.next, r.sent);
    case JsonPanelClick =>
      var r := Step(s, e);
      StepPlaybackFields(s, e);
      SendingToCurrentKeepsOnlyCurrent(s, log, r.next, r.sent);
  }

  // ---------------------------------------------------------------------------
  // Runs of events

  lemma {:induction false} RunKeepsInvAndSync(s: Sys, evs: seq<Event>)
    requires Inv(s) && InSync(s, []) && OnlyCurrentShownPlaying(s, [])
    ensures Inv(Run(s, evs).next) && InSync(Run(s, evs).next, Run(s, evs).sent)
    ensures OnlyCurrentShownPlaying(Run(s, evs).next, Run(s, evs).sent)
    decreases |evs|
  {
    if evs != [] {
      var before := Run(s, evs[..|evs| - 1]);
      RunKeepsInvAndSync(s, evs[..|evs| - 1]);
      StepKeepsInv(before.next, evs[|evs| - 1]);
      StepKeepsInSync(before.next, before.sent, evs[|evs| - 1]);
      StepKeepsOnlyCurrent(before.next, before.sent, evs[|evs| - 1]);
    }
  }

  /** From the freshly mounted page, after any events: playing implies a
      current widget, the device calls alternate Play, Pause, ... with the
      App playing exactly after an odd number of them, and a widget last told
      to show "playing" is the current one. */
  lemma PageStaysConsistent(evs: seq<Event>)
    ensures var r := Run(Initial(), evs);
      (r.next.app.audioIsPlaying ==> r.next.app.currentPodcastHaiku.Some?)
      && InSync(r.next, r.sent)
      && (forall w: WidgetId :: LastFlag(r.sent, w) == Some(true) ==> r.next.app.currentPodcastHaiku == Some(w))
  {
    InitialSatisfiesInv();
    assert DeviceLog([]) == [];
    RunKeepsInvAndSync(Initial(), evs);
  }

  /** The last widget intent in `evs`, if any. */
  function LastIntent(evs: seq<Event>): Option<Event>
    ensures LastIntent(evs).Some? ==> LastIntent(evs).value.WidgetIntent?
    decreases |evs|
  {
    if evs == [] then None
    else if evs[|evs| - 1].WidgetIntent? then Some(evs[|evs| - 1])
    else LastIntent(evs[..|evs| - 1])
  }

  /** Only a widget intent touches the current widget, the audio source and
      the playing flag. */
  lemma StepPlaybackFields(s: Sys, e: Event)
    ensures var app := Step(s, e).next.app;
      if e.WidgetIntent? then
        app.currentPodcastHaiku == Some(e.haiku) && app.audioUrl == Some(e.event.srcUrl)
        && app.audioIsPlaying == e.event.isPlaying
      else
        app.currentPodcastHaiku == s.app.currentPodcastHaiku && app.audioUrl == s.app.audioUrl
        && app.audioIsPlaying == s.app.audioIsPlaying
  {
  }

  /** Which widget is current, the audio source and the playing flag are
      those of the last widget intent; with none they are as they were. */
  lemma {:induction false} PlaybackFollowsLastIntent(s: Sys, evs: seq<Event>)
    ensures var app := Run(s, evs).next.app;
      match LastIntent(evs)
      case None =>
        app.currentPodcastHaiku == s.app.currentPodcastHaiku && app.audioUrl == s.app.audioUrl
        && app.audioIsPlaying == s.app.audioIsPlaying
      case Some(last) =>
        app.currentPodcastHaiku == Some(last.haiku) && app.audioUrl == Some(last.event.srcUrl)
        && app.audioIsPlaying == last.event.isPlaying
    decreases |evs|
  {
    if evs != [] {
      var before := Run(s, evs[..|evs| - 1]);
      PlaybackFollowsLastIntent(s, evs[..|evs| - 1]);
      StepPlaybackFields(before.next, evs[|evs| - 1]);
    }
  }

  /** Only an Enter keydown changes the feed url, to the typed text. */
  lemma StepRssUrl(s: Sys, e: Event)
    ensures Step(s, e).next.app.rssUrl
      == if e.KeyDown? && e.key.which == ENTER_KEY_CODE then e.key.targetValue else s.app.rssUrl
  {
  }

  /** Only a panel click changes `showJson`, and it flips it. */
  lemma StepShowJson(s: Sys, e: Event)
    ensures Step(s, e).next.app.showJson == if e.JsonPanelClick? then !s.app.showJson else s.app.showJson
  {
  }

  /** The url of the last keydown in `evs` with the Enter key code, or `url`. */
  function LastEnteredUrl(evs: seq<Event>, url: string): string
    decreases |evs|
  {
    if evs == [] then url
    else if evs[|evs| - 1].KeyDown? && evs[|evs| - 1].key.which == ENTER_KEY_CODE then evs[|evs| - 1].key.targetValue
    else LastEnteredUrl(evs[..|evs| - 1], url)
  }

  /** The feed url is the one typed when Enter was last pressed; other keys,
      clicks, intents and native events never change it. */
  lemma {:induction false} RssUrlIsLastEntered(s: Sys, evs: seq<Event>)
    ensures Run(s, evs).next.app.rssUrl == LastEnteredUrl(evs, s.app.rssUrl)
    decreases |evs|
  {
    if evs != [] {
      RssUrlIsLastEntered(s, evs[..|evs| - 1]);
      StepRssUrl(Run(s, evs[..|evs| - 1]).next, evs[|evs| - 1]);
    }
  }

  function PanelClicks(evs: seq<Event>): nat
    decreases |evs|
  {
    if evs == [] then 0
    else PanelClicks(evs[..|evs| - 1]) + (if evs[|evs| - 1].JsonPanelClick? then 1 else 0)
  }

  /** The JSON panel is open exactly when it was open and was clicked an even
      number of times, or was closed and was clicked an odd number of times. */
  lemma {:induction false} JsonPanelFollowsClickParity(s: Sys, evs: seq<Event>)
    ensures Run(s, evs).next.app.showJson == (s.app.showJson == (PanelClicks(evs) % 2 == 0))
    decreases |evs|
  {
    if evs != [] {
      JsonPanelFollowsClickParity(s, evs[..|evs| - 1]);
      StepShowJson(Run(s, evs[..|evs| - 1]).next, evs[|evs| - 1]);
    }
  }

  /** Events from the audio element never reach the device and never change
      the page: they only send widget commands, each to the current widget. */
  lemma {:induction false} NativeEventsNeverReachDevice(s: Sys, evs: seq<Event>)
    requires Inv(s)
    requires forall i :: 0 <= i < |evs| ==> evs[i].NativeEvent?
    ensures Run(s, evs).next == s
    ensures DeviceLog(Run(s, evs).sent) == []
    ensures forall i :: 0 <= i < |Run(s, evs).sent| ==>
      Run(s, evs).sent[i].SetPlayback? && Some(Run(s, evs).sent[i].widget) == s.app.currentPodcastHaiku
    decreases |evs|
  {
    if evs != [] {
      var before := Run(s, evs[..|evs| - 1]);
      NativeEventsNeverReachDevice(s, evs[..|evs| - 1]);
      var last := Step(before.next, evs[|evs| - 1]);
      var h := Forward(s.player, s.listeners, evs[|evs| - 1].name);
      assert last.sent == (if h.Some? then ResyncCommands(s.app, ForcedPlayback(h.value)) else []);
      DeviceLogAppend(before.sent, last.sent);
    }
  }

  // ---------------------------------------------------------------------------
  // The page as objects

  class Shell {
    const app: App
    const player: AudioPlayer<AppHandler>
    /** Every command sent so far, in order. */
    var log: seq<Command>

    function View(): Sys
      reads this, app, player
    {
      Sys(app.state, player.state, player.listeners)
    }

    ghost predicate Valid()
      reads this, app, player
    {
      player.Valid() && player.props == PropsFor(app.state) && Inv(View()) && InSync(View(), log)
      && OnlyCurrentShownPlaying(View(), log)
    }

    /** The App is constructed, the feed has loaded, and the player is
        rendered from the App's state and mounted. */
    constructor ()
      ensures Valid() && View() == Initial() && log == []
    {
      app := new App();
      player := new AudioPlayer(PropsFor(InitialState()));
      log := [];
      new;
      player.ComponentDidMount();
      assert DeviceLog([]) == [];
    }

    /** Widget `haiku` reports `isPlayingWasUpdated` with `event`. */
    method OnWidgetIntent(haiku: WidgetId, event: HaikuEvent)
      requires Valid()
      modifies this, app, player
      ensures Valid()
      ensures View() == Step(old(View()), WidgetIntent(haiku, event)).next
      ensures log == old(log) + Step(old(View()), WidgetIntent(haiku, event)).sent
    {
      ghost var before := View();
      var stop := app.IsPlayingWasUpdated(haiku, event);
      var device := player.Update(PropsFor(app.state));
      log := log + (stop + AsSeq(device));
      StepKeepsInv(before, WidgetIntent(haiku, event));
      StepKeepsInSync(before, old(log), WidgetIntent(haiku, event));
      StepKeepsOnlyCurrent(before, old(log), WidgetIntent(haiku, event));
    }

    /** The audio element fires its native event `name`. */
    method OnNativeEvent(name: string)
      requires Valid()
      modifies this, app, player
      ensures Valid()
      ensures View() == Step(old(View()), NativeEvent(name)).next
      ensures log == old(log) + Step(old(View()), NativeEvent(name)).sent
    {
      ghost var before := View();
      var handler := player.OnNativeEvent(name);
      var sent := [];
      if handler.Some? {
        sent := app.SetCurrentHaikuPlaying(ForcedPlayback(handler.value));
      }
      log := log + sent;
      StepKeepsInSync(before, old(log), NativeEvent(name));
      StepKeepsOnlyCurrent(before, old(log), NativeEvent(name));
    }

    /** A keydown in the url field. */
    method OnKeyDown(key: KeyEvent)
      requires Valid()
      modifies this, app, player
      ensures Valid()
      ensures View() == Step(old(View()), KeyDown(key)).next
      ensures log == old(log) + Step(old(View()), KeyDown(key)).sent
    {
      ghost var before := View();
      var entered := OnEnter(key);
      if entered.Some? {
        app.SubmitRssUrl(entered.value.targetValue);
        var device := player.Update(PropsFor(app.state));
        log := log + AsSeq(device);
      }
      StepKeepsInSync(before, old(log), KeyDown(key));
      StepKeepsOnlyCurrent(before, old(log), KeyDown(key));
    }

    /** A click on the JSON panel. */
    method OnJsonPanelClick()
      requires Valid()
      modifies this, app, player
      ensures Valid()
      ensures View() == Step(old(View()), JsonPanelClick).next
      ensures log == old(log) + Step(old(View()), JsonPanelClick).sent
    {
      ghost var before := View();
      app.ToggleShowJson();
      var device := player.Update(PropsFor(app.state));
      log := log + AsSeq(device);
      StepKeepsInSync(before, old(log), JsonPanelClick);
      StepKeepsOnlyCurrent(before, old(log), JsonPanelClick);
    }
  }
}
