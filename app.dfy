/** The `App` component: the page's state record, the updaters its handlers
    pass to `setState`, and the two handlers that talk to episode widgets. */
module AppComponent {
  import opened Commands

  /** The feed the page loads before anything is typed. */
  const DEFAULT_RSS_URL := "http://podcasts.files.bbci.co.uk/p02pc9pj.rss"

  /** `this.state` of the App. `haikus` is declared and never written. */
  datatype AppState = AppState(
    showJson: bool,
    rssUrl: string,
    audioUrl: Option<string>,
    haikus: map<string, WidgetId>,
    currentPodcastHaiku: Option<WidgetId>,
    audioIsPlaying: bool)

  /** The payload of a widget's `isPlayingWasUpdated` event. */
  datatype HaikuEvent = HaikuEvent(podcastId: nat, srcUrl: string, isPlaying: bool)

  function InitialState(): (s: AppState)
    ensures !s.audioIsPlaying && s.currentPodcastHaiku.None? && s.audioUrl.None?
    ensures !s.showJson && s.rssUrl == DEFAULT_RSS_URL && s.haikus == map[]
  {
    AppState(false, DEFAULT_RSS_URL, None, map[], None, false)
  }

  /** The updater run on Enter in the url field: only `rssUrl` changes. */
  function WithRssUrl(s: AppState, newUrl: string): (r: AppState)
    ensures r.rssUrl == newUrl
    ensures r.(rssUrl := s.rssUrl) == s
  {
    s.(rssUrl := newUrl)
  }

  /** The updater run on a click on the JSON panel: only `showJson` changes,
      and it changes. */
  function ToggledJson(s: AppState): (r: AppState)
    ensures r.showJson != s.showJson
    ensures r.(showJson := s.showJson) == s
  {
    s.(showJson := !s.showJson)
  }

  lemma ToggleTwiceRestores(s: AppState)
    ensures ToggledJson(ToggledJson(s)) == s
    ensures ToggledJson(s) != s
  {
  }

  /** The updater run on a widget's `isPlayingWasUpdated` event: the emitting
      widget becomes current, with the event's source and playing flag;
      `showJson`, `rssUrl` and `haikus` are kept. */
  function AfterIntent(s: AppState, haiku: WidgetId, event: HaikuEvent): (r: AppState)
    ensures r.currentPodcastHaiku == Some(haiku)
    ensures r.audioUrl == Some(event.srcUrl)
    ensures r.audioIsPlaying == event.isPlaying
    ensures r.showJson == s.showJson && r.rssUrl == s.rssUrl && r.haikus == s.haikus
  {
    s.(currentPodcastHaiku := Some(haiku), audioUrl := Some(event.srcUrl), audioIsPlaying := event.isPlaying)
  }

  /** What reading a property of `this.state` yields, for the state's own
      fields in this model (the login state is left out): a boolean, some
      other value, or `undefined` for a name that is not one of those fields. */
  datatype JsValue = JsBool(b: bool) | JsOther | JsUndefined

  function StateProperty(s: AppState, name: string): JsValue {
    match name
    case "showJson" => JsBool(s.showJson)
    case "audioIsPlaying" => JsBool(s.audioIsPlaying)
    case "rssUrl" => JsOther
    case "audioUrl" => JsOther
    case "haikus" => JsOther
    case "currentPodcastHaiku" => JsOther
    case _ => JsUndefined
  }

  /** The guard of `setCurrentHaikuPlaying` reads `isAudioPlaying`, a name the
      state does not have, so it compares against `undefined` and never holds
      a command back. */
  lemma MisspelledGuardAlwaysPasses(s: AppState, newIsPlaying: bool)
    ensures StateProperty(s, "isAudioPlaying") == JsUndefined
    ensures JsBool(newIsPlaying) != StateProperty(s, "isAudioPlaying")
  {
  }

  /** The commands `setCurrentHaikuPlaying(newIsPlaying)` sends: one
      `setPlayback` to the current widget, or none when there is none. */
  function ResyncCommands(s: AppState, newIsPlaying: bool): (r: seq<Command>)
    ensures |r| <= 1
    ensures r != [] <==> s.currentPodcastHaiku.Some?
    ensures r != [] ==> r[0] == SetPlayback(s.currentPodcastHaiku.value, newIsPlaying)
    ensures DeviceLog(r) == []
  {
    if s.currentPodcastHaiku.Some? then [SetPlayback(s.currentPodcastHaiku.value, newIsPlaying)] else []
  }

  /** The commands sent while a widget intent is applied: a stop to the
      previous current widget when another widget emitted, nothing when there
      was no current widget or the same one emitted again. */
  function IntentCommands(s: AppState, haiku: WidgetId): (r: seq<Command>)
    ensures |r| <= 1
    ensures r != [] <==> s.currentPodcastHaiku.Some? && s.currentPodcastHaiku.value != haiku
    ensures r != [] ==> r[0] == SetPlayback(s.currentPodcastHaiku.value, false)
    ensures DeviceLog(r) == []
  {
    if Some(haiku) != s.currentPodcastHaiku then ResyncCommands(s, false) else []
  }

  class App {
    var state: AppState

    constructor ()
      ensures state == InitialState()
    {
      state := InitialState();
    }

    /** `setCurrentHaikuPlaying(newIsPlaying)`: force the current widget's
        visual state; the state itself is not touched. */
    method SetCurrentHaikuPlaying(newIsPlaying: bool) returns (sent: seq<Command>)
      ensures sent == ResyncCommands(state, newIsPlaying)
      ensures |sent| <= 1 && DeviceLog(sent) == []
    {
      var currentPodcastHaiku := state.currentPodcastHaiku;
      var isAudioPlaying := StateProperty(state, "isAudioPlaying");
      sent := [];
      if JsBool(newIsPlaying) != isAudioPlaying {
        if currentPodcastHaiku.Some? {
          sent := [SetPlayback(currentPodcastHaiku.value, newIsPlaying)];
        }
      }
    }

    /** The `isPlayingWasUpdated` handler of widget `haiku`: stop the previous
        widget if another one is current, then apply the intent. */
    method IsPlayingWasUpdated(haiku: WidgetId, event: HaikuEvent) returns (sent: seq<Command>)
      modifies this
      ensures state == AfterIntent(old(state), haiku, event)
      ensures sent == IntentCommands(old(state), haiku)
    {
      sent := [];
      if Some(haiku) != state.currentPodcastHaiku {
        sent := SetCurrentHaikuPlaying(false);
      }
      state := AfterIntent(state, haiku, event);
    }

    /** Enter in the url field: store the typed url. */
    method SubmitRssUrl(newUrl: string)
      modifies this
      ensures state == WithRssUrl(old(state), newUrl)
    {
      state := WithRssUrl(state, newUrl);
    }

    /** A click on the JSON panel. */
    method ToggleShowJson()
      modifies this
      ensures state == ToggledJson(old(state))
    {
      state := ToggledJson(state);
    }
  }
}
