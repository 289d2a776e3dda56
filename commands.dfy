/** Values shared by every component of the page: optional values, widget
    handles, and the commands the page sends to the audio element and to the
    episode widgets. */
module Commands {

  /** JavaScript's `null` / `undefined` versus a present value. */
  datatype Option<+T> = None | Some(value: T)

  /** An opaque handle on a mounted episode widget (one Haiku `Podcast`
      instance); only its identity matters to the page. */
  type WidgetId = nat

  /** One command sent out of the page, in the order it is sent. */
  datatype Command =
    | Play                                              // audioPlayer.play()
    | Pause                                             // audioPlayer.pause()
    | SetPlayback(widget: WidgetId, newIsPlaying: bool) // "setPlayback" routed to a widget

  predicate IsDeviceCommand(c: Command) {
    c.Play? || c.Pause?
  }

  /** The command a side effect issued, if any, as a piece of the log. */
  function AsSeq(c: Option<Command>): (s: seq<Command>)
    ensures |s| <= 1
    ensures s == [] <==> c.None?
    ensures c.Some? ==> s[0] == c.value
  {
    if c.Some? then [c.value] else []
  }

  /** The commands of `cmds` that went to the audio element, in order. */
  function DeviceLog(cmds: seq<Command>): (d: seq<Command>)
    ensures |d| <= |cmds|
    ensures forall i :: 0 <= i < |d| ==> IsDeviceCommand(d[i])
    ensures (forall i :: 0 <= i < |cmds| ==> !IsDeviceCommand(cmds[i])) ==> d == []
  {
    if cmds == [] then []
    else (if IsDeviceCommand(cmds[0]) then [cmds[0]] else []) + DeviceLog(cmds[1..])
  }

  lemma {:induction false} DeviceLogAppend(a: seq<Command>, b: seq<Command>)
    ensures DeviceLog(a + b) == DeviceLog(a) + DeviceLog(b)
  {
    if a == [] {
      assert a + b == b;
    } else {
      assert (a + b)[1..] == a[1..] + b;
      DeviceLogAppend(a[1..], b);
    }
  }
}
