/** The host page: it owns one peer, learns its room code when the peer opens,
    keeps the list of connected viewers, prompts the user to start sharing
    while there is no stream, and calls every listed viewer once there is one. */
module HostSession {
  import opened Common
  import opened ViewerList

  /** An outbound media call (`peer.call(viewer, stream)`); `serial` tells
      apart the calls placed by successive iterations and decision steps. */
  datatype Call = Call(serial: nat, viewer: PeerId)

  /** The `onended` handler installed on the first track of `stream`: it
      closes `call` and stops every track of `stream`. */
  datatype EndHandler = EndHandler(call: Call, stream: DisplayStream)

  datatype HostToast = ScreenSharingError | SessionEnded

  /** What the host page does to the outside world. */
  datatype HostEffect =
    | RaisePrompt                               // the "New viewer connected" toast with its Start Sharing action
    | RequestCapture(video: bool, audio: bool)  // getDisplayMedia
    | ShowToast(toast: HostToast)
    | PlaceCall(call: Call, stream: DisplayStream)
    | CloseCall(call: Call)
    | StopTrack(track: TrackId)
    | DestroyPeer(peer: PeerRef)
    | Navigate(path: string)

  /** How a display-capture request settles. */
  datatype CaptureOutcome = Captured(stream: DisplayStream) | CaptureFailed

  /** The effects of `tracks.forEach(track => track.stop())`. */
  function StopAll(tracks: seq<TrackId>): (r: seq<HostEffect>)
    ensures |r| == |tracks|
    ensures forall i :: 0 <= i < |tracks| ==> r[i] == StopTrack(tracks[i])
  {
    if tracks == [] then []
    else StopAll(tracks[..|tracks| - 1]) + [StopTrack(tracks[|tracks| - 1])]
  }

  /** The calls placed by one pass of the decision step over `conns` while
      `stream` is active, numbered from `first`. */
  function PlannedCalls(conns: seq<PeerId>, stream: DisplayStream, first: nat): (r: seq<HostEffect>)
    ensures |r| == |conns|
  {
    if conns == [] then []
    else PlannedCalls(conns[..|conns| - 1], stream, first) + [PlaceCall(Call(first + |conns| - 1, conns[|conns| - 1]), stream)]
  }

  /** The i-th planned call goes to the i-th listed viewer, with serial
      `first + i` and the active stream. */
  lemma {:induction false} PlannedCallsAt(conns: seq<PeerId>, stream: DisplayStream, first: nat)
    ensures forall i :: 0 <= i < |conns| ==>
      PlannedCalls(conns, stream, first)[i] == PlaceCall(Call(first + i, conns[i]), stream)
    decreases |conns|
  {
    if conns != [] {
      PlannedCallsAt(conns[..|conns| - 1], stream, first);
    }
  }

  /** One more loop iteration appends one call to the planned calls. */
  lemma PlannedCallsStep(conns: seq<PeerId>, i: nat, stream: DisplayStream, first: nat)
    requires i < |conns|
    ensures PlannedCalls(conns[..i + 1], stream, first)
            == PlannedCalls(conns[..i], stream, first) + [PlaceCall(Call(first + i, conns[i]), stream)]
  {
    assert conns[..i + 1][..i] == conns[..i];
  }

  /** What the track-end handler `h` does when it fires. */
  function TrackEndEffects(h: EndHandler): (r: seq<HostEffect>)
    ensures |r| == |h.stream.tracks| + 1 && r[0] == CloseCall(h.call)
    ensures forall i :: 0 <= i < |r| && r[i].CloseCall? ==> i == 0
    ensures r[1..] == StopAll(h.stream.tracks)
  {
    [CloseCall(h.call)] + StopAll(h.stream.tracks)
  }

  /** What `endSession` does, given the stream and the peer it finds. */
  function EndSessionEffects(stream: Option<DisplayStream>, peer: Option<PeerRef>): (r: seq<HostEffect>)
    ensures |r| >= 2 && r[|r| - 2] == ShowToast(SessionEnded) && r[|r| - 1] == Navigate("/")
  {
    (if stream.Some? then StopAll(stream.value.tracks) else [])
    + (if peer.Some? then [DestroyPeer(peer.value)] else [])
    + [ShowToast(SessionEnded), Navigate("/")]
  }

  /** Stopping a list of tracks does nothing but stop tracks, and stops
      every track in the list. */
  lemma StopAllStopsEach(tracks: seq<TrackId>)
    ensures forall e :: e in StopAll(tracks) ==> e.StopTrack? && e.track in tracks
    ensures forall t :: t in tracks ==> StopTrack(t) in StopAll(tracks)
  {
    var r := StopAll(tracks);
    forall e | e in r
      ensures e.StopTrack? && e.track in tracks
    {
      var i :| 0 <= i < |r| && r[i] == e;
    }
    forall t | t in tracks
      ensures StopTrack(t) in r
    {
      var i :| 0 <= i < |tracks| && tracks[i] == t;
      assert r[i] == StopTrack(t);
    }
  }

  /** `endSession` stops every track of the stream it finds, and stops no
      track when it finds none; it never places or closes a call or raises a
      prompt. */
  lemma EndSessionStopsOnlyWithStream(stream: Option<DisplayStream>, peer: Option<PeerRef>)
    ensures stream.Some? ==> forall t :: t in stream.value.tracks ==> StopTrack(t) in EndSessionEffects(stream, peer)
    ensures stream.None? ==> forall e :: e in EndSessionEffects(stream, peer) ==> !e.StopTrack?
    ensures forall e :: e in EndSessionEffects(stream, peer) ==> !e.CloseCall? && !e.PlaceCall? && e != RaisePrompt
  {
    var stops := if stream.Some? then StopAll(stream.value.tracks) else [];
    var rest := (if peer.Some? then [DestroyPeer(peer.value)] else []) + [ShowToast(SessionEnded), Navigate("/")];
    assert EndSessionEffects(stream, peer) == stops + rest;
    if stream.Some? {
      StopAllStopsEach(stream.value.tracks);
    }
  }

  /** `endSession` destroys the peer it finds, and destroys none when it
      finds none. */
  lemma EndSessionDestroysOnlyWithPeer(stream: Option<DisplayStream>, peer: Option<PeerRef>)
    ensures peer.Some? ==> DestroyPeer(peer.value) in EndSessionEffects(stream, peer)
    ensures peer.None? ==> forall e :: e in EndSessionEffects(stream, peer) ==> !e.DestroyPeer?
  {
    var stops := if stream.Some? then StopAll(stream.value.tracks) else [];
    var destroy := if peer.Some? then [DestroyPeer(peer.value)] else [];
    var tail := [ShowToast(SessionEnded), Navigate("/")];
    assert EndSessionEffects(stream, peer) == stops + destroy + tail;
    if stream.Some? {
      StopAllStopsEach(stream.value.tracks);
    }
    if peer.Some? {
      assert EndSessionEffects(stream, peer)[|stops|] == DestroyPeer(peer.value);
    }
  }

  /** Number of share prompts among `effects`. */
  function Prompts(effects: seq<HostEffect>): (n: nat)
    ensures n <= |effects|
    ensures n == 0 <==> RaisePrompt !in effects
  {
    if effects == [] then 0
    else Prompts(effects[..|effects| - 1]) + (if effects[|effects| - 1] == RaisePrompt then 1 else 0)
  }

  lemma {:induction false} PromptsConcat(a: seq<HostEffect>, b: seq<HostEffect>)
    ensures Prompts(a + b) == Prompts(a) + Prompts(b)
    decreases |b|
  {
    if b == [] {
      assert a + b == a;
    } else {
      assert (a + b)[..|a + b| - 1] == a + b[..|b| - 1];
      PromptsConcat(a, b[..|b| - 1]);
    }
  }

  /** With a stream, a decision step places exactly one call per listed entry,
      in list order, each to that entry's viewer, all with the active stream,
      and raises no prompt. */
  lemma OneCallPerEntry(conns: seq<PeerId>, stream: DisplayStream, first: nat)
    ensures Prompts(PlannedCalls(conns, stream, first)) == 0
    ensures forall e :: e in PlannedCalls(conns, stream, first) ==>
      e.PlaceCall? && e.stream == stream && e.call.viewer in conns
    ensures forall i, j :: 0 <= i < j < |conns| ==>
      PlannedCalls(conns, stream, first)[i].call.serial < PlannedCalls(conns, stream, first)[j].call.serial
  {
    var r := PlannedCalls(conns, stream, first);
    PlannedCallsAt(conns, stream, first);
    forall e | e in r
      ensures e.PlaceCall? && e.stream == stream && e.call.viewer in conns
    {
      var i :| 0 <= i < |r| && r[i] == e;
    }
  }

  /** After a decision step over `conns` (non-empty) numbered from `first`,
      the first track's handler closes the last call placed and no other. */
  lemma {:induction false} OnlyLastCallClosed(conns: seq<PeerId>, stream: DisplayStream, first: nat, i: nat)
    requires i < |conns|
    ensures PlannedCalls(conns, stream, first)[i].PlaceCall?
    ensures var last := EndHandler(Call(first + |conns| - 1, conns[|conns| - 1]), stream);
      var placed := PlannedCalls(conns, stream, first)[i].call;
      (CloseCall(placed) in TrackEndEffects(last) <==> i == |conns| - 1)
  {
    var last := EndHandler(Call(first + |conns| - 1, conns[|conns| - 1]), stream);
    PlannedCallsAt(conns, stream, first);
    var placed := PlannedCalls(conns, stream, first)[i].call;
    var r := TrackEndEffects(last);
    if CloseCall(placed) in r {
      var k :| 0 <= k < |r| && r[k] == CloseCall(placed);
      assert k == 0;
    }
  }

  /** A second `endSession` finds nothing to release: it stops no track and
      destroys no peer, and only reports and navigates again. */
  lemma EndSessionSecondTime()
    ensures EndSessionEffects(None, None) == [ShowToast(SessionEnded), Navigate("/")]
    ensures forall e :: e in EndSessionEffects(None, None) ==> !e.StopTrack? && !e.DestroyPeer?
  {
  }

  /** The `forEach` of the decision step: each listed viewer in turn is
      called with `stream`, and the handler for that call is put on the
      stream's first track, replacing the one before. Calls are numbered from
      `first`; `handlers0` are the handlers installed beforehand. */
  method PlaceCalls(conns: seq<PeerId>, stream: DisplayStream, first: nat, handlers0: map<TrackId, EndHandler>)
    returns (placed: seq<HostEffect>, handlers: map<TrackId, EndHandler>, serial: nat)
    ensures placed == PlannedCalls(conns, stream, first)
    ensures serial == first + |conns|
    ensures handlers == if conns == [] then handlers0
                        else handlers0[stream.tracks[0] := EndHandler(Call(serial - 1, conns[|conns| - 1]), stream)]
  {
    handlers, serial, placed := handlers0, first, [];
    var i := 0;
    while i < |conns|
      invariant 0 <= i <= |conns|
      invariant serial == first + i
      invariant placed == PlannedCalls(conns[..i], stream, first)
      invariant handlers == if i == 0 then handlers0
                            else handlers0[stream.tracks[0] := EndHandler(Call(serial - 1, conns[i - 1]), stream)]
    {
      var call := Call(serial, conns[i]);
      PlannedCallsStep(conns, i, stream, first);
      placed := placed + [PlaceCall(call, stream)];
      handlers := handlers[stream.tracks[0] := EndHandler(call, stream)];
      serial := serial + 1;
      i := i + 1;
    }
    assert conns[..i] == conns;
  }

  /** The host page's state. The peer-to-peer library and the browser deliver
      events one at a time; each event is one method. */
  class Host {
    /** The peer created when the page mounted, if creating it did not throw. */
    const mounted: Option<PeerRef>
    var roomId: string
    var peer: Option<PeerRef>
    var activeStream: Option<DisplayStream>
    var connections: seq<PeerId>
    /** The `onended` handler currently installed on each first track. */
    var onEnded: map<TrackId, EndHandler>
    /** Serial number of the next call placed. */
    var nextCall: nat
    /** Everything the page has done to the outside world, in order. */
    var out: seq<HostEffect>

    /** Each installed handler sits on its own stream's first track and
        closes a call that was already placed with that stream. */
    ghost predicate Valid()
      reads this`onEnded, this`out
    {
      forall t :: t in onEnded ==>
        onEnded[t].stream.tracks[0] == t && PlaceCall(onEnded[t].call, onEnded[t].stream) in out
    }

    /** Mounting the page: `created` is the new peer, or None when its
        construction threw (the error is only logged). */
    constructor (created: Option<PeerRef>)
      ensures Valid()
      ensures mounted == created && peer == created
      ensures roomId == "" && activeStream == None && connections == []
      ensures onEnded == map[] && nextCall == 0 && out == []
    {
      mounted := created;
      roomId := "";
      peer := created;
      activeStream := None;
      connections := [];
      onEnded := map[];
      nextCall := 0;
      out := [];
    }

    /** The peer registered and was assigned `id`, which is the room code. */
    method OnPeerOpen(id: PeerId)
      modifies this`roomId
      ensures roomId == id
    {
      roomId := id;
    }

    /** A viewer's data connection opened. */
    method OnConnection(viewer: PeerId)
      modifies this`connections
      ensures connections == Joined(old(connections), viewer)
      ensures |connections| == |old(connections)| + 1 && connections[|connections| - 1] == viewer
      ensures connections[..|old(connections)|] == old(connections)
    {
      connections := Joined(connections, viewer);
    }

    /** A viewer's data connection closed. */
    method OnConnectionClose(viewer: PeerId)
      modifies this`connections
      ensures connections == Without(old(connections), viewer)
      ensures viewer !in connections
      ensures forall x :: x != viewer ==> Count(connections, x) == Count(old(connections), x)
    {
      connections := Without(connections, viewer);
      forall x | x != viewer
        ensures Count(connections, x) == Count(old(connections), x)
      {
        WithoutCount(old(connections), viewer, x);
      }
    }

    /** The decision step, run after each change of peer, stream or list.
        Without a stream it prompts when someone is listed; with a stream it
        calls every listed viewer and re-installs the first track's handler on
        each iteration, so the last call's handler is the one that stays. */
    method Decide()
      requires Valid()
      modifies this`out, this`onEnded, this`nextCall
      ensures Valid()
      ensures peer.None? ==>
        out == old(out) && onEnded == old(onEnded) && nextCall == old(nextCall)
      ensures peer.Some? && activeStream.None? ==>
        out == old(out) + (if connections != [] then [RaisePrompt] else [])
        && onEnded == old(onEnded) && nextCall == old(nextCall)
      ensures peer.Some? && activeStream.Some? ==>
        out == old(out) + PlannedCalls(connections, activeStream.value, old(nextCall))
        && nextCall == old(nextCall) + |connections|
        && onEnded == if connections == [] then old(onEnded)
                      else old(onEnded)[activeStream.value.tracks[0] :=
                             EndHandler(Call(nextCall - 1, connections[|connections| - 1]), activeStream.value)]
    {
      if peer.None? {
        return;
      }
      if activeStream.None? {
        if connections != [] {
          out := out + [RaisePrompt];
        }
      } else {
        CallAll(activeStream.value);
      }
    }

    /** The `forEach` of the decision step, run on the current list, call
        serial and handlers, and then committed to the page state. */
    method CallAll(stream: DisplayStream)
      requires Valid()
      modifies this`out, this`onEnded, this`nextCall
      ensures Valid()
      ensures out == old(out) + PlannedCalls(connections, stream, old(nextCall))
      ensures nextCall == old(nextCall) + |connections|
      ensures onEnded == if connections == [] then old(onEnded)
                         else old(onEnded)[stream.tracks[0] :=
                                EndHandler(Call(nextCall - 1, connections[|connections| - 1]), stream)]
    {
      var placed, handlers, serial := PlaceCalls(connections, stream, nextCall, onEnded);
      if connections != [] {
        var last := |connections| - 1;
        PlannedCallsAt(connections, stream, nextCall);
        assert (out + placed)[|out| + last] == PlaceCall(Call(serial - 1, connections[last]), stream);
      }
      out, onEnded, nextCall := out + placed, handlers, serial;
    }

    /** The user clicked Start Sharing on a prompt: display capture with
        video and audio is requested. */
    method OnPromptClicked()
      modifies this`out
      ensures out == old(out) + [RequestCapture(true, true)]
    {
      out := out + [RequestCapture(true, true)];
    }

    /** The capture request settled: a captured stream becomes the active
        stream; a failure only reports an error toast. */
    method OnCaptureSettled(outcome: CaptureOutcome)
      modifies this`activeStream, this`out
      ensures outcome.Captured? ==> activeStream == Some(outcome.stream) && out == old(out)
      ensures outcome.CaptureFailed? ==>
        activeStream == old(activeStream) && out == old(out) + [ShowToast(ScreenSharingError)]
    {
      match outcome
      case Captured(stream) =>
        activeStream := Some(stream);
      case CaptureFailed =>
        out := out + [ShowToast(ScreenSharingError)];
    }

    /** Stops each track in turn. */
    method StopTracks(tracks: seq<TrackId>)
      modifies this`out
      ensures out == old(out) + StopAll(tracks)
    {
      var i := 0;
      while i < |tracks|
        invariant 0 <= i <= |tracks|
        invariant out == old(out) + StopAll(tracks[..i])
      {
        out := out + [StopTrack(tracks[i])];
        assert tracks[..i + 1][..i] == tracks[..i];
        i := i + 1;
      }
      assert tracks[..i] == tracks;
    }

    /** The track `t` ended (the user revoked the capture). If a handler sits
        on it, it closes its one call and stops its stream's tracks; the
        active stream itself stays set. */
    method OnTrackEnded(t: TrackId)
      requires Valid()
      modifies this`out
      ensures Valid()
      ensures t in onEnded ==> out == old(out) + TrackEndEffects(onEnded[t])
      ensures t in onEnded ==> PlaceCall(onEnded[t].call, onEnded[t].stream) in old(out)
      ensures t !in onEnded ==> out == old(out)
    {
      if t in onEnded {
        var h := onEnded[t];
        out := out + [CloseCall(h.call)];
        StopTracks(h.stream.tracks);
      }
    }

    /** Stop sharing: release the stream and the peer if present, clear the
        list and the room code, report, and go back home. */
    method EndSession()
      modifies this`activeStream, this`peer, this`connections, this`roomId, this`out
      ensures activeStream == None && peer == None && connections == [] && roomId == ""
      ensures out == old(out) + EndSessionEffects(old(activeStream), old(peer))
    {
      if activeStream.Some? {
        StopTracks(activeStream.value.tracks);
        activeStream := None;
      }
      if peer.Some? {
        out := out + [DestroyPeer(peer.value)];
        peer := None;
      }
      connections := [];
      roomId := "";
      out := out + [ShowToast(SessionEnded), Navigate("/")];
    }

    /** The page unmounted: the peer created at mount is destroyed, whatever
        `endSession` did to the `peer` state since. */
    method Unmount()
      modifies this`out
      ensures out == old(out) + (if mounted.Some? then [DestroyPeer(mounted.value)] else [])
    {
      if mounted.Some? {
        out := out + [DestroyPeer(mounted.value)];
      }
    }
  }

  /** Two `endSession` calls in a row leave the state a single call leaves;
      the second adds only its report and navigation. */
  method EndSessionTwice(h: Host)
    modifies h`activeStream, h`peer, h`connections, h`roomId, h`out
    ensures h.activeStream == None && h.peer == None && h.connections == [] && h.roomId == ""
    ensures h.out == old(h.out) + EndSessionEffects(old(h.activeStream), old(h.peer))
                     + [ShowToast(SessionEnded), Navigate("/")]
  {
    h.EndSession();
    h.EndSession();
  }

  /** Two viewers connect before the host shares: the decision step runs after
      each connection and raises a prompt each time. */
  method TwoViewersBeforeSharing() returns (prompts: nat, listed: nat)
    ensures prompts == 2 && listed == 2
  {
    var h := new Host(Some(PeerRef(0)));
    h.OnPeerOpen("R1");
    assert h.peer.Some? && h.activeStream.None?;
    h.Decide();
    assert h.out == [];
    h.OnConnection("V1");
    assert h.connections == ["V1"];
    h.Decide();
    assert h.out == [RaisePrompt];
    h.OnConnection("V2");
    assert h.connections == ["V1", "V2"];
    h.Decide();
    assert h.out == [RaisePrompt] + [RaisePrompt];
    PromptsConcat([RaisePrompt], [RaisePrompt]);
    assert Prompts([RaisePrompt]) == 1;
    prompts, listed := Prompts(h.out), |h.connections|;
  }

  /** The same viewer id connecting twice, with the decision step run after
      each change: it is listed twice and, once sharing starts, called twice;
      its close removes both copies. `calls` counts the effects of the
      decision step that runs once the stream is captured. */
  method DuplicateViewer(stream: DisplayStream) returns (listed: nat, calls: nat, stillListed: bool)
    ensures listed == 2 && calls == 2 && !stillListed
  {
    var h := new Host(Some(PeerRef(0)));
    h.OnConnection("V1");
    h.Decide();
    assert h.onEnded == map[];
    h.OnConnection("V1");
    h.Decide();
    h.OnPromptClicked();
    h.OnCaptureSettled(Captured(stream));
    assert h.onEnded == map[] && h.activeStream == Some(stream);
    var before := |h.out|;
    h.Decide();
    listed, calls := |h.connections|, |h.out| - before;
    h.OnConnectionClose("V1");
    stillListed := "V1" in h.connections;
  }

  /** Sharing to V1 and V2, with the decision step run after each change;
      then V2 leaves. The next decision step adds one effect only: a new call
      to V1. No call is closed for V2. */
  method ViewerLeavesWhileSharing(stream: DisplayStream) returns (added: nat, last: HostEffect)
    ensures added == 1 && last == PlaceCall(Call(2, "V1"), stream)
  {
    var h := new Host(Some(PeerRef(0)));
    h.OnConnection("V1");
    h.Decide();
    h.OnConnection("V2");
    assert h.connections == ["V1", "V2"];
    h.Decide();
    h.OnPromptClicked();
    h.OnCaptureSettled(Captured(stream));
    assert h.onEnded == map[] && h.nextCall == 0;
    h.Decide();
    assert h.nextCall == 2;
    h.OnConnectionClose("V2");
    assert h.connections == ["V1"] by {
      WithoutConcat(["V1"], ["V2"], "V2");
      assert ["V1"] + ["V2"] == ["V1", "V2"];
    }
    var before := |h.out|;
    h.Decide();
    PlannedCallsAt(["V1"], stream, 2);
    added, last := |h.out| - before, h.out[|h.out| - 1];
  }
}
