/** The join page: it takes a room code (typed, or prefilled from the `room`
    URL parameter), creates a peer, connects to the room once the peer is
    open, answers every inbound call and shows its stream, and resets when the
    connection closes. */
module ViewerSession {
  import opened Common
  import opened RoomCode

  datatype ViewerToast = RoomCodeRequired | Connected | Disconnected | ConnectionFailed

  /** An inbound media call, from whichever peer placed it. */
  datatype InboundCall = InboundCall(serial: nat, caller: PeerId)

  /** What the join page does to the outside world. */
  datatype ViewerEffect =
    | ShowToast(toast: ViewerToast)
    | CreatePeer(peer: PeerRef)
    | ConnectTo(peer: PeerRef, room: PeerId)
    | Answer(call: InboundCall)
    | DestroyPeer(peer: PeerRef)

  /** The join page's state. Every peer created by `JoinRoom` keeps its
      handlers, and they all update the same page state. */
  class Viewer {
    var roomId: string
    var isConnecting: bool
    var activeStream: Option<MediaStream>
    /** `peerRef.current`: the peer created last, until teardown. */
    var peerRef: Option<PeerRef>
    /** The room code each created peer connects to once it opens. */
    var targets: map<PeerRef, PeerId>
    /** The peers whose open event has fired. */
    var openPeers: set<PeerRef>
    /** The inbound calls answered so far. */
    var answered: set<InboundCall>
    /** Handle of the next peer created. */
    var nextPeer: nat
    /** Everything the page has done to the outside world, in order. */
    var out: seq<ViewerEffect>

    /** The held peer and every opened peer were created here, and every
        created peer has a handle below `nextPeer`. */
    ghost predicate Valid()
      reads this
    {
      (peerRef.Some? ==> peerRef.value in targets)
      && openPeers <= targets.Keys
      && forall p :: p in targets ==> p.handle < nextPeer
    }

    constructor ()
      ensures Valid()
      ensures roomId == "" && !isConnecting && activeStream == None && peerRef == None
      ensures targets == map[] && openPeers == {} && answered == {} && nextPeer == 0 && out == []
    {
      roomId := "";
      isConnecting := false;
      activeStream := None;
      peerRef := None;
      targets := map[];
      openPeers := {};
      answered := {};
      nextPeer := 0;
      out := [];
    }

    /** The join button is enabled when no connection is under way and the
        typed code is not blank. */
    function JoinEnabled(): (enabled: bool)
      reads this
      ensures enabled <==> !isConnecting && exists i :: 0 <= i < |roomId| && !IsWhitespace(roomId[i])
    {
      !isConnecting && !IsBlank(roomId)
    }

    /** On mount: the `room` URL parameter, when present and non-empty,
        becomes the typed code. */
    method Prefill(room: Option<string>)
      modifies this`roomId
      ensures room.Some? && room.value != "" ==> roomId == room.value
      ensures room.None? || room.value == "" ==> roomId == old(roomId)
    {
      if room.Some? && room.value != "" {
        roomId := room.value;
      }
    }

    /** The user edits the code field. */
    method OnInput(text: string)
      modifies this`roomId
      ensures roomId == text
    {
      roomId := text;
    }

    /** `joinRoom(code)`: a blank code is refused with a toast and nothing
        else; otherwise a new peer is created, held in `peerRef`, and bound
        to connect to exactly `code` (untrimmed) once it opens. */
    method JoinRoom(code: string) returns (started: bool)
      requires Valid()
      modifies this`isConnecting, this`peerRef, this`targets, this`nextPeer, this`out
      ensures Valid()
      ensures started <==> exists i :: 0 <= i < |code| && !IsWhitespace(code[i])
      ensures !started ==>
        isConnecting == old(isConnecting) && peerRef == old(peerRef) && targets == old(targets)
        && nextPeer == old(nextPeer) && out == old(out) + [ShowToast(RoomCodeRequired)]
      ensures started ==>
        var p := PeerRef(old(nextPeer));
        p !in old(targets) && isConnecting && peerRef == Some(p)
        && targets == old(targets)[p := code] && nextPeer == old(nextPeer) + 1
        && out == old(out) + [CreatePeer(p)]
    {
      if IsBlank(code) {
        out := out + [ShowToast(RoomCodeRequired)];
        return false;
      }
      isConnecting := true;
      var p := PeerRef(nextPeer);
      nextPeer := nextPeer + 1;
      peerRef := Some(p);
      targets := targets[p := code];
      out := out + [CreatePeer(p)];
      return true;
    }

    /** The join button was clicked: `joinRoom()` with the typed code. */
    method JoinClicked() returns (started: bool)
      requires Valid() && JoinEnabled()
      modifies this`isConnecting, this`peerRef, this`targets, this`nextPeer, this`out
      ensures Valid()
      ensures started && isConnecting && peerRef == Some(PeerRef(old(nextPeer)))
      ensures nextPeer == old(nextPeer) + 1
      ensures targets == old(targets)[PeerRef(old(nextPeer)) := roomId]
      ensures out == old(out) + [CreatePeer(PeerRef(old(nextPeer)))]
    {
      started := JoinRoom(roomId);
    }

    /** Peer `p` opened: it connects to the code it was created for. */
    method OnPeerOpen(p: PeerRef)
      requires Valid() && p in targets && p !in openPeers
      modifies this`openPeers, this`out
      ensures Valid()
      ensures openPeers == old(openPeers) + {p}
      ensures out == old(out) + [ConnectTo(p, targets[p])]
    {
      openPeers := openPeers + {p};
      out := out + [ConnectTo(p, targets[p])];
    }

    /** The connection made by `p` opened: only a toast. */
    method OnConnectionOpen(p: PeerRef)
      requires p in openPeers
      modifies this`out
      ensures out == old(out) + [ShowToast(Connected)]
    {
      out := out + [ShowToast(Connected)];
    }

    /** A call arrived at the opened peer `p`: it is answered, whoever placed it. */
    method OnCall(p: PeerRef, call: InboundCall)
      requires p in openPeers
      modifies this`answered, this`out
      ensures answered == old(answered) + {call}
      ensures out == old(out) + [Answer(call)]
    {
      answered := answered + {call};
      out := out + [Answer(call)];
    }

    /** An answered call delivered its stream: it becomes the active stream. */
    method OnCallStream(call: InboundCall, stream: MediaStream)
      requires call in answered
      modifies this`activeStream
      ensures activeStream == Some(stream)
    {
      activeStream := Some(stream);
    }

    /** The connection made by `p` closed: the page resets and reports; the
        peer is kept and no track is stopped. */
    method OnConnectionClose(p: PeerRef)
      requires p in openPeers
      modifies this`isConnecting, this`roomId, this`activeStream, this`out
      ensures !isConnecting && roomId == "" && activeStream == None
      ensures out == old(out) + [ShowToast(Disconnected)]
    {
      isConnecting := false;
      roomId := "";
      activeStream := None;
      out := out + [ShowToast(Disconnected)];
    }

    /** Peer `p` reported an error: only the connecting flag is cleared. */
    method OnPeerError(p: PeerRef)
      requires p in targets
      modifies this`isConnecting, this`out
      ensures !isConnecting
      ensures out == old(out) + [ShowToast(ConnectionFailed)]
    {
      isConnecting := false;
      out := out + [ShowToast(ConnectionFailed)];
    }

    /** On unmount: the held peer, if any, is destroyed and released. */
    method Teardown()
      requires Valid()
      modifies this`peerRef, this`out
      ensures Valid()
      ensures peerRef == None
      ensures out == old(out) + (if old(peerRef).Some? then [DestroyPeer(old(peerRef).value)] else [])
    {
      if peerRef.Some? {
        out := out + [DestroyPeer(peerRef.value)];
        peerRef := None;
      }
    }
  }

  /** A second teardown right after the first does nothing. */
  method TeardownTwice(v: Viewer)
    requires v.Valid()
    modifies v`peerRef, v`out
    ensures v.peerRef == None
    ensures v.out == old(v.out) + (if old(v.peerRef).Some? then [DestroyPeer(old(v.peerRef).value)] else [])
  {
    v.Teardown();
    v.Teardown();
  }

  /** Destroying the peer on unmount closes its connection, and the close
      handler still runs: the page resets and reports the disconnection. */
  method TeardownThenClose(v: Viewer, p: PeerRef)
    requires v.Valid() && p in v.openPeers
    modifies v`peerRef, v`isConnecting, v`roomId, v`activeStream, v`out
    ensures v.peerRef == None && !v.isConnecting && v.roomId == "" && v.activeStream == None
    ensures v.out == old(v.out) + (if old(v.peerRef).Some? then [DestroyPeer(old(v.peerRef).value)] else [])
                     + [ShowToast(Disconnected)]
  {
    v.Teardown();
    v.OnConnectionClose(p);
  }

  /** Neither an empty code nor a code of spaces starts a connection. */
  method BlankCodesRefused() returns (emptyStarted: bool, spacesStarted: bool, peers: nat)
    ensures !emptyStarted && !spacesStarted && peers == 0
  {
    var v := new Viewer();
    emptyStarted := v.JoinRoom("");
    spacesStarted := v.JoinRoom("   ");
    peers := v.nextPeer;
  }

  /** A viewer joins room R1, is called, and shows the stream; then the host
      ends the session and the page resets. */
  method JoinWatchLeave(stream: MediaStream) returns (connectedTo: PeerId, shown: Option<MediaStream>, afterClose: Option<MediaStream>)
    ensures connectedTo == "R1" && shown == Some(stream) && afterClose == None
  {
    var v := new Viewer();
    v.Prefill(Some("R1"));
    assert v.roomId == "R1" && !IsWhitespace(v.roomId[0]);
    var started := v.JoinClicked();
    var p := PeerRef(0);
    assert v.targets == map[p := "R1"];
    v.OnPeerOpen(p);
    assert v.out == [CreatePeer(p), ConnectTo(p, "R1")];
    connectedTo := v.out[|v.out| - 1].room;
    v.OnConnectionOpen(p);
    var call := InboundCall(0, "R1");
    v.OnCall(p, call);
    v.OnCallStream(call, stream);
    shown := v.activeStream;
    v.OnConnectionClose(p);
    afterClose := v.activeStream;
  }
}
