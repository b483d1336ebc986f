/** Values shared by the host page and the join page: identities handed out by
    the peer-to-peer library and media streams handed out by the browser. Both
    are opaque here; only their identity and their tracks matter. */
module Common {

  datatype Option<+T> = None | Some(value: T)

  /** The id a remote peer registered under (a viewer's id, or the room code). */
  type PeerId = string

  /** A track of a media stream, named by an opaque number. */
  type TrackId = nat

  /** A local peer object created by the page (`new Peer(...)`). */
  datatype PeerRef = PeerRef(handle: nat)

  /** A media stream: an opaque id and the ordered list of its tracks. */
  datatype MediaStream = MediaStream(id: nat, tracks: seq<TrackId>)

  /** A display capture requested with `video: true` always carries its video
      track, so `getTracks()[0]` exists. */
  type DisplayStream = s: MediaStream | s.tracks != [] witness MediaStream(0, [0])
}
