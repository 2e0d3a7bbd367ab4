/** `WebRTCManager` (lib/webrtc.ts): one optional local capture, a table of peer
    connections keyed by user id, a table of remote streams, two callback slots,
    and the signalling messages it sends.

    The browser objects are modelled abstractly: a `Track` is a local media track,
    a `PeerConnection` records what the manager did to an `RTCPeerConnection`
    (closed, descriptions, added candidates, added tracks). The signalling stub
    appends to `outbox`; a callback invocation appends to `fired`. Browser events
    (`ontrack`, `onicecandidate`, `onconnectionstatechange`) are methods that can
    be called in any order, each running atomically. */
module WebRTC {
  import opened Wrappers

  datatype TrackKind = Audio | Video

  /** A local `MediaStreamTrack`. Tracks are shared by reference between the local
      stream and every connection they were added to. */
  class Track {
    const kind: TrackKind
    var enabled: bool
    var stopped: bool

    constructor (kind: TrackKind)
      ensures this.kind == kind && enabled && !stopped
    {
      this.kind := kind;
      enabled := true;
      stopped := false;
    }

    /** `track.stop()`. */
    method Stop()
      modifies this
      ensures stopped && enabled == old(enabled)
    {
      stopped := true;
    }
  }

  /** Session description bodies are created by the browser and stay opaque. */
  type Sdp = string

  datatype Description = OfferDescription(offer: Sdp) | AnswerDescription(answer: Sdp)

  datatype Candidate = Candidate(candidate: string)

  /** A signalling message. Incoming messages whose `type` is none of the three
      known ones are `UnknownMessage`. */
  datatype Message =
    | OfferMessage(offer: Sdp)
    | AnswerMessage(answer: Sdp)
    | IceCandidateMessage(candidate: Candidate)
    | UnknownMessage

  /** A call of `sendSignalingMessage(userId, message)`. */
  datatype Outgoing = Outgoing(to: string, message: Message)

  /** A remote `MediaStream`, opaque. */
  datatype RemoteStream = RemoteStream(id: nat)

  /** A callback registered by a caller, identified by a token of the caller's choosing. */
  type Handler = nat

  /** One invocation of a registered callback. */
  datatype Fired =
    | RemoteStreamFired(handler: Handler, userId: string, stream: RemoteStream)
    | UserDisconnectedFired(handler: Handler, userId: string)

  /** `RTCPeerConnection.connectionState`. */
  datatype ConnectionState = New | Connecting | Connected | Disconnected | Failed | Closed

  /** What `createPeerConnection` did to one `RTCPeerConnection`, seen from the manager. */
  class PeerConnection {
    /** The user id its three event handlers were created for. */
    const userId: string
    var closed: bool
    var localDescription: Option<Description>
    var remoteDescription: Option<Description>
    var candidates: seq<Candidate>
    var tracks: seq<Track>

    constructor (userId: string)
      ensures this.userId == userId && !closed
      ensures localDescription == None && remoteDescription == None
      ensures candidates == [] && tracks == []
    {
      this.userId := userId;
      closed := false;
      localDescription := None;
      remoteDescription := None;
      candidates := [];
      tracks := [];
    }

    /** `pc.close()`. */
    method Close()
      modifies this
      ensures closed
      ensures localDescription == old(localDescription) && remoteDescription == old(remoteDescription)
      ensures candidates == old(candidates) && tracks == old(tracks)
    {
      closed := true;
    }
  }

  /** `getUserMedia` outcomes other than success. */
  datatype MediaError =
    | NothingRequested   // TypeError: neither video nor audio requested
    | PermissionDenied   // NotAllowedError
    | DeviceNotFound     // NotFoundError

  /** The devices and permission `getUserMedia` sees. */
  datatype Devices = Devices(camera: bool, microphone: bool, permitted: bool)

  /** The constraints `initializeLocalStream` passes: 640x480 video when video is
      requested, `false` otherwise, and the audio flag as given. */
  datatype VideoConstraint = NoVideo | VideoSize(width: nat, height: nat)
  datatype Constraints = Constraints(video: VideoConstraint, audio: bool)

  function CaptureConstraints(video: bool, audio: bool): (c: Constraints)
    ensures c.video.VideoSize? <==> video
    ensures video ==> c.video == VideoSize(640, 480)
    ensures c.audio == audio
  {
    Constraints(if video then VideoSize(640, 480) else NoVideo, audio)
  }

  /** `getUserMedia(constraints)`: the kinds of the tracks of the new stream, or the error. */
  function GetUserMedia(c: Constraints, devices: Devices): Result<seq<TrackKind>, MediaError>
  {
    if c.video.NoVideo? && !c.audio then Err(NothingRequested)
    else if !devices.permitted then Err(PermissionDenied)
    else if (c.video.VideoSize? && !devices.camera) || (c.audio && !devices.microphone) then Err(DeviceNotFound)
    else Ok((if c.audio then [Audio] else []) + (if c.video.VideoSize? then [Video] else []))
  }

  /** A capture succeeds exactly when something is requested, allowed and present; it then
      holds one track per requested kind and no other; in particular an audio-only
      request never yields a video track. */
  lemma CaptureKinds(video: bool, audio: bool, devices: Devices)
    ensures var r := GetUserMedia(CaptureConstraints(video, audio), devices);
      && (r.Ok? <==> (video || audio) && devices.permitted && (video ==> devices.camera) && (audio ==> devices.microphone))
      && (r.Ok? ==> (Video in r.value <==> video) && (Audio in r.value <==> audio) && |r.value| <= 2)
      && (r.Ok? ==> forall i, j :: 0 <= i < j < |r.value| ==> r.value[i] != r.value[j])
  {
  }

  function KindsOf(tracks: seq<Track>): (kinds: seq<TrackKind>)
    reads set t | t in tracks
    ensures |kinds| == |tracks| && forall i :: 0 <= i < |tracks| ==> kinds[i] == tracks[i].kind
  {
    if |tracks| == 0 then [] else [tracks[0].kind] + KindsOf(tracks[1..])
  }

  /** The index of the first track of a kind (`getVideoTracks()[0]`, `getAudioTracks()[0]`). */
  function FirstOfKind(tracks: seq<Track>, kind: TrackKind): (r: Option<nat>)
    reads set t | t in tracks
    ensures r.Some? ==> r.value < |tracks| && tracks[r.value].kind == kind
    ensures r.Some? ==> forall j :: 0 <= j < r.value ==> tracks[j].kind != kind
    ensures r.None? ==> forall j :: 0 <= j < |tracks| ==> tracks[j].kind != kind
  {
    if |tracks| == 0 then None
    else if tracks[0].kind == kind then Some(0)
    else match FirstOfKind(tracks[1..], kind)
      case None => None
      case Some(i) => Some(i + 1)
  }

  /** What the remote-stream slot fires for one track event: one invocation when a callback is registered. */
  function RemoteStreamFiring(slot: Option<Handler>, userId: string, stream: RemoteStream): (r: seq<Fired>)
    ensures |r| == (if slot.Some? then 1 else 0)
    ensures slot.Some? ==> r[0] == RemoteStreamFired(slot.value, userId, stream)
  {
    if slot.Some? then [RemoteStreamFired(slot.value, userId, stream)] else []
  }

  /** What the disconnect slot fires for one teardown: one invocation when a callback is registered. */
  function DisconnectFiring(slot: Option<Handler>, userId: string): (r: seq<Fired>)
    ensures |r| == (if slot.Some? then 1 else 0)
    ensures slot.Some? ==> r[0] == UserDisconnectedFired(slot.value, userId)
  {
    if slot.Some? then [UserDisconnectedFired(slot.value, userId)] else []
  }

  /** The outcome of `handleSignalingMessage`. */
  datatype SignalOutcome =
    | NoConnection   // no connection for that user: dropped
    | Applied        // a known message, applied
    | Rejected       // the browser rejected the description or candidate: the async handler stops there
    | Ignored        // unknown message type

  class Manager {
    var localStream: Option<seq<Track>>
    var peerConnections: map<string, PeerConnection>
    var remoteStreams: map<string, RemoteStream>
    var onRemoteStreamCallback: Option<Handler>
    var onUserDisconnectedCallback: Option<Handler>
    /** Every `sendSignalingMessage` call, in order. */
    var outbox: seq<Outgoing>
    /** Every callback invocation, in order. */
    var fired: seq<Fired>

    /** Every connection in the table belongs to the user it is filed under, and is open. */
    ghost predicate Valid()
      reads this, peerConnections.Values
    {
      forall u :: u in peerConnections ==> peerConnections[u].userId == u && !peerConnections[u].closed
    }

    /** The tracks a new connection is given: the local stream's, or none. */
    function StreamTracks(): seq<Track>
      reads this
    {
      if localStream.Some? then localStream.value else []
    }

    /** The tracks of the current local stream. */
    function LocalTracks(): set<Track>
      reads this
    {
      if localStream.Some? then set t | t in localStream.value else {}
    }

    /** The connection filed under a user id, as a set (empty when there is none). */
    function ConnectionOf(userId: string): set<PeerConnection>
      reads this
    {
      if userId in peerConnections then {peerConnections[userId]} else {}
    }

    /** The window `beforeunload` hook is not modelled. */
    constructor ()
      ensures Valid()
      ensures localStream == None && peerConnections == map[] && remoteStreams == map[]
      ensures onRemoteStreamCallback == None && onUserDisconnectedCallback == None
      ensures outbox == [] && fired == []
    {
      localStream := None;
      peerConnections := map[];
      remoteStreams := map[];
      onRemoteStreamCallback := None;
      onUserDisconnectedCallback := None;
      outbox := [];
      fired := [];
    }

    /** `initializeLocalStream(video, audio)`: capture and keep the new stream. A failed
        capture leaves the previous stream in place; a successful one replaces it
        without stopping the previous tracks. */
    method InitializeLocalStream(video: bool, audio: bool, devices: Devices)
      returns (r: Result<seq<Track>, MediaError>)
      requires Valid()
      modifies this`localStream
      ensures Valid()
      ensures var captured := GetUserMedia(CaptureConstraints(video, audio), devices);
        && (r.Err? <==> captured.Err?)
        && (r.Err? ==> r.error == captured.error && localStream == old(localStream))
        && (r.Ok? ==> localStream == Some(r.value) && KindsOf(r.value) == captured.value)
      ensures r.Ok? ==> forall t :: t in r.value ==> fresh(t) && t.enabled && !t.stopped
    {
      var captured := GetUserMedia(CaptureConstraints(video, audio), devices);
      if captured.Err? {
        r := Err(captured.error);
        return;
      }
      var kinds := captured.value;
      var tracks: seq<Track> := [];
      for i := 0 to |kinds|
        invariant |tracks| == i
        invariant forall j :: 0 <= j < i ==> tracks[j].kind == kinds[j]
        invariant forall t :: t in tracks ==> fresh(t) && t.enabled && !t.stopped
      {
        var t := new Track(kinds[i]);
        tracks := tracks + [t];
      }
      assert KindsOf(tracks) == kinds;
      localStream := Some(tracks);
      r := Ok(tracks);
    }

    /** `createPeerConnection(userId, isInitiator)`: file a new connection under the user
        id, replacing (and not closing) any previous one; add every track of the current
        local stream; an initiator sets its offer as local description and sends it.
        `offer` is the description `createOffer` produces. */
    method CreatePeerConnection(userId: string, isInitiator: bool, offer: Sdp)
      returns (pc: PeerConnection)
      requires Valid()
      modifies this`peerConnections, this`outbox
      ensures Valid()
      ensures fresh(pc) && pc.userId == userId && !pc.closed
      ensures peerConnections == old(peerConnections)[userId := pc]
      ensures pc.tracks == StreamTracks()
      ensures pc.remoteDescription == None && pc.candidates == []
      ensures pc.localDescription == (if isInitiator then Some(OfferDescription(offer)) else None)
      ensures outbox == old(outbox) + (if isInitiator then [Outgoing(userId, OfferMessage(offer))] else [])
    {
      pc := new PeerConnection(userId);
      peerConnections := peerConnections[userId := pc];
      if localStream.Some? {
        var tracks := localStream.value;
        for i := 0 to |tracks|
          invariant pc.tracks == tracks[..i]
          modifies pc`tracks
        {
          pc.tracks := pc.tracks + [tracks[i]];
        }
        assert tracks[..|tracks|] == tracks;
      }
      if isInitiator {
        pc.localDescription := Some(OfferDescription(offer));
        outbox := outbox + [Outgoing(userId, OfferMessage(offer))];
      }
    }

    /** `ontrack` of a connection: file the remote stream under the connection's user id
        (overwriting) and tell the remote-stream callback. */
    method OnTrack(pc: PeerConnection, stream: RemoteStream)
      modifies this`remoteStreams, this`fired
      ensures remoteStreams == old(remoteStreams)[pc.userId := stream]
      ensures fired == old(fired) + RemoteStreamFiring(onRemoteStreamCallback, pc.userId, stream)
    {
      remoteStreams := remoteStreams[pc.userId := stream];
      if onRemoteStreamCallback.Some? {
        fired := fired + [RemoteStreamFired(onRemoteStreamCallback.value, pc.userId, stream)];
      }
    }

    /** `onicecandidate` of a connection: forward a non-null candidate to its user. */
    method OnIceCandidate(pc: PeerConnection, candidate: Option<Candidate>)
      modifies this`outbox
      ensures outbox == old(outbox) + (if candidate.Some? then [Outgoing(pc.userId, IceCandidateMessage(candidate.value))] else [])
    {
      if candidate.Some? {
        outbox := outbox + [Outgoing(pc.userId, IceCandidateMessage(candidate.value))];
      }
    }

    /** `onconnectionstatechange` of a connection: `disconnected` and `failed` tear down
        whatever is filed under the connection's user id, which need not be this
        connection any more. */
    method OnConnectionStateChange(pc: PeerConnection, state: ConnectionState)
      requires Valid()
      modifies this, ConnectionOf(pc.userId)
      ensures Valid()
      ensures var down := state == Disconnected || state == Failed;
        && peerConnections == (if down then old(peerConnections) - {pc.userId} else old(peerConnections))
        && remoteStreams == (if down then old(remoteStreams) - {pc.userId} else old(remoteStreams))
        && (down && pc.userId in old(peerConnections) ==> old(peerConnections)[pc.userId].closed)
        && fired == old(fired) + (if down then DisconnectFiring(onUserDisconnectedCallback, pc.userId) else [])
      ensures pc.userId in old(peerConnections) ==>
        var filed := old(peerConnections)[pc.userId];
        && (!(state == Disconnected || state == Failed) ==> filed.closed == old(filed.closed))
        && filed.localDescription == old(filed.localDescription) && filed.remoteDescription == old(filed.remoteDescription)
        && filed.candidates == old(filed.candidates) && filed.tracks == old(filed.tracks)
      ensures localStream == old(localStream) && outbox == old(outbox)
      ensures onRemoteStreamCallback == old(onRemoteStreamCallback)
      ensures onUserDisconnectedCallback == old(onUserDisconnectedCallback)
    {
      if state == Disconnected || state == Failed {
        HandleUserDisconnected(pc.userId);
      }
    }

    /** `handleUserDisconnected(userId)`: close and drop the connection filed under the id,
        drop its remote stream and tell the disconnect callback, whether or not a
        connection was filed. */
    method HandleUserDisconnected(userId: string)
      requires Valid()
      modifies this, ConnectionOf(userId)
      ensures Valid()
      ensures peerConnections == old(peerConnections) - {userId}
      ensures remoteStreams == old(remoteStreams) - {userId}
      ensures userId in old(peerConnections) ==> old(peerConnections)[userId].closed
      ensures userId in old(peerConnections) ==>
        var pc := old(peerConnections)[userId];
        && pc.localDescription == old(pc.localDescription) && pc.remoteDescription == old(pc.remoteDescription)
        && pc.candidates == old(pc.candidates) && pc.tracks == old(pc.tracks)
      ensures fired == old(fired) + DisconnectFiring(onUserDisconnectedCallback, userId)
      ensures localStream == old(localStream) && outbox == old(outbox)
      ensures onRemoteStreamCallback == old(onRemoteStreamCallback)
      ensures onUserDisconnectedCallback == old(onUserDisconnectedCallback)
    {
      if userId in peerConnections {
        var pc := peerConnections[userId];
        pc.Close();
        peerConnections := peerConnections - {userId};
      }
      remoteStreams := remoteStreams - {userId};
      if onUserDisconnectedCallback.Some? {
        fired := fired + [UserDisconnectedFired(onUserDisconnectedCallback.value, userId)];
      }
    }

    /** `handleSignalingMessage(userId, message)`. `answer` is the description `createAnswer`
        produces; `accepted` is whether the browser accepts the remote description or
        candidate (when it does not, the awaited call rejects and nothing after it runs). */
    method HandleSignalingMessage(userId: string, message: Message, answer: Sdp, accepted: bool)
      returns (outcome: SignalOutcome)
      requires Valid()
      modifies ConnectionOf(userId), this`outbox
      ensures Valid()
      ensures userId !in peerConnections ==> outcome == NoConnection && outbox == old(outbox)
      ensures userId in peerConnections ==> var pc := peerConnections[userId];
        match message
        case OfferMessage(offer) =>
          if accepted then
            && outcome == Applied
            && pc.remoteDescription == Some(OfferDescription(offer))
            && pc.localDescription == Some(AnswerDescription(answer))
            && pc.candidates == old(pc.candidates)
            && outbox == old(outbox) + [Outgoing(userId, AnswerMessage(answer))]
          else outcome == Rejected && unchanged(pc) && outbox == old(outbox)
        case AnswerMessage(sdp) =>
          && outbox == old(outbox)
          && (if accepted then
                && outcome == Applied
                && pc.remoteDescription == Some(AnswerDescription(sdp))
                && pc.localDescription == old(pc.localDescription)
                && pc.candidates == old(pc.candidates)
              else outcome == Rejected && unchanged(pc))
        case IceCandidateMessage(c) =>
          && outbox == old(outbox)
          && (if accepted then
                && outcome == Applied
                && pc.candidates == old(pc.candidates) + [c]
                && pc.localDescription == old(pc.localDescription)
                && pc.remoteDescription == old(pc.remoteDescription)
              else outcome == Rejected && unchanged(pc))
        case UnknownMessage => outcome == Ignored && unchanged(pc) && outbox == old(outbox)
      ensures userId in peerConnections ==> var pc := peerConnections[userId];
        pc.tracks == old(pc.tracks) && pc.closed == old(pc.closed)
    {
      if userId !in peerConnections {
        return NoConnection;
      }
      var pc := peerConnections[userId];
      match message {
        case OfferMessage(offer) =>
          if !accepted {
            return Rejected;
          }
          pc.remoteDescription := Some(OfferDescription(offer));
          pc.localDescription := Some(AnswerDescription(answer));
          outbox := outbox + [Outgoing(userId, AnswerMessage(answer))];
          outcome := Applied;
        case AnswerMessage(sdp) =>
          if !accepted {
            return Rejected;
          }
          pc.remoteDescription := Some(AnswerDescription(sdp));
          outcome := Applied;
        case IceCandidateMessage(c) =>
          if !accepted {
            return Rejected;
          }
          pc.candidates := pc.candidates + [c];
          outcome := Applied;
        case UnknownMessage =>
          outcome := Ignored;
      }
    }

    /** `toggleVideo(enabled)`: set `enabled` on the first video track, if any. */
    method ToggleVideo(enabled: bool)
      modifies LocalTracks()
      ensures localStream.Some? && FirstOfKind(localStream.value, Video).Some? ==>
        localStream.value[FirstOfKind(localStream.value, Video).value].enabled == enabled
      ensures forall t :: t in old(LocalTracks()) ==> t.stopped == old(t.stopped)
      ensures forall t :: t in old(LocalTracks()) && !IsFirstOfKind(t, Video) ==> t.enabled == old(t.enabled)
    {
      ToggleFirst(Video, enabled);
    }

    /** `toggleAudio(enabled)`: set `enabled` on the first audio track, if any. */
    method ToggleAudio(enabled: bool)
      modifies LocalTracks()
      ensures localStream.Some? && FirstOfKind(localStream.value, Audio).Some? ==>
        localStream.value[FirstOfKind(localStream.value, Audio).value].enabled == enabled
      ensures forall t :: t in old(LocalTracks()) ==> t.stopped == old(t.stopped)
      ensures forall t :: t in old(LocalTracks()) && !IsFirstOfKind(t, Audio) ==> t.enabled == old(t.enabled)
    {
      ToggleFirst(Audio, enabled);
    }

    predicate IsFirstOfKind(t: Track, kind: TrackKind)
      reads this, LocalTracks()
    {
      localStream.Some? && match FirstOfKind(localStream.value, kind)
        case Some(i) => localStream.value[i] == t
        case None => false
    }

    method ToggleFirst(kind: TrackKind, enabled: bool)
      modifies LocalTracks()
      ensures localStream.Some? && FirstOfKind(localStream.value, kind).Some? ==>
        localStream.value[FirstOfKind(localStream.value, kind).value].enabled == enabled
      ensures forall t :: t in old(LocalTracks()) ==> t.stopped == old(t.stopped)
      ensures forall t :: t in old(LocalTracks()) && !IsFirstOfKind(t, kind) ==> t.enabled == old(t.enabled)
    {
      if localStream.Some? {
        var first := FirstOfKind(localStream.value, kind);
        if first.Some? {
          localStream.value[first.value].enabled := enabled;
        }
      }
    }

    /** `onRemoteStream(callback)`: replace the remote-stream callback. */
    method OnRemoteStream(handler: Handler)
      modifies this`onRemoteStreamCallback
      ensures onRemoteStreamCallback == Some(handler)
    {
      onRemoteStreamCallback := Some(handler);
    }

    /** `onUserDisconnected(callback)`: replace the disconnect callback. */
    method OnUserDisconnected(handler: Handler)
      modifies this`onUserDisconnectedCallback
      ensures onUserDisconnectedCallback == Some(handler)
    {
      onUserDisconnectedCallback := Some(handler);
    }

    /** `cleanup()`: close every filed connection, empty both tables and stop every local
        track. The local stream stays (stopped) in place; no callback fires. */
    method Cleanup()
      requires Valid()
      modifies this, peerConnections.Values, LocalTracks()
      ensures Valid()
      ensures forall pc :: pc in old(peerConnections.Values) ==> pc.closed
      ensures forall pc :: pc in old(peerConnections.Values) ==>
        && pc.localDescription == old(pc.localDescription) && pc.remoteDescription == old(pc.remoteDescription)
        && pc.candidates == old(pc.candidates) && pc.tracks == old(pc.tracks)
      ensures peerConnections == map[] && remoteStreams == map[]
      ensures forall t :: t in old(LocalTracks()) ==> t.stopped && t.enabled == old(t.enabled)
      ensures localStream == old(localStream) && outbox == old(outbox) && fired == old(fired)
      ensures onRemoteStreamCallback == old(onRemoteStreamCallback)
      ensures onUserDisconnectedCallback == old(onUserDisconnectedCallback)
    {
      var open := peerConnections.Values;
      while open != {}
        invariant open <= old(peerConnections.Values)
        invariant forall pc :: pc in old(peerConnections.Values) - open ==> pc.closed
        invariant forall pc :: pc in old(peerConnections.Values) ==>
          && pc.localDescription == old(pc.localDescription) && pc.remoteDescription == old(pc.remoteDescription)
          && pc.candidates == old(pc.candidates) && pc.tracks == old(pc.tracks)
        modifies old(peerConnections.Values)
        decreases open
      {
        var pc :| pc in open;
        pc.Close();
        open := open - {pc};
      }
      peerConnections := map[];
      remoteStreams := map[];
      if localStream.Some? {
        var tracks := localStream.value;
        for i := 0 to |tracks|
          invariant forall j :: 0 <= j < i ==> tracks[j].stopped
          invariant forall t :: t in tracks ==> t.enabled == old(t.enabled)
          modifies set t | t in tracks
        {
          tracks[i].Stop();
        }
      }
    }
  }
}
