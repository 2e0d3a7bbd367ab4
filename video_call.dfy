/** `VideoCall` (components/video-call.tsx): the component that drives a `WebRTCManager`.
    Its React state (`localStream`, `remoteStreams`, the two media flags) is the
    fields of a class; the manager is a field it owns. */
module VideoCall {
  import opened Wrappers
  import opened Strings
  import opened WebRTC

  datatype Participant = Participant(id: string, name: string, avatar: Option<string>)

  /** The participants other than `self`, in list order. */
  function Others(participants: seq<Participant>, self: string): (others: seq<Participant>)
    ensures |others| <= |participants|
    ensures forall i :: 0 <= i < |others| ==> others[i].id != self
  {
    if |participants| == 0 then []
    else
      var last := participants[|participants| - 1];
      Others(participants[..|participants| - 1], self) + (if last.id != self then [last] else [])
  }

  /** Only participants from the list are kept. */
  lemma {:induction false} OthersSubset(participants: seq<Participant>, self: string)
    ensures forall p :: p in Others(participants, self) ==> p in participants
  {
    if |participants| > 0 {
      var init := participants[..|participants| - 1];
      OthersSubset(init, self);
      assert participants == init + [participants[|participants| - 1]];
    }
  }

  /** Filtering distributes over concatenation, so the list order is kept. */
  lemma {:induction false} OthersAppend(a: seq<Participant>, b: seq<Participant>, self: string)
    ensures Others(a + b, self) == Others(a, self) + Others(b, self)
  {
    if |b| > 0 {
      var last := b[|b| - 1];
      assert (a + b)[..|a + b| - 1] == a + b[..|b| - 1];
      OthersAppend(a, b[..|b| - 1], self);
    } else {
      assert a + b == a;
    }
  }

  /** Every participant whose id is not `self` is kept, and kept once per occurrence. */
  lemma {:induction false} OthersKeepsEveryOther(participants: seq<Participant>, self: string, p: Participant)
    ensures p.id != self ==> multiset(Others(participants, self))[p] == multiset(participants)[p]
    ensures p.id == self ==> p !in Others(participants, self)
  {
    if |participants| > 0 {
      var init := participants[..|participants| - 1];
      OthersKeepsEveryOther(init, self, p);
      assert participants == init + [participants[|participants| - 1]];
    }
  }

  lemma AppendAssociates<T>(a: seq<T>, b: seq<T>, c: seq<T>)
    ensures (a + b) + c == a + (b + c)
  {
  }

  lemma MergeUpdate<K, V>(a: map<K, V>, b: map<K, V>, k: K, v: V)
    ensures (a + b)[k := v] == a + b[k := v]
  {
  }

  lemma OthersStep(participants: seq<Participant>, i: nat, self: string)
    requires i < |participants|
    ensures Others(participants[..i + 1], self)
      == Others(participants[..i], self) + (if participants[i].id != self then [participants[i]] else [])
  {
    assert participants[..i + 1][..i] == participants[..i];
  }

  lemma OffersToStep(ps: seq<Participant>, p: Participant, offers: string -> Sdp)
    ensures OffersTo(ps + [p], offers) == OffersTo(ps, offers) + [Outgoing(p.id, OfferMessage(offers(p.id)))]
    ensures forall u :: HasId(ps + [p], u) <==> HasId(ps, u) || p.id == u
  {
    assert (ps + [p])[..|ps|] == ps;
  }

  /** Some participant in `ps` has the id `u`. */
  predicate HasId(ps: seq<Participant>, u: string)
  {
    |ps| > 0 && (ps[|ps| - 1].id == u || HasId(ps[..|ps| - 1], u))
  }

  /** The offers the manager sends for the given participants, one per participant, in order. */
  function OffersTo(ps: seq<Participant>, offers: string -> Sdp): (sent: seq<Outgoing>)
    ensures |sent| == |ps|
    ensures forall i :: 0 <= i < |ps| ==> sent[i] == Outgoing(ps[i].id, OfferMessage(offers(ps[i].id)))
  {
    if |ps| == 0 then [] else OffersTo(ps[..|ps| - 1], offers) + [Outgoing(ps[|ps| - 1].id, OfferMessage(offers(ps[|ps| - 1].id)))]
  }

  // ---------------------------------------------------------------------------
  // Remote tiles

  const PlaceholderAvatar := "/placeholder.svg"

  /** `participant.avatar || "/placeholder.svg"`. */
  function AvatarSource(p: Participant): string
  {
    if p.avatar.Some? && p.avatar.value != "" then p.avatar.value else PlaceholderAvatar
  }

  /** `name.split(" ").map((n) => n[0]).join("")`: the first character of each word;
      an empty word contributes nothing (its `n[0]` is `undefined`). */
  function Initials(name: string): string
  {
    FirstCharacters(Split(name, ' '))
  }

  /** The first character of each non-empty word, in word order. */
  function FirstCharacters(words: seq<string>): (r: string)
    ensures |r| <= |words|
    ensures forall i :: 0 <= i < |r| ==> exists j :: 0 <= j < |words| && |words[j]| > 0 && r[i] == words[j][0]
  {
    if |words| == 0 then ""
    else (if |words[0]| > 0 then [words[0][0]] else []) + FirstCharacters(words[1..])
  }

  /** Initials of consecutive word lists follow each other: every word contributes its
      own initial in its own place. */
  lemma {:induction false} FirstCharactersAppend(a: seq<string>, b: seq<string>)
    ensures FirstCharacters(a + b) == FirstCharacters(a) + FirstCharacters(b)
  {
    if |a| == 0 {
      assert a + b == b;
    } else {
      assert (a + b)[1..] == a[1..] + b;
      FirstCharactersAppend(a[1..], b);
    }
  }

  /** A single word contributes its first character, and an empty word nothing. */
  lemma FirstCharactersOfWord(w: string)
    ensures FirstCharacters([w]) == (if |w| > 0 then [w[0]] else [])
  {
    assert [w][1..] == [];
  }

  /** Non-empty words give exactly one initial each, in word order. */
  lemma {:induction false} FirstCharactersOfWords(words: seq<string>)
    requires forall j :: 0 <= j < |words| ==> |words[j]| > 0
    ensures |FirstCharacters(words)| == |words|
    ensures forall j :: 0 <= j < |words| ==> FirstCharacters(words)[j] == words[j][0]
  {
    if |words| > 0 {
      var rest := words[1..];
      assert forall j :: 0 <= j < |rest| ==> rest[j] == words[j + 1];
      FirstCharactersOfWords(rest);
      var r := FirstCharacters(words);
      var t := FirstCharacters(rest);
      assert r == [words[0][0]] + t;
      forall j | 0 <= j < |words|
        ensures r[j] == words[j][0]
      {
        if j > 0 {
          assert r[j] == t[j - 1];
        }
      }
    }
  }

  /** Initials never contain a blank. */
  lemma InitialsHaveNoBlank(name: string)
    ensures ' ' !in Initials(name)
  {
    var words := Split(name, ' ');
    var r := Initials(name);
    forall i | 0 <= i < |r| ensures r[i] != ' ' {
      var j :| 0 <= j < |words| && |words[j]| > 0 && r[i] == words[j][0];
      assert ' ' !in words[j];
    }
  }

  /** One remote tile: the participant, the stream it shows, whether the avatar
      placeholder is drawn over it, and the image that avatar shows. */
  datatype Tile = Tile(participant: Participant, stream: Option<RemoteStream>, placeholder: bool, avatar: string)

  function TileOf(p: Participant, remoteStreams: map<string, RemoteStream>): Tile
  {
    Tile(p, if p.id in remoteStreams then Some(remoteStreams[p.id]) else None, p.id !in remoteStreams, AvatarSource(p))
  }

  function TilesOf(ps: seq<Participant>, remoteStreams: map<string, RemoteStream>): (tiles: seq<Tile>)
    ensures |tiles| == |ps| && forall i :: 0 <= i < |ps| ==> tiles[i] == TileOf(ps[i], remoteStreams)
  {
    if |ps| == 0 then [] else [TileOf(ps[0], remoteStreams)] + TilesOf(ps[1..], remoteStreams)
  }

  /** `participants.slice(0, 3)`: the first three participants, or all when fewer. */
  function Shown(participants: seq<Participant>): (shown: seq<Participant>)
    ensures shown == participants[..if |participants| <= 3 then |participants| else 3]
  {
    if |participants| <= 3 then participants else participants[..3]
  }

  /** `participants.slice(0, 3).map(...)` with `null` for self. */
  function RemoteTiles(participants: seq<Participant>, self: string, remoteStreams: map<string, RemoteStream>): seq<Tile>
  {
    TilesOf(Others(Shown(participants), self), remoteStreams)
  }

  /** At most three tiles, none for self. They are the first three participants other
      than self, in list order, each with a tile of its own; the placeholder is shown
      exactly when the participant has no remote stream. */
  lemma RemoteTilesShape(participants: seq<Participant>, self: string, remoteStreams: map<string, RemoteStream>)
    ensures var tiles := RemoteTiles(participants, self, remoteStreams);
      && |tiles| <= 3
      && (forall i :: 0 <= i < |tiles| ==> tiles[i].participant.id != self)
      && (forall i :: 0 <= i < |tiles| ==> tiles[i].participant in Shown(participants))
      && |tiles| == |Others(Shown(participants), self)|
      && (forall i :: 0 <= i < |tiles| ==> tiles[i].participant == Others(Shown(participants), self)[i])
      && (forall j :: 0 <= j < |Shown(participants)| && Shown(participants)[j].id != self ==>
            exists i :: 0 <= i < |tiles| && tiles[i].participant == Shown(participants)[j])
      && (forall i :: 0 <= i < |tiles| ==>
            (tiles[i].placeholder <==> tiles[i].participant.id !in remoteStreams)
            && (tiles[i].stream.Some? <==> !tiles[i].placeholder))
      && (forall i :: 0 <= i < |tiles| ==>
            var avatar := tiles[i].participant.avatar;
            tiles[i].avatar == if avatar.Some? && avatar.value != "" then avatar.value else PlaceholderAvatar)
  {
    var shown := Shown(participants);
    var others := Others(shown, self);
    var tiles := RemoteTiles(participants, self, remoteStreams);
    OthersSubset(shown, self);
    forall j | 0 <= j < |shown| && shown[j].id != self
      ensures exists i :: 0 <= i < |tiles| && tiles[i].participant == shown[j]
    {
      OthersKeepsEveryOther(shown, self, shown[j]);
      assert shown[j] in multiset(shown);
      assert shown[j] in others;
      var i :| 0 <= i < |others| && others[i] == shown[j];
      assert tiles[i].participant == shown[j];
    }
  }

  class VideoCall {
    const roomId: string
    const userId: string
    const participants: seq<Participant>
    const webrtc: Manager
    /** The token of the remote-stream callback this component registers. */
    const handler: Handler
    var localStream: Option<seq<Track>>
    var remoteStreams: map<string, RemoteStream>
    var isVideoEnabled: bool
    var isAudioEnabled: bool
    /** `console.error("Failed to initialize call:", error)` calls. */
    var errors: seq<MediaError>

    ghost predicate Valid()
      reads this, webrtc, webrtc.peerConnections.Values
    {
      webrtc.Valid()
    }

    /** The first render: a fresh manager, no streams, both media flags on. */
    constructor (roomId: string, userId: string, participants: seq<Participant>, handler: Handler)
      ensures Valid() && fresh(webrtc)
      ensures this.roomId == roomId && this.userId == userId && this.participants == participants && this.handler == handler
      ensures isVideoEnabled && isAudioEnabled
      ensures localStream == None && remoteStreams == map[] && errors == []
      ensures webrtc.peerConnections == map[] && webrtc.localStream == None && webrtc.outbox == []
      ensures webrtc.onRemoteStreamCallback == None && webrtc.onUserDisconnectedCallback == None
    {
      this.roomId := roomId;
      this.userId := userId;
      this.participants := participants;
      this.handler := handler;
      webrtc := new Manager();
      localStream := None;
      remoteStreams := map[];
      isVideoEnabled := true;
      isAudioEnabled := true;
      errors := [];
    }

    /** `initializeCall`: capture with the current flags; on success keep the stream,
        register the remote-stream callback and start an initiator connection to every
        other participant, in list order. A failed capture is logged and nothing else
        happens. `offers(id)` is the offer the browser creates for the connection to `id`. */
    method InitializeCall(devices: Devices, offers: string -> Sdp) returns (ghost created: map<string, PeerConnection>)
      requires Valid()
      modifies this`localStream, this`errors
      modifies webrtc`localStream, webrtc`onRemoteStreamCallback, webrtc`peerConnections, webrtc`outbox
      ensures Valid()
      ensures var captured := GetUserMedia(CaptureConstraints(old(isVideoEnabled), old(isAudioEnabled)), devices);
        captured.Err? ==>
          && errors == old(errors) + [captured.error]
          && localStream == old(localStream) && webrtc.localStream == old(webrtc.localStream)
          && webrtc.peerConnections == old(webrtc.peerConnections)
          && webrtc.onRemoteStreamCallback == old(webrtc.onRemoteStreamCallback)
          && webrtc.outbox == old(webrtc.outbox)
      ensures var captured := GetUserMedia(CaptureConstraints(old(isVideoEnabled), old(isAudioEnabled)), devices);
        captured.Ok? ==>
          && errors == old(errors)
          && localStream == webrtc.localStream
          && webrtc.localStream.Some? && KindsOf(webrtc.localStream.value) == captured.value
          && webrtc.onRemoteStreamCallback == Some(handler)
      ensures var captured := GetUserMedia(CaptureConstraints(old(isVideoEnabled), old(isAudioEnabled)), devices);
        captured.Ok? ==>
          && webrtc.outbox == old(webrtc.outbox) + OffersTo(Others(participants, userId), offers)
          && webrtc.peerConnections == old(webrtc.peerConnections) + created
          && (forall u :: u in created <==> HasId(Others(participants, userId), u))
          && (forall u :: u in created ==> created[u].tracks == webrtc.StreamTracks() && created[u].localDescription == Some(OfferDescription(offers(u))))
    {
      created := map[];
      var stream := webrtc.InitializeLocalStream(isVideoEnabled, isAudioEnabled, devices);
      if stream.Err? {
        errors := errors + [stream.error];
        return;
      }
      localStream := Some(stream.value);
      webrtc.OnRemoteStream(handler);
      created := ConnectToOthers(offers);
    }

    /** `participants.forEach`: an initiator connection to every participant but self,
        in list order, each sending its offer. */
    method ConnectToOthers(offers: string -> Sdp) returns (ghost created: map<string, PeerConnection>)
      requires Valid()
      modifies webrtc`peerConnections, webrtc`outbox
      ensures Valid()
      ensures webrtc.outbox == old(webrtc.outbox) + OffersTo(Others(participants, userId), offers)
      ensures webrtc.peerConnections == old(webrtc.peerConnections) + created
      ensures forall u :: u in created <==> HasId(Others(participants, userId), u)
      ensures forall u :: u in created ==> created[u].tracks == webrtc.StreamTracks() && created[u].localDescription == Some(OfferDescription(offers(u)))
    {
      ghost var done: seq<Participant> := [];
      created := map[];
      for i := 0 to |participants|
        invariant done == Others(participants[..i], userId)
        invariant webrtc.Valid()
        invariant webrtc.outbox == old(webrtc.outbox) + OffersTo(done, offers)
        invariant webrtc.peerConnections == old(webrtc.peerConnections) + created
        invariant forall u :: u in created <==> HasId(done, u)
        invariant forall u :: u in created ==> created[u].tracks == webrtc.StreamTracks() && created[u].localDescription == Some(OfferDescription(offers(u)))
      {
        var p := participants[i];
        OthersStep(participants, i, userId);
        if p.id != userId {
          ghost var sent := webrtc.outbox;
          var pc := webrtc.CreatePeerConnection(p.id, true, offers(p.id));
          OffersToStep(done, p, offers);
          AppendAssociates(old(webrtc.outbox), OffersTo(done, offers), [Outgoing(p.id, OfferMessage(offers(p.id)))]);
          MergeUpdate(old(webrtc.peerConnections), created, p.id, pc);
          created := created[p.id := pc];
          done := done + [p];
        }
      }
      assert participants[..|participants|] == participants;
    }

    /** `toggleVideo`: store the negated flag and pass that same value to the manager. */
    method ToggleVideo()
      modifies this`isVideoEnabled, webrtc.LocalTracks()
      ensures isVideoEnabled == !old(isVideoEnabled) && isAudioEnabled == old(isAudioEnabled)
      ensures var ls := webrtc.localStream;
        ls.Some? && FirstOfKind(ls.value, Video).Some? ==> ls.value[FirstOfKind(ls.value, Video).value].enabled == isVideoEnabled
      ensures forall t :: t in old(webrtc.LocalTracks()) && !webrtc.IsFirstOfKind(t, Video) ==> t.enabled == old(t.enabled)
      ensures forall t :: t in old(webrtc.LocalTracks()) ==> t.stopped == old(t.stopped)
    {
      var newState := !isVideoEnabled;
      isVideoEnabled := newState;
      webrtc.ToggleVideo(newState);
    }

    /** `toggleAudio`: store the negated flag and pass that same value to the manager. */
    method ToggleAudio()
      modifies this`isAudioEnabled, webrtc.LocalTracks()
      ensures isAudioEnabled == !old(isAudioEnabled) && isVideoEnabled == old(isVideoEnabled)
      ensures var ls := webrtc.localStream;
        ls.Some? && FirstOfKind(ls.value, Audio).Some? ==> ls.value[FirstOfKind(ls.value, Audio).value].enabled == isAudioEnabled
      ensures forall t :: t in old(webrtc.LocalTracks()) && !webrtc.IsFirstOfKind(t, Audio) ==> t.enabled == old(t.enabled)
      ensures forall t :: t in old(webrtc.LocalTracks()) ==> t.stopped == old(t.stopped)
    {
      var newState := !isAudioEnabled;
      isAudioEnabled := newState;
      webrtc.ToggleAudio(newState);
    }

    /** A track event on one of the manager's connections. The manager runs its
        `ontrack` handler; when this component's callback is the registered one, the
        callback overwrites the user's entry in `remoteStreams`. */
    method DeliverRemoteTrack(pc: PeerConnection, stream: RemoteStream)
      modifies this`remoteStreams, webrtc`remoteStreams, webrtc`fired
      ensures webrtc.remoteStreams == old(webrtc.remoteStreams)[pc.userId := stream]
      ensures webrtc.fired == old(webrtc.fired) + RemoteStreamFiring(webrtc.onRemoteStreamCallback, pc.userId, stream)
      ensures remoteStreams == if webrtc.onRemoteStreamCallback == Some(handler)
        then old(remoteStreams)[pc.userId := stream] else old(remoteStreams)
    {
      webrtc.OnTrack(pc, stream);
      if webrtc.onRemoteStreamCallback == Some(handler) {
        remoteStreams := remoteStreams[pc.userId := stream];
      }
    }

    /** The effect's cleanup on unmount: always `webrtc.cleanup()`. */
    method Unmount()
      requires Valid()
      modifies webrtc, webrtc.peerConnections.Values, webrtc.LocalTracks()
      ensures Valid()
      ensures forall pc :: pc in old(webrtc.peerConnections.Values) ==> pc.closed
      ensures forall pc :: pc in old(webrtc.peerConnections.Values) ==>
        && pc.localDescription == old(pc.localDescription) && pc.remoteDescription == old(pc.remoteDescription)
        && pc.candidates == old(pc.candidates) && pc.tracks == old(pc.tracks)
      ensures webrtc.peerConnections == map[] && webrtc.remoteStreams == map[]
      ensures forall t :: t in old(webrtc.LocalTracks()) ==> t.stopped && t.enabled == old(t.enabled)
      ensures webrtc.localStream == old(webrtc.localStream)
      ensures webrtc.fired == old(webrtc.fired) && webrtc.outbox == old(webrtc.outbox)
      ensures webrtc.onRemoteStreamCallback == old(webrtc.onRemoteStreamCallback)
      ensures webrtc.onUserDisconnectedCallback == old(webrtc.onUserDisconnectedCallback)
    {
      webrtc.Cleanup();
    }

    /** The remote tiles of the current render. */
    function Tiles(): seq<Tile>
      reads this
    {
      RemoteTiles(participants, userId, remoteStreams)
    }
  }
}
