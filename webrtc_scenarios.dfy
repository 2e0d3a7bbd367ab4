/** Whole sessions of `WebRTCManager` (lib/webrtc.ts), run on the model: each method
    builds its own managers and states, as its postcondition, what the session ends in. */
module WebRTCScenarios {
  import opened Wrappers
  import opened WebRTC

  const Granted := Devices(true, true, true)

  /** The initiator's offer reaches the responder, whose answer comes back: both sides
      end with the offer and the answer the right way round. */
  method OfferAnswerExchange() returns (initiator: PeerConnection, responder: PeerConnection)
    ensures initiator.localDescription == Some(OfferDescription("offer-sdp"))
    ensures initiator.remoteDescription == Some(AnswerDescription("answer-sdp"))
    ensures responder.remoteDescription == Some(OfferDescription("offer-sdp"))
    ensures responder.localDescription == Some(AnswerDescription("answer-sdp"))
  {
    var alice := new Manager();
    var bob := new Manager();
    initiator := alice.CreatePeerConnection("bob", true, "offer-sdp");
    responder := bob.CreatePeerConnection("alice", false, "");
    var offer := alice.outbox[0];
    var applied := bob.HandleSignalingMessage("alice", offer.message, "answer-sdp", true);
    var answer := bob.outbox[0];
    applied := alice.HandleSignalingMessage("bob", answer.message, "", true);
  }

  /** A message from a user without a connection is dropped: no connection is made
      for it and nothing is sent. */
  method MessageFromUnknownPeer() returns (outcome: SignalOutcome, sent: seq<Outgoing>, table: map<string, PeerConnection>)
    ensures outcome == NoConnection && sent == [] && table == map[]
  {
    var m := new Manager();
    outcome := m.HandleSignalingMessage("stranger", OfferMessage("offer-sdp"), "answer-sdp", true);
    sent := m.outbox;
    table := m.peerConnections;
  }

  /** A second connection for the same user replaces the first without closing it; a
      later failure of the first, stale connection closes and drops the second. */
  method StaleFailureClosesReplacement() returns (stale: PeerConnection, current: PeerConnection, table: map<string, PeerConnection>)
    ensures stale != current
    ensures !stale.closed && current.closed
    ensures table == map[]
  {
    var m := new Manager();
    stale := m.CreatePeerConnection("peer", true, "offer-1");
    current := m.CreatePeerConnection("peer", true, "offer-2");
    m.OnConnectionStateChange(stale, Failed);
    table := m.peerConnections;
  }

  /** An audio-only call captures a single audio track, and a connection gets no video. */
  method AudioOnlyCall() returns (tracks: seq<Track>)
    ensures |tracks| == 1 && tracks[0].kind == Audio
  {
    var m := new Manager();
    var captured := m.InitializeLocalStream(false, true, Granted);
    assert captured == Ok(m.localStream.value) && KindsOf(captured.value) == [Audio];
    var pc := m.CreatePeerConnection("peer", true, "offer-sdp");
    tracks := pc.tracks;
  }

  /** Capturing again replaces the local stream but leaves the tracks of the first
      capture live. */
  method RecaptureKeepsOldTracksLive() returns (first: seq<Track>, second: seq<Track>)
    ensures |first| == 2 && |second| == 2
    ensures forall i :: 0 <= i < |first| ==> !first[i].stopped && first[i] !in second
  {
    var m := new Manager();
    var r := m.InitializeLocalStream(true, true, Granted);
    first := r.value;
    r := m.InitializeLocalStream(true, true, Granted);
    second := r.value;
  }

  /** Turning video off mutes the one video track that every connection carries. */
  method VideoOffMutesEveryConnection() returns (toA: seq<Track>, toB: seq<Track>)
    ensures |toA| == 2 && toA == toB
    ensures toA[1].kind == Video && !toA[1].enabled
    ensures toA[0].kind == Audio && toA[0].enabled
  {
    var m := new Manager();
    var r := m.InitializeLocalStream(true, true, Granted);
    assert KindsOf(r.value) == [Audio, Video];
    var a := m.CreatePeerConnection("a", true, "offer-a");
    var b := m.CreatePeerConnection("b", true, "offer-b");
    m.ToggleVideo(false);
    assert FirstOfKind(r.value, Video) == Some(1);
    toA := a.tracks;
    toB := b.tracks;
  }

  /** Cleaning up twice is harmless: the connection stays closed, the tables empty and
      the tracks stopped. */
  method CleanupTwice() returns (pc: PeerConnection, tracks: seq<Track>, table: map<string, PeerConnection>)
    ensures pc.closed && table == map[]
    ensures |tracks| == 2 && forall i :: 0 <= i < |tracks| ==> tracks[i].stopped
  {
    var m := new Manager();
    var r := m.InitializeLocalStream(true, true, Granted);
    tracks := r.value;
    pc := m.CreatePeerConnection("peer", true, "offer-sdp");
    assert pc == m.peerConnections["peer"];
    m.Cleanup();
    m.Cleanup();
    table := m.peerConnections;
  }
}
