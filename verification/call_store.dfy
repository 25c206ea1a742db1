/**
  The client-side call store: the incoming call and the FIFO queue of calls
  that arrived during a call, the per-sender buffer of ICE candidates that
  arrive before a peer connection exists, the answer validation, and the
  reset when a call ends.

  The browser's peer connection is abstracted to a `Peer` value (its
  signalling and connection states, the remote description it holds and the
  candidates added to it). What the store reads from the auth store (is
  there a socket, who is signed in) is the argument `auth`; the socket
  messages a step sends are returned in order.

  Each operation has a specification function `...Step` from the old state
  to the new state, the success flag and the messages sent; the class's
  methods do the work step by step and are proved to agree with it.
 */
module ClientCalls {
  import opened Common

  datatype SignalingState = Stable | HaveLocalOffer | HaveRemoteOffer | HaveLocalPranswer | HaveRemotePranswer | SignalingClosed
  datatype ConnectionState = New | Connecting | Connected | Disconnected | Failed | ConnectionClosed

  /** A candidate as stored and applied: `candidate` is `None` when the
      source object had no such property (undefined). */
  datatype IceCandidate = IceCandidate(candidate: Option<Json>, sdpMid: Json, sdpMLineIndex: Json)

  datatype Peer = Peer(
    signalingState: SignalingState,
    connectionState: ConnectionState,
    remoteDescription: Option<Json>,
    appliedCandidates: seq<IceCandidate>)

  /** A peer connection just constructed. */
  function NewPeer(): Peer
  {
    Peer(Stable, New, None, [])
  }

  datatype IncomingCall = IncomingCall(offer: Json, from: UserId, callerName: string, callSessionId: string, timestamp: int)
  datatype QueuedCall = QueuedCall(offer: Json, from: UserId, callSessionId: string)
  datatype CallData = CallData(offer: Json, from: UserId, callSessionId: string)
  datatype ChatUser = ChatUser(id: UserId, fullName: string)

  /** What the store reads from the auth store. */
  datatype AuthState = AuthState(hasSocket: bool, authUser: Option<UserId>)

  /** Messages the client sends on its socket. */
  datatype Outgoing =
    | SendCallRejected(to: UserId, from: UserId, rejectedSessionId: Option<string>, reason: string)
    | SendCallAnswer(answer: Json, to: UserId, from: UserId, callSessionId: string)
    | SendEndCall(callSessionId: string, from: UserId, endReason: Option<string>)
    | SendCallOffer(offer: Json, from: UserId, callSessionId: string)

  const BUSY_REJECT_REASON := "User is busy in another call"
  const ACCEPTED_OTHER_REASON := "User accepted another call"
  const REJECTED_REASON := "Call was rejected by the user"
  const SWITCH_REASON := "Switching to another call"
  /** Estimated seconds of waiting per call ahead in the queue. */
  const QUEUE_WAIT_SECONDS := 30

  /** The store's fields; "" stands for a null id, 0 for a null start time,
      `false` for a null media stream. */
  datatype StoreState = StoreState(
    isCallActive: bool,
    isCallIncoming: bool,
    callSessionId: string,
    peerConnection: Option<Peer>,
    localStream: bool,
    remoteStream: bool,
    caller: UserId,
    receiver: UserId,
    incomingCall: Option<IncomingCall>,
    incomingCallsQueue: seq<QueuedCall>,
    activeCallStartTime: int,
    earlyIceCandidates: map<UserId, seq<IceCandidate>>)

  /** The outcome of one store operation. */
  datatype Step = Step(state: StoreState, ok: bool, out: seq<Outgoing>)

  // ---------------------------------------------------------------------
  // Pure parts of the store

  predicate HasSdpAndType(j: Json)
  {
    HasTruthy(j, "sdp") && HasTruthy(j, "type")
  }

  /** The validation at the top of `setIncomingCall`. */
  predicate ValidCallData(d: Option<CallData>)
  {
    && d.Some?
    && Truthy(d.value.offer) && d.value.from != "" && d.value.callSessionId != ""
    && HasSdpAndType(d.value.offer)
  }

  /** `{sdp: j.sdp, type: j.type}`. */
  function SdpProjection(j: Json): (r: Json)
    ensures r.Obj? && r.fields.Keys == {"sdp", "type"}
    ensures HasSdpAndType(j) ==> HasSdpAndType(r) && r.fields["sdp"] == j.fields["sdp"] && r.fields["type"] == j.fields["type"]
  {
    Obj(map["sdp" := FieldOrNull(j, "sdp"), "type" := FieldOrNull(j, "type")])
  }

  /** The display name of the caller: the full name of the first known user
      with that id, else the id itself. */
  function CallerName(users: seq<ChatUser>, from: UserId): (r: string)
    ensures (forall i :: 0 <= i < |users| ==> users[i].id != from) ==> r == from
    ensures forall i :: (0 <= i < |users| && users[i].id == from &&
              (forall j :: 0 <= j < i ==> users[j].id != from)) ==> r == users[i].fullName
  {
    if users == [] then from
    else if users[0].id == from then users[0].fullName
    else CallerName(users[1..], from)
  }

  /** The incoming-call check: busy while an active call's peer is connected. */
  predicate BusyInCall(s: StoreState)
  {
    s.isCallActive && s.peerConnection.Some? && s.peerConnection.value.connectionState == Connected
  }

  /** `queue.filter(call => call.callSessionId !== s)`. */
  function WithoutQueued(queue: seq<QueuedCall>, s: string): (r: seq<QueuedCall>)
    ensures |r| <= |queue|
    ensures forall c :: c in r <==> c in queue && c.callSessionId != s
  {
    if queue == [] then []
    else if queue[0].callSessionId == s then WithoutQueued(queue[1..], s)
    else [queue[0]] + WithoutQueued(queue[1..], s)
  }

  /** `queue.find(call => call.callSessionId === s)`. */
  function FindQueued(queue: seq<QueuedCall>, s: string): (r: Option<QueuedCall>)
    ensures r.Some? ==> r.value in queue && r.value.callSessionId == s
    ensures r.None? ==> forall c :: c in queue ==> c.callSessionId != s
  {
    if queue == [] then None
    else if queue[0].callSessionId == s then Some(queue[0])
    else FindQueued(queue[1..], s)
  }

  /** `queue.findIndex(call => call.callSessionId === s)`, -1 read as None. */
  function QueueIndex(queue: seq<QueuedCall>, s: string): (r: Option<nat>)
    ensures r.Some? ==> r.value < |queue| && queue[r.value].callSessionId == s
    ensures r.Some? ==> forall j :: 0 <= j < r.value ==> queue[j].callSessionId != s
    ensures r.None? ==> forall j :: 0 <= j < |queue| ==> queue[j].callSessionId != s
  {
    if queue == [] then None
    else if queue[0].callSessionId == s then Some(0)
    else match QueueIndex(queue[1..], s)
      case None => None
      case Some(k) => Some(k + 1)
  }

  /** The rejections `acceptCall` sends: one per queued call of another
      session, in queue order, without a session id. */
  function Rejections(queue: seq<QueuedCall>, accepted: string, me: UserId): seq<Outgoing>
  {
    if queue == [] then []
    else
      var last := queue[|queue| - 1];
      Rejections(queue[..|queue| - 1], accepted, me)
        + (if last.callSessionId != accepted then [SendCallRejected(last.from, me, None, ACCEPTED_OTHER_REASON)] else [])
  }

  /** An answer object in one of the three shapes: itself, its `.answer`,
      or its `.signalData`, whichever first carries `sdp` and `type`. */
  function AnswerShape(a: Json): Option<Json>
  {
    if HasSdpAndType(a) then Some(a)
    else if HasSdpAndType(FieldOrNull(a, "answer")) then Some(FieldOrNull(a, "answer"))
    else if HasSdpAndType(FieldOrNull(a, "signalData")) then Some(FieldOrNull(a, "signalData"))
    else None
  }

  /** The answer description `handleCallAnswer` uses. A string answer is
      read through `parsed`, the result of parsing it (`None` when parsing
      fails); a number or boolean is refused. */
  function SelectAnswer(answer: Json, parsed: Option<Json>): Option<Json>
  {
    if IsObjectLike(answer) then AnswerShape(answer)
    else if answer.Str? then
      match parsed
      case None => None
      case Some(p) => AnswerShape(p)
    else None
  }

  /** The stored form of a candidate: a falsy `sdpMid` becomes null, an
      undefined `sdpMLineIndex` becomes null and any other value, 0 and
      null included, is kept. */
  function NormalizeCandidate(c: Json): (r: IceCandidate)
    ensures r.candidate == Field(c, "candidate")
    ensures Truthy(r.sdpMid) ==> Field(c, "sdpMid") == Some(r.sdpMid)
    ensures !Truthy(r.sdpMid) ==> r.sdpMid == Null
    ensures HasTruthy(c, "sdpMid") ==> Truthy(r.sdpMid)
    ensures Field(c, "sdpMLineIndex").Some? ==> r.sdpMLineIndex == Field(c, "sdpMLineIndex").value
    ensures Field(c, "sdpMLineIndex").None? ==> r.sdpMLineIndex == Null
  {
    IceCandidate(
      Field(c, "candidate"),
      if HasTruthy(c, "sdpMid") then Field(c, "sdpMid").value else Null,
      match Field(c, "sdpMLineIndex") case Some(v) => v case None => Null)
  }

  /** `earlyIceCandidates[from] || []`. */
  function Pending(early: map<UserId, seq<IceCandidate>>, from: UserId): seq<IceCandidate>
  {
    if from in early then early[from] else []
  }

  /** The candidate checks of `handleIceCandidate`: a non-null object with
      a truthy `candidate`. */
  predicate AcceptableCandidate(c: Json)
  {
    Truthy(c) && IsObjectLike(c) && HasTruthy(c, "candidate")
  }

  /** The candidate added to a peer. */
  function AddCandidate(p: Peer, c: IceCandidate): Peer
  {
    p.(appliedCandidates := p.appliedCandidates + [c])
  }

  // ---------------------------------------------------------------------
  // Specifications of the store operations

  /** In the busy branch with a socket and a user, the rejection is sent
      and then `toast.info` is called; the toast library has no such method,
      so the call throws and the handler's catch returns false. */
  function SetIncomingCallStep(s: StoreState, d: Option<CallData>, auth: AuthState, users: seq<ChatUser>, now: int): Step
  {
    if !ValidCallData(d) then Step(s, false, [])
    else if BusyInCall(s) then
      if auth.hasSocket && auth.authUser.Some?
      then Step(s, false, [SendCallRejected(d.value.from, auth.authUser.value, Some(d.value.callSessionId), BUSY_REJECT_REASON)])
      else Step(s, true, [])
    else
      var call := IncomingCall(SdpProjection(d.value.offer), d.value.from, CallerName(users, d.value.from), d.value.callSessionId, now);
      Step(s.(incomingCall := Some(call), isCallIncoming := true), true, [])
  }

  function RemoveIncomingCallState(s: StoreState, sid: string): StoreState
  {
    s.(incomingCallsQueue := WithoutQueued(s.incomingCallsQueue, sid),
       incomingCall := if s.incomingCall.Some? && s.incomingCall.value.callSessionId == sid then None else s.incomingCall)
  }

  function ClearIncomingCallsState(s: StoreState): StoreState
  {
    s.(incomingCallsQueue := [], incomingCall := None)
  }

  function ApplyStoredStep(s: StoreState, from: UserId): Step
  {
    if s.peerConnection.None? then Step(s, false, [])
    else if |Pending(s.earlyIceCandidates, from)| == 0 then Step(s, true, [])
    else
      var p := s.peerConnection.value;
      Step(s.(peerConnection := Some(p.(appliedCandidates := p.appliedCandidates + Pending(s.earlyIceCandidates, from))),
              earlyIceCandidates := s.earlyIceCandidates - {from}),
           true, [])
  }

  function AcceptCallStep(s: StoreState, offer: Json, from: UserId, sid: string, auth: AuthState, setup: Option<Json>): Step
  {
    if !auth.hasSocket || auth.authUser.None? then Step(s, false, [])
    else
      var me := auth.authUser.value;
      var rejected := Rejections(s.incomingCallsQueue, sid, me);
      var cleared := ClearIncomingCallsState(s);
      if !ValidOffer(offer) || setup.None? then Step(cleared, false, rejected)
      else
        Step(ApplyStoredStep(AnsweredState(cleared, offer, from, sid, me), from).state, true,
             rejected + [SendCallAnswer(SdpProjection(setup.value), from, me, sid)])
  }

  /** The offer checks of `acceptCall`. */
  predicate ValidOffer(offer: Json)
  {
    Truthy(offer) && IsObjectLike(offer) && HasSdpAndType(offer)
  }

  /** The store once the callee has answered: in the call, as receiver. */
  function AnsweredState(s: StoreState, offer: Json, from: UserId, sid: string, me: UserId): StoreState
  {
    s.(isCallActive := true, isCallIncoming := false,
       peerConnection := Some(NewPeer().(remoteDescription := Some(offer))),
       localStream := true, receiver := me, caller := from, callSessionId := sid)
  }

  /** The call `rejectCall` refuses: the queued call of that session, or the
      incoming call when no session is named. */
  function RejectTarget(s: StoreState, sid: string): Option<QueuedCall>
  {
    if sid != "" then FindQueued(s.incomingCallsQueue, sid)
    else match s.incomingCall
      case Some(c) => Some(QueuedCall(c.offer, c.from, c.callSessionId))
      case None => None
  }

  function RejectCallStep(s: StoreState, sid: string, auth: AuthState): Step
  {
    var target := RejectTarget(s, sid);
    var out := if target.Some? && auth.hasSocket && auth.authUser.Some?
               then [SendCallRejected(target.value.from, auth.authUser.value, Some(target.value.callSessionId), REJECTED_REASON)]
               else [];
    Step(if sid != "" then RemoveIncomingCallState(s, sid) else s.(incomingCall := None), true, out)
  }

  function HandleCallAnswerStep(s: StoreState, answer: Json, parsed: Option<Json>, sid: string, now: int): Step
  {
    if s.peerConnection.None? then Step(s, false, [])
    else if sid != "" && s.callSessionId != "" && sid != s.callSessionId then Step(s, false, [])
    else if s.peerConnection.value.signalingState == SignalingClosed then Step(s, false, [])
    else if !Truthy(answer) then Step(s, false, [])
    else match SelectAnswer(answer, parsed)
      case None => Step(s, false, [])
      case Some(desc) =>
        if s.peerConnection.value.signalingState != HaveLocalOffer then Step(s, false, [])
        else
          var p := s.peerConnection.value;
          Step(s.(peerConnection := Some(p.(signalingState := Stable, remoteDescription := Some(desc))),
                  activeCallStartTime := now),
               true, [])
  }

  function StoreEarlyStep(s: StoreState, candidate: Json, from: UserId): Step
  {
    if candidate == Null then Step(s, false, [])
    else
      Step(s.(earlyIceCandidates := s.earlyIceCandidates[from := Pending(s.earlyIceCandidates, from) + [NormalizeCandidate(candidate)]]),
           true, [])
  }

  function HandleIceStep(s: StoreState, candidate: Json, from: UserId, sid: string): Step
  {
    if s.peerConnection.None? && s.incomingCall.Some? && s.incomingCall.value.from == from then
      var created := s.(peerConnection := Some(NewPeer()), callSessionId := s.incomingCall.value.callSessionId);
      if !AcceptableCandidate(candidate) then Step(created, false, [])
      else Step(created.(peerConnection := Some(AddCandidate(NewPeer(), NormalizeCandidate(candidate)))), true, [])
    else if s.peerConnection.None? then
      Step(StoreEarlyStep(s, candidate, from).state, true, [])
    else
      var effective := if sid != "" then sid else s.callSessionId;
      if effective != "" && s.callSessionId != "" && effective != s.callSessionId then Step(s, false, [])
      else if !AcceptableCandidate(candidate) then Step(s, false, [])
      else Step(s.(peerConnection := Some(AddCandidate(s.peerConnection.value, NormalizeCandidate(candidate)))), true, [])
  }

  function EndCallStep(s: StoreState, auth: AuthState): Step
  {
    if s.callSessionId == "" then Step(s, true, [])
    else
      var ended := s.(isCallActive := false, isCallIncoming := false, callSessionId := "", peerConnection := None,
                      localStream := false, remoteStream := false, caller := "", receiver := "");
      Step(ended, true,
           if auth.hasSocket then [SendEndCall(s.callSessionId, if s.caller != "" then s.caller else s.receiver, None)] else [])
  }

  function SetQueueStep(s: StoreState, newQueue: seq<QueuedCall>): Step
  {
    Step(s.(incomingCallsQueue := newQueue), |newQueue| > |s.incomingCallsQueue|, [])
  }

  /** The local part of switching: the current call is dropped without
      touching the incoming flag, the queue or the buffered candidates. */
  function SwitchResetState(s: StoreState): StoreState
  {
    s.(isCallActive := false, peerConnection := None, localStream := false, remoteStream := false,
       callSessionId := "", caller := "", receiver := "")
  }

  function SwitchStep(s: StoreState, q: QueuedCall, auth: AuthState, setup: Option<Json>, now: int): Step
  {
    var ending := s.isCallActive && s.peerConnection.Some?;
    if ending && auth.hasSocket && auth.authUser.None? then Step(s, false, [])
    else
      var notice := if ending && auth.hasSocket
                    then [SendEndCall(s.callSessionId, auth.authUser.value, Some(SWITCH_REASON))] else [];
      var reset := if ending then SwitchResetState(s) else s;
      var accepted := AcceptCallStep(reset, q.offer, q.from, q.callSessionId, auth, setup);
      if accepted.ok then
        Step(RemoveIncomingCallState(accepted.state, q.callSessionId).(activeCallStartTime := now), true, notice + accepted.out)
      else Step(accepted.state, false, notice + accepted.out)
  }

  // ---------------------------------------------------------------------
  // Properties of the store operations

  /** setIncomingCall: malformed call data is refused without effect; while
      a connected call is active the new call is refused with a busy
      rejection naming its session and the store is left as it was (the
      result is false whenever that rejection is sent, since the notice
      after it throws); otherwise it becomes the incoming call and nothing
      else changes. */
  lemma SetIncomingCallOutcome(s: StoreState, d: Option<CallData>, auth: AuthState, users: seq<ChatUser>, now: int)
    ensures var r := SetIncomingCallStep(s, d, auth, users, now);
      && (r.ok <==> ValidCallData(d) && !(BusyInCall(s) && auth.hasSocket && auth.authUser.Some?))
      && (!ValidCallData(d) ==> r.state == s && r.out == [])
      && (ValidCallData(d) && BusyInCall(s) ==>
            r.state == s &&
            (|r.out| == 1 <==> auth.hasSocket && auth.authUser.Some?) &&
            (forall m :: m in r.out ==> m.SendCallRejected? && m.to == d.value.from &&
                                        m.rejectedSessionId == Some(d.value.callSessionId) && m.reason == BUSY_REJECT_REASON))
      && (ValidCallData(d) && !BusyInCall(s) ==>
            r.out == [] && r.state.isCallIncoming &&
            r.state.incomingCall.Some? && r.state.incomingCall.value.from == d.value.from &&
            r.state.incomingCall.value.callSessionId == d.value.callSessionId &&
            HasSdpAndType(r.state.incomingCall.value.offer) &&
            r.state.incomingCallsQueue == s.incomingCallsQueue && r.state.isCallActive == s.isCallActive &&
            r.state.peerConnection == s.peerConnection)
  {
  }

  /** Filtering the queue distributes over concatenation, so the calls that
      stay keep their relative order. */
  lemma {:induction false} WithoutQueuedAppend(q1: seq<QueuedCall>, q2: seq<QueuedCall>, sid: string)
    ensures WithoutQueued(q1 + q2, sid) == WithoutQueued(q1, sid) + WithoutQueued(q2, sid)
  {
    if q1 == [] {
      assert q1 + q2 == q2;
    } else {
      assert (q1 + q2)[0] == q1[0];
      assert (q1 + q2)[1..] == q1[1..] + q2;
      WithoutQueuedAppend(q1[1..], q2, sid);
    }
  }

  /** removeIncomingCall drops exactly the calls of that session from the
      queue, and the incoming call only when it is of that session. */
  lemma RemoveIncomingCallExact(s: StoreState, sid: string)
    ensures var t := RemoveIncomingCallState(s, sid);
      && (forall c :: c in t.incomingCallsQueue <==> c in s.incomingCallsQueue && c.callSessionId != sid)
      && (t.incomingCall.None? <==> s.incomingCall.None? || s.incomingCall.value.callSessionId == sid)
      && t.isCallActive == s.isCallActive && t.peerConnection == s.peerConnection
      && t.earlyIceCandidates == s.earlyIceCandidates
  {
  }

  /** The refusals acceptCall sends: each goes from the callee to the caller
      of a queued call of another session, without a session id; every such
      queued call gets one, and there are as many as such calls. */
  lemma {:induction false} RejectionsExact(q: seq<QueuedCall>, sid: string, me: UserId)
    ensures |Rejections(q, sid, me)| == |WithoutQueued(q, sid)|
    ensures forall m :: m in Rejections(q, sid, me) ==>
      m.SendCallRejected? && m.from == me && m.rejectedSessionId.None? && m.reason == ACCEPTED_OTHER_REASON &&
      exists c :: c in q && c.callSessionId != sid && c.from == m.to
    ensures forall c :: c in q && c.callSessionId != sid ==>
      SendCallRejected(c.from, me, None, ACCEPTED_OTHER_REASON) in Rejections(q, sid, me)
    decreases |q|
  {
    if q != [] {
      var init, last := q[..|q| - 1], q[|q| - 1];
      assert q == init + [last];
      RejectionsExact(init, sid, me);
      WithoutQueuedAppend(init, [last], sid);
      forall c | c in q && c.callSessionId != sid
        ensures SendCallRejected(c.from, me, None, ACCEPTED_OTHER_REASON) in Rejections(q, sid, me)
      {
        if c != last {
          assert c in init;
        }
      }
      forall m | m in Rejections(q, sid, me)
        ensures exists c :: c in q && c.callSessionId != sid && c.from == m.to
      {
        if m in Rejections(init, sid, me) {
          var c :| c in init && c.callSessionId != sid && c.from == m.to;
          assert c in q;
        } else {
          assert last in q;
        }
      }
    }
  }

  /** acceptCall: signed in, it always empties the queue and the incoming
      call, whatever happens next; it succeeds exactly when the offer is
      valid and the answer could be produced, and then the store is in the
      call as receiver of that session, and the last message is the answer
      to the caller. */
  lemma AcceptCallOutcome(s: StoreState, offer: Json, from: UserId, sid: string, auth: AuthState, setup: Option<Json>)
    ensures var r := AcceptCallStep(s, offer, from, sid, auth, setup);
      && (r.ok <==> auth.hasSocket && auth.authUser.Some? && ValidOffer(offer) && setup.Some?)
      && (!(auth.hasSocket && auth.authUser.Some?) ==> r.state == s && r.out == [])
      && (auth.hasSocket && auth.authUser.Some? ==>
            r.state.incomingCallsQueue == [] && r.state.incomingCall.None? &&
            r.out[..|Rejections(s.incomingCallsQueue, sid, auth.authUser.value)|] == Rejections(s.incomingCallsQueue, sid, auth.authUser.value))
      && (r.ok ==>
            r.state.isCallActive && !r.state.isCallIncoming && r.state.callSessionId == sid &&
            r.state.caller == from && r.state.receiver == auth.authUser.value &&
            r.state.peerConnection.Some? && r.state.peerConnection.value.remoteDescription == Some(offer) &&
            r.out[|r.out| - 1] == SendCallAnswer(SdpProjection(setup.value), from, auth.authUser.value, sid))
  {
    if auth.hasSocket && auth.authUser.Some? {
      var rej := Rejections(s.incomingCallsQueue, sid, auth.authUser.value);
      var r := AcceptCallStep(s, offer, from, sid, auth, setup);
      assert r.out[..|rej|] == rej;
    }
  }

  /** Candidates that arrived before the call was accepted are applied to
      the new peer connection in arrival order, and the buffer for that
      caller is gone; other callers' buffers are kept. */
  lemma AcceptCallReplaysBuffer(s: StoreState, offer: Json, from: UserId, sid: string, auth: AuthState, setup: Option<Json>)
    requires AcceptCallStep(s, offer, from, sid, auth, setup).ok
    ensures var t := AcceptCallStep(s, offer, from, sid, auth, setup).state;
      && t.peerConnection.value.appliedCandidates == Pending(s.earlyIceCandidates, from)
      && Pending(t.earlyIceCandidates, from) == []
      && forall u :: u != from ==> Pending(t.earlyIceCandidates, u) == Pending(s.earlyIceCandidates, u)
  {
  }

  /** rejectCall always succeeds; it sends one refusal, to the caller of the
      refused call and naming its session, exactly when there is such a call
      and the user is signed in; afterwards that call is neither queued nor
      incoming. */
  lemma RejectCallOutcome(s: StoreState, sid: string, auth: AuthState)
    ensures var r := RejectCallStep(s, sid, auth);
      && r.ok
      && (|r.out| == 1 <==> RejectTarget(s, sid).Some? && auth.hasSocket && auth.authUser.Some?)
      && (forall m :: m in r.out ==> m == SendCallRejected(RejectTarget(s, sid).value.from, auth.authUser.value,
                                                      Some(RejectTarget(s, sid).value.callSessionId), REJECTED_REASON))
      && (sid != "" ==> forall c :: c in r.state.incomingCallsQueue ==> c.callSessionId != sid)
      && (sid == "" ==> r.state.incomingCall.None? && r.state.incomingCallsQueue == s.incomingCallsQueue)
  {
  }

  /** The answer formats: whatever is selected carries `sdp` and `type`; a
      complete description is taken as it is before its nested forms; a
      string is read through its parse; numbers and booleans never pass. */
  lemma SelectAnswerShapes(answer: Json, parsed: Option<Json>)
    ensures SelectAnswer(answer, parsed).Some? ==> HasSdpAndType(SelectAnswer(answer, parsed).value)
    ensures IsObjectLike(answer) && HasSdpAndType(answer) ==> SelectAnswer(answer, parsed) == Some(answer)
    ensures IsObjectLike(answer) && !HasSdpAndType(answer) && HasSdpAndType(FieldOrNull(answer, "answer")) ==>
              SelectAnswer(answer, parsed) == Some(FieldOrNull(answer, "answer"))
    ensures answer.Str? && parsed.Some? ==> SelectAnswer(answer, parsed) == AnswerShape(parsed.value)
    ensures answer.Str? && parsed.None? ==> SelectAnswer(answer, parsed).None?
    ensures answer.Num? || answer.Bool? || answer.Null? ==> SelectAnswer(answer, parsed).None?
  {
  }

  /** handleCallAnswer succeeds exactly when there is a peer waiting for an
      answer (have-local-offer) in the same session and the answer has a
      usable shape; it then installs that answer and starts the call clock,
      and a refused answer changes nothing. */
  lemma HandleCallAnswerOutcome(s: StoreState, answer: Json, parsed: Option<Json>, sid: string, now: int)
    ensures var r := HandleCallAnswerStep(s, answer, parsed, sid, now);
      && (r.ok <==>
            s.peerConnection.Some? && s.peerConnection.value.signalingState == HaveLocalOffer &&
            !(sid != "" && s.callSessionId != "" && sid != s.callSessionId) &&
            Truthy(answer) && SelectAnswer(answer, parsed).Some?)
      && (!r.ok ==> r.state == s)
      && (r.ok ==> r.state.peerConnection.value.remoteDescription == SelectAnswer(answer, parsed) &&
                   r.state.activeCallStartTime == now && r.state.callSessionId == s.callSessionId)
      && r.out == []
  {
  }

  /** Buffering a candidate appends its normal form to the sender's list
      and leaves every other sender's list alone; a null candidate is
      refused. */
  lemma StoreEarlyAppends(s: StoreState, candidate: Json, from: UserId)
    ensures var r := StoreEarlyStep(s, candidate, from);
      && (r.ok <==> candidate != Null)
      && (candidate == Null ==> r.state == s)
      && (candidate != Null ==> Pending(r.state.earlyIceCandidates, from) == Pending(s.earlyIceCandidates, from) + [NormalizeCandidate(candidate)])
      && (forall u :: u != from ==> Pending(r.state.earlyIceCandidates, u) == Pending(s.earlyIceCandidates, u))
      && r.state.peerConnection == s.peerConnection
  {
  }

  /** Replaying with nothing buffered succeeds and changes nothing; without a
      peer it fails and keeps the buffer. */
  lemma ApplyStoredOutcome(s: StoreState, from: UserId)
    ensures var r := ApplyStoredStep(s, from);
      && (r.ok <==> s.peerConnection.Some?)
      && (s.peerConnection.None? || Pending(s.earlyIceCandidates, from) == [] ==> r.state == s)
      && (r.ok ==> r.state.peerConnection.value.appliedCandidates ==
                   s.peerConnection.value.appliedCandidates + Pending(s.earlyIceCandidates, from))
  {
  }

  /** Two candidates that arrive before any peer connection, then a replay
      once a peer exists: they are applied in arrival order, after anything
      buffered earlier. */
  lemma {:induction false} EarlyCandidatesReplayInOrder(s: StoreState, c1: Json, c2: Json, from: UserId, sid: string, peer: Peer)
    requires s.peerConnection.None?
    requires s.incomingCall.None? || s.incomingCall.value.from != from
    requires c1 != Null && c2 != Null
    ensures var t1 := HandleIceStep(s, c1, from, sid).state;
      var t2 := HandleIceStep(t1, c2, from, sid).state;
      var t3 := ApplyStoredStep(t2.(peerConnection := Some(peer)), from).state;
      t3.peerConnection.value.appliedCandidates ==
        peer.appliedCandidates + Pending(s.earlyIceCandidates, from) + [NormalizeCandidate(c1), NormalizeCandidate(c2)]
  {
    var t1 := HandleIceStep(s, c1, from, sid).state;
    assert t1 == StoreEarlyStep(s, c1, from).state;
    StoreEarlyAppends(s, c1, from);
    var t2 := HandleIceStep(t1, c2, from, sid).state;
    assert t2 == StoreEarlyStep(t1, c2, from).state;
    StoreEarlyAppends(t1, c2, from);
    assert Pending(t2.earlyIceCandidates, from) == Pending(s.earlyIceCandidates, from) + [NormalizeCandidate(c1)] + [NormalizeCandidate(c2)];
  }

  /** handleIceCandidate never drops a candidate that arrives before a
      peer connection: it is buffered (unless null) and the call reports
      success; with a peer, a candidate naming another session is refused
      without effect. */
  lemma HandleIceOutcome(s: StoreState, candidate: Json, from: UserId, sid: string)
    ensures var r := HandleIceStep(s, candidate, from, sid);
      && (s.peerConnection.None? && (s.incomingCall.None? || s.incomingCall.value.from != from) ==>
            r.ok && r.state == StoreEarlyStep(s, candidate, from).state)
      && (s.peerConnection.Some? && sid != "" && s.callSessionId != "" && sid != s.callSessionId ==>
            !r.ok && r.state == s)
      && (s.peerConnection.Some? && !AcceptableCandidate(candidate) ==> !r.ok && r.state == s)
      && (r.ok && s.peerConnection.Some? ==>
            r.state.peerConnection.value.appliedCandidates ==
              s.peerConnection.value.appliedCandidates + [NormalizeCandidate(candidate)])
  {
  }

  /** endCall without a session does nothing; otherwise it leaves the call
      (no peer, no streams, no ids), keeps the queue, the incoming call and
      the buffers, and tells the server as the caller, or the receiver when
      there is no caller. A second endCall does nothing. */
  lemma EndCallOutcome(s: StoreState, auth: AuthState)
    ensures var r := EndCallStep(s, auth);
      && (s.callSessionId == "" ==> r.state == s && r.out == [])
      && (s.callSessionId != "" ==>
            !r.state.isCallActive && r.state.peerConnection.None? && r.state.callSessionId == "" &&
            !r.state.localStream && !r.state.remoteStream &&
            r.state.incomingCallsQueue == s.incomingCallsQueue && r.state.incomingCall == s.incomingCall &&
            r.state.earlyIceCandidates == s.earlyIceCandidates &&
            (|r.out| == 1 <==> auth.hasSocket) &&
            (forall m :: m in r.out ==> m == SendEndCall(s.callSessionId, if s.caller != "" then s.caller else s.receiver, None)))
      && EndCallStep(r.state, auth) == Step(r.state, true, [])
  {
  }

  /** setIncomingCallsQueue notifies exactly when the queue grew. */
  lemma SetQueueNotifies(s: StoreState, q: seq<QueuedCall>)
    ensures SetQueueStep(s, q).ok <==> |q| > |s.incomingCallsQueue|
    ensures SetQueueStep(s, q).state.incomingCallsQueue == q
    ensures SetQueueStep(s, q).state.(incomingCallsQueue := s.incomingCallsQueue) == s
  {
  }

  /** switchToQueuedCall: a successful switch ends the current call with a
      notice to the server first, then is in the queued call as receiver
      with an empty queue and a fresh start time. */
  lemma SwitchOutcome(s: StoreState, q: QueuedCall, auth: AuthState, setup: Option<Json>, now: int)
    ensures var r := SwitchStep(s, q, auth, setup, now);
      && (r.ok ==>
            r.state.isCallActive && r.state.callSessionId == q.callSessionId && r.state.caller == q.from &&
            r.state.incomingCallsQueue == [] && r.state.incomingCall.None? && r.state.activeCallStartTime == now)
      && (r.ok && s.isCallActive && s.peerConnection.Some? ==>
            r.out[0] == SendEndCall(s.callSessionId, auth.authUser.value, Some(SWITCH_REASON)))
      && (s.isCallActive && s.peerConnection.Some? && auth.hasSocket && auth.authUser.None? ==> r.state == s && !r.ok)
  {
    var ending := s.isCallActive && s.peerConnection.Some?;
    var reset := if ending then SwitchResetState(s) else s;
    AcceptCallOutcome(reset, q.offer, q.from, q.callSessionId, auth, setup);
  }

  // ---------------------------------------------------------------------
  // The store

  class CallStore {
    var isCallActive: bool
    var isCallIncoming: bool
    var callSessionId: string
    var peerConnection: Option<Peer>
    var localStream: bool
    var remoteStream: bool
    var caller: UserId
    var receiver: UserId
    var incomingCall: Option<IncomingCall>
    var incomingCallsQueue: seq<QueuedCall>
    var activeCallStartTime: int
    var earlyIceCandidates: map<UserId, seq<IceCandidate>>

    function State(): StoreState
      reads this
    {
      StoreState(isCallActive, isCallIncoming, callSessionId, peerConnection, localStream, remoteStream,
                 caller, receiver, incomingCall, incomingCallsQueue, activeCallStartTime, earlyIceCandidates)
    }

    constructor ()
      ensures State() == StoreState(false, false, "", None, false, false, "", "", None, [], 0, map[])
    {
      isCallActive, isCallIncoming, callSessionId := false, false, "";
      peerConnection, localStream, remoteStream := None, false, false;
      caller, receiver := "", "";
      incomingCall, incomingCallsQueue := None, [];
      activeCallStartTime, earlyIceCandidates := 0, map[];
    }

    method SetIncomingCall(callData: Option<CallData>, auth: AuthState, users: seq<ChatUser>, now: int)
      returns (ok: bool, out: seq<Outgoing>)
      modifies this
      ensures Step(State(), ok, out) == SetIncomingCallStep(old(State()), callData, auth, users, now)
    {
      out := [];
      if callData.None? {
        return false, [];
      }
      var d := callData.value;
      if !Truthy(d.offer) || d.from == "" || d.callSessionId == "" {
        return false, [];
      }
      if !HasTruthy(d.offer, "sdp") || !HasTruthy(d.offer, "type") {
        return false, [];
      }
      var callerName := CallerName(users, d.from);
      var processed := IncomingCall(SdpProjection(d.offer), d.from, callerName, d.callSessionId, now);
      if isCallActive && peerConnection.Some? && peerConnection.value.connectionState == Connected {
        if auth.hasSocket && auth.authUser.Some? {
          out := [SendCallRejected(d.from, auth.authUser.value, Some(d.callSessionId), BUSY_REJECT_REASON)];
          // `toast.info` throws; the catch returns false
          return false, out;
        }
        return true, out;
      }
      incomingCall := Some(processed);
      isCallIncoming := true;
      ok := true;
    }

    method RemoveIncomingCall(sid: string)
      modifies this
      ensures State() == RemoveIncomingCallState(old(State()), sid)
    {
      incomingCallsQueue := WithoutQueued(incomingCallsQueue, sid);
      if incomingCall.Some? && incomingCall.value.callSessionId == sid {
        incomingCall := None;
      }
    }

    method ClearIncomingCalls()
      modifies this
      ensures State() == ClearIncomingCallsState(old(State()))
    {
      incomingCallsQueue := [];
      incomingCall := None;
    }

    /** Replays the sender's buffered candidates, in stored order, into the
        peer connection, then forgets them. */
    method ApplyStoredIceCandidates(from: UserId) returns (ok: bool)
      modifies this
      ensures Step(State(), ok, []) == ApplyStoredStep(old(State()), from)
    {
      if peerConnection.None? {
        return false;
      }
      var candidates := if from in earlyIceCandidates then earlyIceCandidates[from] else [];
      if |candidates| == 0 {
        return true;
      }
      var peer := peerConnection.value;
      ghost var applied0 := peer.appliedCandidates;
      var i := 0;
      while i < |candidates|
        invariant 0 <= i <= |candidates|
        invariant peer == peerConnection.value.(appliedCandidates := applied0 + candidates[..i])
      {
        peer := AddCandidate(peer, candidates[i]);
        assert candidates[..i + 1] == candidates[..i] + [candidates[i]];
        i := i + 1;
      }
      assert candidates[..i] == candidates;
      peerConnection := Some(peer);
      earlyIceCandidates := earlyIceCandidates - {from};
      ok := true;
    }

    /** The loop at the start of `acceptCall`: one refusal per queued call
        of another session, in queue order. */
    static method RejectOthers(queue: seq<QueuedCall>, sid: string, me: UserId) returns (out: seq<Outgoing>)
      ensures out == Rejections(queue, sid, me)
    {
      out := [];
      var i := 0;
      while i < |queue|
        invariant 0 <= i <= |queue|
        invariant out == Rejections(queue[..i], sid, me)
      {
        var call := queue[i];
        assert queue[..i + 1][..i] == queue[..i];
        if call.callSessionId != sid {
          out := out + [SendCallRejected(call.from, me, None, ACCEPTED_OTHER_REASON)];
        }
        i := i + 1;
      }
      assert queue[..i] == queue;
    }

    /** Accepts a call: first refuses every queued call of another session
        and empties the queue, then validates the offer; `setup` is the
        answer the browser produced, or `None` when media or description
        setup failed. */
    method AcceptCall(offer: Json, from: UserId, sid: string, auth: AuthState, setup: Option<Json>)
      returns (ok: bool, out: seq<Outgoing>)
      modifies this
      ensures Step(State(), ok, out) == AcceptCallStep(old(State()), offer, from, sid, auth, setup)
    {
      if !auth.hasSocket || auth.authUser.None? {
        return false, [];
      }
      ghost var s0 := State();
      var me := auth.authUser.value;
      var queue := incomingCallsQueue;
      out := RejectOthers(queue, sid, me);
      ClearIncomingCalls();
      ghost var cleared := State();
      assert cleared == ClearIncomingCallsState(s0);
      if !Truthy(offer) || !IsObjectLike(offer) {
        return false, out;
      }
      if !HasTruthy(offer, "sdp") || !HasTruthy(offer, "type") {
        return false, out;
      }
      if setup.None? {
        return false, out;
      }
      out := out + [SendCallAnswer(SdpProjection(setup.value), from, me, sid)];
      BecomeReceiver(offer, from, sid, me);
      var _ := ApplyStoredIceCandidates(from);
      ok := true;
    }

    /** The callee's side of an accepted call: in the call, with a peer
        holding the offer as its remote description. */
    method BecomeReceiver(offer: Json, from: UserId, sid: string, me: UserId)
      modifies this
      ensures State() == AnsweredState(old(State()), offer, from, sid, me)
    {
      isCallActive, isCallIncoming := true, false;
      peerConnection := Some(NewPeer().(remoteDescription := Some(offer)));
      localStream := true;
      receiver, caller, callSessionId := me, from, sid;
    }

    method RejectCall(sid: string, auth: AuthState) returns (ok: bool, out: seq<Outgoing>)
      modifies this
      ensures Step(State(), ok, out) == RejectCallStep(old(State()), sid, auth)
    {
      var callToReject := if sid != "" then FindQueued(incomingCallsQueue, sid)
                          else if incomingCall.Some? then Some(QueuedCall(incomingCall.value.offer, incomingCall.value.from, incomingCall.value.callSessionId))
                          else None;
      out := [];
      if callToReject.Some? && auth.hasSocket && auth.authUser.Some? {
        out := [SendCallRejected(callToReject.value.from, auth.authUser.value, Some(callToReject.value.callSessionId), REJECTED_REASON)];
      }
      if sid != "" {
        RemoveIncomingCall(sid);
      } else {
        incomingCall := None;
      }
      ok := true;
    }

    /** Handles the callee's answer; `parsed` is what parsing a string
        answer yields. */
    method HandleCallAnswer(answer: Json, parsed: Option<Json>, sid: string, now: int) returns (ok: bool)
      modifies this
      ensures Step(State(), ok, []) == HandleCallAnswerStep(old(State()), answer, parsed, sid, now)
    {
      if peerConnection.None? {
        return false;
      }
      if sid != "" && callSessionId != "" && sid != callSessionId {
        return false;
      }
      if peerConnection.value.signalingState == SignalingClosed {
        return false;
      }
      if !Truthy(answer) {
        return false;
      }
      var answerData := SelectAnswer(answer, parsed);
      if answerData.None? {
        return false;
      }
      if peerConnection.value.signalingState != HaveLocalOffer {
        return false;
      }
      var p := peerConnection.value;
      peerConnection := Some(p.(signalingState := Stable, remoteDescription := Some(answerData.value)));
      activeCallStartTime := now;
      ok := true;
    }

    method StoreEarlyIceCandidate(candidate: Json, from: UserId) returns (ok: bool)
      modifies this
      ensures Step(State(), ok, []) == StoreEarlyStep(old(State()), candidate, from)
    {
      if candidate == Null {
        return false;
      }
      var iceCandidate := NormalizeCandidate(candidate);
      var list := if from in earlyIceCandidates then earlyIceCandidates[from] else [];
      earlyIceCandidates := earlyIceCandidates[from := list + [iceCandidate]];
      ok := true;
    }

    method HandleIceCandidate(candidate: Json, from: UserId, sid: string) returns (ok: bool)
      modifies this
      ensures Step(State(), ok, []) == HandleIceStep(old(State()), candidate, from, sid)
    {
      if peerConnection.None? && incomingCall.Some? && incomingCall.value.from == from {
        peerConnection := Some(NewPeer());
        callSessionId := incomingCall.value.callSessionId;
        if !Truthy(candidate) || !IsObjectLike(candidate) {
          return false;
        }
        if !HasTruthy(candidate, "candidate") {
          return false;
        }
        peerConnection := Some(AddCandidate(peerConnection.value, NormalizeCandidate(candidate)));
        return true;
      }
      if peerConnection.None? {
        var _ := StoreEarlyIceCandidate(candidate, from);
        return true;
      }
      var effective := if sid != "" then sid else callSessionId;
      if effective != "" && callSessionId != "" && effective != callSessionId {
        return false;
      }
      if !Truthy(candidate) || !IsObjectLike(candidate) {
        return false;
      }
      if !HasTruthy(candidate, "candidate") {
        return false;
      }
      peerConnection := Some(AddCandidate(peerConnection.value, NormalizeCandidate(candidate)));
      ok := true;
    }

    /** Ends the current call: resets the call fields, then tells the server. */
    method EndCall(auth: AuthState) returns (out: seq<Outgoing>)
      modifies this
      ensures Step(State(), true, out) == EndCallStep(old(State()), auth)
    {
      if callSessionId == "" {
        return [];
      }
      var sid, from := callSessionId, if caller != "" then caller else receiver;
      isCallActive, isCallIncoming, callSessionId := false, false, "";
      peerConnection, localStream, remoteStream := None, false, false;
      caller, receiver := "", "";
      out := if auth.hasSocket then [SendEndCall(sid, from, None)] else [];
    }

    /** Replaces the queue; the result says whether the notification sound
        plays (the queue grew). */
    method SetIncomingCallsQueue(newQueue: seq<QueuedCall>) returns (notify: bool)
      modifies this
      ensures Step(State(), notify, []) == SetQueueStep(old(State()), newQueue)
    {
      notify := |newQueue| > |incomingCallsQueue|;
      incomingCallsQueue := newQueue;
    }

    /** Drops the current call locally, as switching does before it
        accepts the queued one. */
    method ResetForSwitch()
      modifies this
      ensures State() == SwitchResetState(old(State()))
    {
      isCallActive, peerConnection, localStream, remoteStream := false, None, false, false;
      callSessionId, caller, receiver := "", "", "";
    }

    method SwitchToQueuedCall(queuedCall: QueuedCall, auth: AuthState, setup: Option<Json>, now: int)
      returns (ok: bool, out: seq<Outgoing>)
      modifies this
      ensures Step(State(), ok, out) == SwitchStep(old(State()), queuedCall, auth, setup, now)
    {
      var ending := isCallActive && peerConnection.Some?;
      if ending && auth.hasSocket && auth.authUser.None? {
        return false, [];
      }
      var notice := [];
      if ending {
        if auth.hasSocket {
          notice := [SendEndCall(callSessionId, auth.authUser.value, Some(SWITCH_REASON))];
        }
        ResetForSwitch();
      }
      var success, sent := AcceptCall(queuedCall.offer, queuedCall.from, queuedCall.callSessionId, auth, setup);
      out := notice + sent;
      if success {
        RemoveIncomingCall(queuedCall.callSessionId);
        activeCallStartTime := now;
      }
      ok := success;
    }

    /** `getCallDuration`: whole seconds since the call started, 0 when it
        has not. */
    function CallDuration(now: int): (seconds: int)
      reads this
      ensures activeCallStartTime == 0 ==> seconds == 0
      ensures activeCallStartTime != 0 ==>
        seconds * 1000 <= now - activeCallStartTime < seconds * 1000 + 1000
    {
      if activeCallStartTime == 0 then 0 else (now - activeCallStartTime) / 1000
    }

    /** `getQueuedCallWaitTime`: 30 seconds for every call ahead of the
        first queued call of the session, 0 when it is not queued. */
    function QueuedCallWaitTime(sid: string): (seconds: nat)
      reads this
      ensures (forall c :: c in incomingCallsQueue ==> c.callSessionId != sid) ==> seconds == 0
      ensures forall i :: (0 <= i < |incomingCallsQueue| && incomingCallsQueue[i].callSessionId == sid &&
                (forall j :: 0 <= j < i ==> incomingCallsQueue[j].callSessionId != sid)) ==>
                seconds == QUEUE_WAIT_SECONDS * i
    {
      match QueueIndex(incomingCallsQueue, sid)
      case None => 0
      case Some(i) => QUEUE_WAIT_SECONDS * i
    }
  }
}
