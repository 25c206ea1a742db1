/**
  The application shell's socket handlers: how each signalling event that
  reaches a client is routed into the call store. An offer during a call is
  queued in arrival order, otherwise it becomes the incoming call; an ICE
  candidate is handled under its effective session id or buffered for later;
  a confirmation that the call ended ends it locally.
 */
module ClientDispatch {
  import opened Common
  import opened ClientCalls
  import Signaling

  const BUSY_TOAST := "User is busy on another call"
  const CALL_FAILED_TOAST := "Call failed"
  const CALL_REJECTED_TOAST := "Call was rejected"

  /** Whether the application shell has the `toast` function in scope. It
      imports only the `Toaster` component from the toast library, so every
      `toast.error(...)` call in it throws and the handler stops there. */
  const APP_IMPORTS_TOAST := false

  /** What a `toast.error(text)` call puts on screen: the text when `toast`
      is in scope, nothing when the call throws. */
  function ErrorToast(toastInScope: bool, text: string): Option<string>
  {
    if toastInScope then Some(text) else None
  }

  /** What the offer handler does to the store. */
  function OfferStep(s: StoreState, offer: Json, from: UserId, sid: string, auth: AuthState, users: seq<ChatUser>, now: int): Step
  {
    if s.isCallActive then
      Step(s.(incomingCallsQueue := s.incomingCallsQueue + [QueuedCall(offer, from, sid)]), true, [])
    else SetIncomingCallStep(s, Some(CallData(offer, from, sid)), auth, users, now)
  }

  /** `callSessionId || currentCallSessionId || incomingCall?.callSessionId`. */
  function EffectiveSessionId(sid: string, current: string, incoming: Option<IncomingCall>): (r: string)
    ensures sid != "" ==> r == sid
    ensures sid == "" && current != "" ==> r == current
    ensures r == "" <==> sid == "" && current == "" && (incoming.None? || incoming.value.callSessionId == "")
    ensures r == "" || r == sid || r == current || (incoming.Some? && r == incoming.value.callSessionId)
  {
    if sid != "" then sid
    else if current != "" then current
    else if incoming.Some? then incoming.value.callSessionId
    else ""
  }

  /** Where an incoming candidate goes: the early buffer, or the store's
      candidate handler under a session id. */
  datatype IceRoute = Buffer | Handle(sessionId: string)

  function IceRouteFor(from: UserId, effective: string, incoming: Option<IncomingCall>, isCallActive: bool): IceRoute
  {
    if from != "" && effective == "" then
      if incoming.Some? && incoming.value.from == from && !isCallActive then Handle(incoming.value.callSessionId)
      else Buffer
    else if !isCallActive && effective == "" then Buffer
    else Handle(effective)
  }

  /** A candidate with an effective session id is always handled under that
      id; one without is buffered unless the user is in an active call and
      the sender is unknown. The branch for a matching incoming call is only
      reached when that incoming call has no session id. */
  lemma IceRouting(from: UserId, sid: string, current: string, incoming: Option<IncomingCall>, isCallActive: bool)
    ensures var effective := EffectiveSessionId(sid, current, incoming);
      && (effective != "" ==> IceRouteFor(from, effective, incoming, isCallActive) == Handle(effective))
      && (IceRouteFor(from, effective, incoming, isCallActive).Buffer? ==> effective == "")
      && ((incoming.None? || incoming.value.callSessionId != "") && effective == "" && (from != "" || !isCallActive) ==>
            IceRouteFor(from, effective, incoming, isCallActive) == Buffer)
      && (effective == "" && from == "" && isCallActive ==> IceRouteFor(from, effective, incoming, isCallActive) == Handle(""))
  {
  }

  /** The toast for a `call-failed` event: the busy text for a busy reason,
      else the message, else a generic text. */
  function CallFailedToast(message: string, reason: Option<string>): (r: string)
    ensures r != ""
    ensures reason == Some("busy") ==> r == BUSY_TOAST
    ensures reason != Some("busy") && message != "" ==> r == message
    ensures reason != Some("busy") && message == "" ==> r == CALL_FAILED_TOAST
  {
    if reason == Some("busy") then BUSY_TOAST
    else if message != "" then message
    else CALL_FAILED_TOAST
  }

  /** Whether the main socket effect's cleanup removes every `call-failed`
      listener: it calls `off("call-failed")` without naming a handler. */
  const APP_CLEANUP_REMOVES_CALL_FAILED := true

  /** Whether `handleCallFailed` is still registered after the main socket
      effect has been cleaned up `cleanups` times (once per change of
      `isCallActive`). The effect that registers it depends on the socket
      alone, so it does not register it again. */
  function CallFailedListening(cleanups: nat, cleanupRemovesCallFailed: bool): bool
  {
    cleanups == 0 || !cleanupRemovesCallFailed
  }

  /** What a `call-failed` event puts on screen: nothing without a
      listener, else what the handler's `toast.error` shows. */
  function CallFailedShown(listening: bool, toastInScope: bool, message: string, reason: Option<string>): Option<string>
  {
    if listening then ErrorToast(toastInScope, CallFailedToast(message, reason)) else None
  }

  /** With `toast` in scope and `handleCallFailed` left registered, the
      server's two call-failed notices read as intended on the client
      however often `isCallActive` has changed: the busy notice shows the
      busy text, the offline notice its message; a rejection shows the
      rejection text. */
  lemma ServerNoticesShown(socketId: SocketId, cleanups: nat)
    ensures var e := Signaling.BusyNotice(socketId).event;
      CallFailedShown(CallFailedListening(cleanups, false), true, e.message, e.reason) == Some(BUSY_TOAST)
    ensures var e := Signaling.OfflineNotice(socketId).event;
      CallFailedShown(CallFailedListening(cleanups, false), true, e.message, e.reason) == Some(Signaling.OFFLINE_MESSAGE)
    ensures ErrorToast(true, CALL_REJECTED_TOAST) == Some(CALL_REJECTED_TOAST)
  {
  }

  /** As the shell is written, a caller who has just started a call (one
      change of `isCallActive`, so one cleanup of the main socket effect) no
      longer listens for `call-failed`: the busy or offline notice answering
      the offer shows nothing, whether or not `toast` is in scope. */
  lemma CallFailedListenerRemoved(socketId: SocketId, toastInScope: bool, message: string, reason: Option<string>)
    ensures CallFailedListening(0, APP_CLEANUP_REMOVES_CALL_FAILED)
    ensures !CallFailedListening(1, APP_CLEANUP_REMOVES_CALL_FAILED)
    ensures CallFailedShown(CallFailedListening(1, APP_CLEANUP_REMOVES_CALL_FAILED), toastInScope, message, reason).None?
    ensures var e := Signaling.BusyNotice(socketId).event;
      CallFailedShown(CallFailedListening(1, APP_CLEANUP_REMOVES_CALL_FAILED), toastInScope, e.message, e.reason).None?
  {
  }

  /** As the shell is written, no call-failed or call-rejected notice ever
      reaches the screen, the server's busy and offline notices included. */
  lemma AppNoticesNeverShown(message: string, reason: Option<string>, socketId: SocketId)
    ensures ErrorToast(APP_IMPORTS_TOAST, CallFailedToast(message, reason)).None?
    ensures ErrorToast(APP_IMPORTS_TOAST, CALL_REJECTED_TOAST).None?
    ensures var e := Signaling.BusyNotice(socketId).event;
      ErrorToast(APP_IMPORTS_TOAST, CallFailedToast(e.message, e.reason)).None?
  {
  }

  /** The store after a run of offers, each handed to one `call-offer`
      listener in arrival order. */
  function OffersStep(s: StoreState, offers: seq<QueuedCall>, auth: AuthState, users: seq<ChatUser>, now: int): StoreState
    decreases |offers|
  {
    if offers == [] then s
    else OffersStep(OfferStep(s, offers[0].offer, offers[0].from, offers[0].callSessionId, auth, users, now).state,
                    offers[1..], auth, users, now)
  }

  /** Offers that arrive during a call join the end of the queue in arrival
      order and the call itself is untouched. */
  lemma {:induction false} OffersQueueInArrivalOrder(s: StoreState, offers: seq<QueuedCall>,
                                                   auth: AuthState, users: seq<ChatUser>, now: int)
    requires s.isCallActive
    ensures OffersStep(s, offers, auth, users, now) == s.(incomingCallsQueue := s.incomingCallsQueue + offers)
    decreases |offers|
  {
    if offers != [] {
      var o := offers[0];
      var t := OfferStep(s, o.offer, o.from, o.callSessionId, auth, users, now).state;
      assert t == s.(incomingCallsQueue := s.incomingCallsQueue + [o]);
      OffersQueueInArrivalOrder(t, offers[1..], auth, users, now);
      assert s.incomingCallsQueue + [o] + offers[1..] == s.incomingCallsQueue + offers;
    }
  }

  /** Whether the cleanup of the shell's socket effect removes the
      `call-offer` listener. It removes the other call listeners but not
      this one. */
  const APP_CLEANUP_REMOVES_OFFER := false

  /** The `call-offer` listeners registered after `runs` runs of the shell's
      socket effect that each found a connected socket. The effect runs again
      whenever `isCallActive` changes, and each run registers a listener.
      `runs` counts the runs since the call page last cleaned up, since that
      cleanup removes every `call-offer` listener. */
  function CallOfferListeners(runs: nat, cleanupRemovesOffer: bool): nat
  {
    if runs == 0 then 0 else if cleanupRemovesOffer then 1 else runs
  }

  /** One offer handed to each of `listeners` registered listeners in turn. */
  function DeliverToListeners(s: StoreState, listeners: nat, q: QueuedCall,
                              auth: AuthState, users: seq<ChatUser>, now: int): StoreState
    decreases listeners
  {
    if listeners == 0 then s
    else DeliverToListeners(OfferStep(s, q.offer, q.from, q.callSessionId, auth, users, now).state,
                            listeners - 1, q, auth, users, now)
  }

  /** During a call, an offer heard by `listeners` listeners enters the
      queue once per listener. */
  lemma {:induction false} ListenersQueueCopies(s: StoreState, listeners: nat, q: QueuedCall,
                                              auth: AuthState, users: seq<ChatUser>, now: int)
    requires s.isCallActive
    ensures DeliverToListeners(s, listeners, q, auth, users, now) ==
            s.(incomingCallsQueue := s.incomingCallsQueue + seq(listeners, _ => q))
    decreases listeners
  {
    if listeners > 0 {
      var t := OfferStep(s, q.offer, q.from, q.callSessionId, auth, users, now).state;
      assert t == s.(incomingCallsQueue := s.incomingCallsQueue + [q]);
      ListenersQueueCopies(t, listeners - 1, q, auth, users, now);
      assert s.incomingCallsQueue + [q] + seq(listeners - 1, _ => q) == s.incomingCallsQueue + seq(listeners, _ => q);
    }
  }

  /** As the shell is written, once a call has become active (the second
      run of the effect) a single offer enters the queue twice. */
  lemma OfferDuringCallQueuedTwice(s: StoreState, q: QueuedCall, auth: AuthState, users: seq<ChatUser>, now: int)
    requires s.isCallActive
    ensures var t := DeliverToListeners(s, CallOfferListeners(2, APP_CLEANUP_REMOVES_OFFER), q, auth, users, now);
      && |t.incomingCallsQueue| == |s.incomingCallsQueue| + 2
      && t.incomingCallsQueue[|s.incomingCallsQueue|] == q
      && t.incomingCallsQueue[|s.incomingCallsQueue| + 1] == q
  {
    ListenersQueueCopies(s, 2, q, auth, users, now);
  }

  /** With the cleanup removing the `call-offer` listener, however often the
      effect has run, an offer during a call enters the queue exactly once. */
  lemma OfferDuringCallQueuedOnce(s: StoreState, runs: nat, q: QueuedCall, auth: AuthState, users: seq<ChatUser>, now: int)
    requires s.isCallActive && runs > 0
    ensures DeliverToListeners(s, CallOfferListeners(runs, true), q, auth, users, now) ==
            s.(incomingCallsQueue := s.incomingCallsQueue + [q])
  {
    ListenersQueueCopies(s, 1, q, auth, users, now);
  }

  /** `call-offer`: queue the offer while in a call, else try to make it the
      incoming call. Missing payload fields arrive as null or "". */
  method OnCallOffer(store: CallStore, offer: Json, from: UserId, sid: string, auth: AuthState, users: seq<ChatUser>, now: int)
    returns (out: seq<Outgoing>)
    modifies store
    ensures Step(store.State(), true, out) == OfferStep(old(store.State()), offer, from, sid, auth, users, now).(ok := true)
  {
    if store.isCallActive {
      var _ := store.SetIncomingCallsQueue(store.incomingCallsQueue + [QueuedCall(offer, from, sid)]);
      return [];
    }
    var _, sent := store.SetIncomingCall(Some(CallData(offer, from, sid)), auth, users, now);
    out := sent;
  }

  /** `call-user` reaching a client: forwarded back to the server as a
      `call-offer` carrying the same offer, sender and session and no
      recipient. */
  method OnCallUser(offer: Json, from: UserId, sid: string) returns (out: seq<Outgoing>)
    ensures |out| == 1 && out[0].SendCallOffer?
    ensures out[0].offer == offer && out[0].from == from && out[0].callSessionId == sid
  {
    out := [SendCallOffer(offer, from, sid)];
  }

  /** `call-answer`: handled only when the rendered view shows an active call
      (`viewActive`, the value the handler was registered with) and the
      answer is truthy; the result is the handler's outcome, or `None` when
      the event was dropped. */
  method OnCallAnswer(store: CallStore, viewActive: bool, answer: Json, parsed: Option<Json>, sid: string, now: int)
    returns (handled: Option<bool>)
    modifies store
    ensures handled.Some? <==> viewActive && Truthy(answer)
    ensures handled.None? ==> store.State() == old(store.State())
    ensures handled.Some? ==> Step(store.State(), handled.value, []) == HandleCallAnswerStep(old(store.State()), answer, parsed, sid, now)
  {
    if !viewActive || !Truthy(answer) {
      return None;
    }
    var ok := store.HandleCallAnswer(answer, parsed, sid, now);
    handled := Some(ok);
  }

  /** `ice-candidate`: routed by the effective session id. */
  method OnIceCandidate(store: CallStore, candidate: Json, from: UserId, sid: string) returns (route: IceRoute)
    modifies store
    ensures route == IceRouteFor(from, EffectiveSessionId(sid, old(store.callSessionId), old(store.incomingCall)),
                                 old(store.incomingCall), old(store.isCallActive))
    ensures route.Buffer? ==> store.State() == StoreEarlyStep(old(store.State()), candidate, from).state
    ensures route.Handle? ==> store.State() == HandleIceStep(old(store.State()), candidate, from, route.sessionId).state
  {
    var isCallActive, current, incomingCall := store.isCallActive, store.callSessionId, store.incomingCall;
    var effective := EffectiveSessionId(sid, current, incomingCall);
    if from != "" && effective == "" {
      if incomingCall.Some? && incomingCall.value.from == from && !isCallActive {
        var _ := store.HandleIceCandidate(candidate, from, incomingCall.value.callSessionId);
        return Handle(incomingCall.value.callSessionId);
      }
      var _ := store.StoreEarlyIceCandidate(candidate, from);
      return Buffer;
    }
    if !isCallActive && effective == "" {
      var _ := store.StoreEarlyIceCandidate(candidate, from);
      return Buffer;
    }
    var _ := store.HandleIceCandidate(candidate, from, effective);
    route := Handle(effective);
  }

  /** Clearing the incoming call with a null argument: the store refuses
      null call data, so nothing changes. */
  method ClearViaNull(store: CallStore)
    modifies store
    ensures store.State() == old(store.State())
  {
    var _, _ := store.SetIncomingCall(None, AuthState(false, None), [], 0);
  }

  /** `end-call` reaching a client. */
  method OnEndCall(store: CallStore)
    modifies store
    ensures store.State() == old(store.State())
  {
    ClearViaNull(store);
  }

  /** `call-rejected`: the rejection toast, then clearing the incoming call
      with null. `toastInScope` is `APP_IMPORTS_TOAST` as the shell is
      written; without it the toast call throws before the clearing. Either
      way the store is left as it is. */
  method OnCallRejected(store: CallStore, toastInScope: bool) returns (shown: Option<string>)
    modifies store
    ensures shown == ErrorToast(toastInScope, CALL_REJECTED_TOAST)
    ensures store.State() == old(store.State())
  {
    if !toastInScope {
      return None;
    }
    shown := Some(CALL_REJECTED_TOAST);
    ClearViaNull(store);
  }

  /** `call-failed`: a toast chosen from the reason and message, then
      clearing the incoming call with null; as for `OnCallRejected`, the
      toast call throws when `toast` is not in scope. It runs only while
      `CallFailedListening` holds. */
  method OnCallFailed(store: CallStore, toastInScope: bool, message: string, reason: Option<string>)
    returns (shown: Option<string>)
    modifies store
    ensures shown == ErrorToast(toastInScope, CallFailedToast(message, reason))
    ensures store.State() == old(store.State())
  {
    if !toastInScope {
      return None;
    }
    if reason == Some("busy") {
      shown := Some(BUSY_TOAST);
    } else if message != "" {
      shown := Some(message);
    } else {
      shown := Some(CALL_FAILED_TOAST);
    }
    ClearViaNull(store);
  }

  /** `call-ended`. */
  method OnCallEnded(store: CallStore)
    modifies store
    ensures store.State() == old(store.State())
  {
    ClearViaNull(store);
  }

  /** `call-ended-confirmation`: ends the call locally. */
  method OnCallEndedConfirmation(store: CallStore, auth: AuthState) returns (out: seq<Outgoing>)
    modifies store
    ensures Step(store.State(), true, out) == EndCallStep(old(store.State()), auth)
  {
    out := store.EndCall(auth);
  }
}
