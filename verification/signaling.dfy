/**
  The presence registry and the signalling router of the socket server.
  `userSocketMap` maps a user id to the socket id last announced for it; the
  per-socket `callFailedEmitted` flag debounces busy notices; the occupancy
  tracker is consulted and updated by the handlers. Every handler returns the
  messages it emits, in order, each addressed to one socket or to everyone.
 */
module Signaling {
  import opened Common
  import opened Strings
  import opened ActiveCalls

  datatype Destination = ToSocket(socketId: SocketId) | Everyone

  datatype ServerEvent =
    | OnlineUsers(userIds: set<UserId>)
    | CallOffer(offer: Json, from: UserId, callSessionId: string)
    | CallFailed(message: string, reason: Option<string>)
    | CallAnswer(answer: Json, from: UserId, callSessionId: string)
    | IceCandidate(from: UserId, candidate: Json, callSessionId: string)
    | CallEnded(from: UserId, callSessionId: string)
    | CallEndedConfirmation(callSessionId: string)
    | CallRejected(from: UserId, rejectReason: Json, callSessionId: string)

  datatype Emission = Emission(dest: Destination, event: ServerEvent)

  const BUSY_MESSAGE := "User is busy on another call"
  const OFFLINE_MESSAGE := "User is offline"

  /** The busy notice to the offering socket. */
  function BusyNotice(socketId: SocketId): Emission
  {
    Emission(ToSocket(socketId), CallFailed(BUSY_MESSAGE, Some("busy")))
  }

  /** The offline notice: it carries a message and no reason field. */
  function OfflineNotice(socketId: SocketId): Emission
  {
    Emission(ToSocket(socketId), CallFailed(OFFLINE_MESSAGE, None))
  }

  /** The session id `call-user` makes up when the caller sent none:
      caller, callee and the current time joined by underscores. */
  function SynthesizedSessionId(from: UserId, to: UserId, now: nat): (r: string)
    ensures r != ""
    ensures StartsWith(r, from + "_" + to + "_")
    ensures r[|from + "_" + to + "_"|..] == NatToString(now)
  {
    from + "_" + to + "_" + NatToString(now)
  }

  /** Two calls between the same pair made up at different times get
      different session ids. */
  lemma SynthesizedSessionIdsDiffer(from: UserId, to: UserId, t1: nat, t2: nat)
    requires t1 != t2
    ensures SynthesizedSessionId(from, to, t1) != SynthesizedSessionId(from, to, t2)
  {
    NatToStringInjective(t1, t2);
    var k := |from + "_" + to + "_"|;
    assert SynthesizedSessionId(from, to, t1)[k..] != SynthesizedSessionId(from, to, t2)[k..];
  }

  /** Occupancy after `end-call`: the whole session (when a session id is
      given), then the sender and the target (when given), are removed. */
  function AfterEndCall(calls: map<UserId, CallEntry>, to: UserId, from: UserId, callSessionId: string): map<UserId, CallEntry>
  {
    var bySession := if callSessionId != "" then WithoutSession(calls, callSessionId) else calls;
    var withoutFrom := if from != "" then bySession - {from} else bySession;
    if to != "" then withoutFrom - {to} else withoutFrom
  }

  /** After `end-call` neither party nor any leg of the session is occupied,
      and every other entry is left as it was. */
  lemma EndCallClears(calls: map<UserId, CallEntry>, to: UserId, from: UserId, callSessionId: string)
    ensures var after := AfterEndCall(calls, to, from, callSessionId);
      && (from != "" ==> from !in after)
      && (to != "" ==> to !in after)
      && (callSessionId != "" ==> SessionUsers(after, callSessionId) == {})
      && (forall u :: u in after ==> u in calls && after[u] == calls[u])
      && (forall u :: u in calls && u != from && u != to && calls[u].callSessionId != callSessionId ==> u in after)
  {
    if callSessionId != "" {
      WithoutSessionExact(calls, callSessionId);
    }
  }

  class SignalingServer {
    /** userId -> the socket id last announced for it; a `user-online`
        event without a socket id stores `None` (undefined). */
    var userSocketMap: map<UserId, Option<SocketId>>
    /** Sockets whose busy notice was sent within the current window. */
    var callFailedEmitted: set<SocketId>
    const tracker: ActiveCallTracker

    constructor (tracker: ActiveCallTracker)
      ensures userSocketMap == map[] && callFailedEmitted == {}
      ensures this.tracker == tracker
    {
      userSocketMap := map[];
      callFailedEmitted := {};
      this.tracker := tracker;
    }

    /** `userSocketMap[userId]`, with a missing key read as undefined. */
    function Lookup(userId: UserId): Option<SocketId>
      reads this
    {
      if userId in userSocketMap then userSocketMap[userId] else None
    }

    /** `getReceiverSocketId`: the stored socket id when it is truthy. */
    function ReceiverSocketId(userId: UserId): (r: Option<SocketId>)
      reads this
      ensures r.Some? <==> userId in userSocketMap && userSocketMap[userId].Some? && userSocketMap[userId].value != ""
      ensures r.Some? ==> Some(r.value) == userSocketMap[userId]
    {
      match Lookup(userId)
      case Some(id) => if id != "" then Some(id) else None
      case None => None
    }

    /** The `online-users` broadcast of the current key set. */
    function Snapshot(): Emission
      reads this
    {
      Emission(Everyone, OnlineUsers(userSocketMap.Keys))
    }

    /** A new connection: registers the handshake user id (last write
        wins) and broadcasts, then broadcasts once more unconditionally. */
    method Connect(socketId: SocketId, handshakeUserId: UserId) returns (out: seq<Emission>)
      modifies this
      ensures callFailedEmitted == old(callFailedEmitted)
      ensures handshakeUserId != "" ==> userSocketMap == old(userSocketMap)[handshakeUserId := Some(socketId)]
      ensures handshakeUserId == "" ==> userSocketMap == old(userSocketMap)
      ensures out == (if handshakeUserId != "" then [Snapshot()] else []) + [Snapshot()]
      ensures handshakeUserId != "" ==> ReceiverSocketId(handshakeUserId) == (if socketId != "" then Some(socketId) else None)
    {
      out := [];
      if handshakeUserId != "" {
        userSocketMap := userSocketMap[handshakeUserId := Some(socketId)];
        out := out + [Snapshot()];
      }
      out := out + [Snapshot()];
    }

    /** `user-online`: same upsert and broadcast, for an explicit socket id. */
    method UserOnline(userId: UserId, socketId: Option<SocketId>) returns (out: seq<Emission>)
      modifies this
      ensures callFailedEmitted == old(callFailedEmitted)
      ensures userId != "" ==> userSocketMap == old(userSocketMap)[userId := socketId] && out == [Snapshot()]
      ensures userId == "" ==> userSocketMap == old(userSocketMap) && out == []
    {
      out := [];
      if userId != "" {
        userSocketMap := userSocketMap[userId := socketId];
        out := [Snapshot()];
      }
    }

    /** `user-offline`: deletes the entry only when the stored socket id is
        the one supplied, so a superseded socket cannot remove a newer entry. */
    method UserOffline(userId: UserId, socketId: Option<SocketId>) returns (out: seq<Emission>)
      modifies this
      ensures callFailedEmitted == old(callFailedEmitted)
      ensures userId != "" && old(Lookup(userId)) == socketId ==>
        userSocketMap == old(userSocketMap) - {userId} && out == [Snapshot()]
      ensures !(userId != "" && old(Lookup(userId)) == socketId) ==>
        userSocketMap == old(userSocketMap) && out == []
    {
      out := [];
      if userId != "" && Lookup(userId) == socketId {
        userSocketMap := userSocketMap - {userId};
        out := [Snapshot()];
      }
    }

    /** The busy branch shared by `call-offer` and `call-user`: the notice
        goes out only while the socket's flag is clear, and sets it. */
    method NotifyBusy(socketId: SocketId) returns (out: seq<Emission>)
      modifies this
      ensures userSocketMap == old(userSocketMap)
      ensures callFailedEmitted == old(callFailedEmitted) + {socketId}
      ensures out == if socketId in old(callFailedEmitted) then [] else [BusyNotice(socketId)]
    {
      out := [];
      if socketId !in callFailedEmitted {
        out := [BusyNotice(socketId)];
        callFailedEmitted := callFailedEmitted + {socketId};
      }
    }

    /** The one-second timer that clears a socket's busy flag. */
    method ResetCallFailedFlag(socketId: SocketId)
      modifies this
      ensures userSocketMap == old(userSocketMap)
      ensures callFailedEmitted == old(callFailedEmitted) - {socketId}
    {
      callFailedEmitted := callFailedEmitted - {socketId};
    }

    /** `call-offer`: a busy target never sees the offer; a free, present
        target receives it with `from` and the session id unchanged; an
        absent target earns the sender an offline notice. */
    method CallOfferEvent(socketId: SocketId, offer: Json, to: UserId, from: UserId, callSessionId: string, now: int)
      returns (out: seq<Emission>)
      modifies this, tracker
      ensures userSocketMap == old(userSocketMap)
      ensures tracker.calls == AfterQuery(old(tracker.calls), to, now)
      ensures InCall(old(tracker.calls), to, now) ==>
        && callFailedEmitted == old(callFailedEmitted) + {socketId}
        && out == (if socketId in old(callFailedEmitted) then [] else [BusyNotice(socketId)])
      ensures !InCall(old(tracker.calls), to, now) ==>
        && callFailedEmitted == old(callFailedEmitted)
        && out == match ReceiverSocketId(to)
                  case Some(target) => [Emission(ToSocket(target), CallOffer(offer, from, callSessionId))]
                  case None => [OfflineNotice(socketId)]
    {
      var isUserBusy := tracker.IsUserInCall(to, now);
      if isUserBusy {
        out := NotifyBusy(socketId);
        return;
      }
      var receiverSocketId := ReceiverSocketId(to);
      if receiverSocketId.Some? {
        out := [Emission(ToSocket(receiverSocketId.value), CallOffer(offer, from, callSessionId))];
      } else {
        out := [OfflineNotice(socketId)];
      }
    }

    /** `call-user`: as `call-offer`, relaying `signalData` as the offer and
        making up a session id only when none was given. */
    method CallUserEvent(socketId: SocketId, signalData: Json, to: UserId, from: UserId, callSessionId: string, now: nat)
      returns (out: seq<Emission>)
      modifies this, tracker
      ensures userSocketMap == old(userSocketMap)
      ensures tracker.calls == AfterQuery(old(tracker.calls), to, now)
      ensures InCall(old(tracker.calls), to, now) ==>
        && callFailedEmitted == old(callFailedEmitted) + {socketId}
        && out == (if socketId in old(callFailedEmitted) then [] else [BusyNotice(socketId)])
      ensures !InCall(old(tracker.calls), to, now) ==>
        && callFailedEmitted == old(callFailedEmitted)
        && out == match ReceiverSocketId(to)
                  case Some(target) =>
                    [Emission(ToSocket(target), CallOffer(signalData, from,
                       if callSessionId != "" then callSessionId else SynthesizedSessionId(from, to, now)))]
                  case None => [OfflineNotice(socketId)]
    {
      var isUserBusy := tracker.IsUserInCall(to, now);
      if isUserBusy {
        out := NotifyBusy(socketId);
        return;
      }
      var receiverSocketId := ReceiverSocketId(to);
      if receiverSocketId.Some? {
        var effectiveCallSessionId := if callSessionId != "" then callSessionId else SynthesizedSessionId(from, to, now);
        out := [Emission(ToSocket(receiverSocketId.value), CallOffer(signalData, from, effectiveCallSessionId))];
      } else {
        out := [OfflineNotice(socketId)];
      }
    }

    /** `call-answer`: relays to a present target and, only then and only
        with a session id, marks both parties occupied, each with the other
        as partner. An absent target is dropped silently. */
    method CallAnswerEvent(answer: Json, to: UserId, from: UserId, callSessionId: string, now: int)
      returns (out: seq<Emission>)
      modifies tracker
      ensures ReceiverSocketId(to).None? ==> out == [] && tracker.calls == old(tracker.calls)
      ensures ReceiverSocketId(to).Some? ==>
        && out == [Emission(ToSocket(ReceiverSocketId(to).value), CallAnswer(answer, from, callSessionId))]
        && tracker.calls == (if callSessionId != "" then
                               old(tracker.calls)[from := CallEntry(callSessionId, to, now)][to := CallEntry(callSessionId, from, now)]
                             else old(tracker.calls))
      ensures ReceiverSocketId(to).Some? && callSessionId != "" ==>
        && InCall(tracker.calls, from, now) && tracker.calls[from] == CallEntry(callSessionId, to, now)
        && InCall(tracker.calls, to, now) && tracker.calls[to] == CallEntry(callSessionId, from, now)
    {
      out := [];
      var receiverSocketId := ReceiverSocketId(to);
      if receiverSocketId.Some? {
        out := [Emission(ToSocket(receiverSocketId.value), CallAnswer(answer, from, callSessionId))];
        if callSessionId != "" {
          var _ := tracker.AddActiveCall(from, callSessionId, to, now);
          var _ := tracker.AddActiveCall(to, callSessionId, from, now);
        }
      }
    }

    /** `ice-candidate`: relayed verbatim to a present target, else dropped. */
    method IceCandidateEvent(to: UserId, from: UserId, candidate: Json, callSessionId: string) returns (out: seq<Emission>)
      ensures out == match ReceiverSocketId(to)
                     case Some(target) => [Emission(ToSocket(target), IceCandidate(from, candidate, callSessionId))]
                     case None => []
    {
      var receiverSocketId := Lookup(to);
      if receiverSocketId.Some? && receiverSocketId.value != "" {
        out := [Emission(ToSocket(receiverSocketId.value), IceCandidate(from, candidate, callSessionId))];
      } else {
        out := [];
      }
    }

    /** `end-call`: clears the session, then each named party; tells the
        target if present; always confirms to the sender. */
    method EndCallEvent(socketId: SocketId, to: UserId, from: UserId, callSessionId: string) returns (out: seq<Emission>)
      modifies tracker
      ensures tracker.calls == AfterEndCall(old(tracker.calls), to, from, callSessionId)
      ensures out == (match ReceiverSocketId(to)
                      case Some(target) => [Emission(ToSocket(target), CallEnded(from, callSessionId))]
                      case None => [])
                     + [Emission(ToSocket(socketId), CallEndedConfirmation(callSessionId))]
    {
      if callSessionId != "" {
        var _ := tracker.RemoveCallSession(callSessionId);
      }
      if from != "" {
        var _ := tracker.RemoveActiveCall(from);
      }
      if to != "" {
        var _ := tracker.RemoveActiveCall(to);
      }
      out := [];
      var receiverSocketId := Lookup(to);
      if receiverSocketId.Some? && receiverSocketId.value != "" {
        out := [Emission(ToSocket(receiverSocketId.value), CallEnded(from, callSessionId))];
      }
      out := out + [Emission(ToSocket(socketId), CallEndedConfirmation(callSessionId))];
    }

    /** `call-rejected`: relayed to a present target, else dropped. */
    method CallRejectedEvent(to: UserId, from: UserId, reason: Json, callSessionId: string) returns (out: seq<Emission>)
      ensures out == match ReceiverSocketId(to)
                     case Some(target) => [Emission(ToSocket(target), CallRejected(from, reason, callSessionId))]
                     case None => []
    {
      var receiverSocketId := ReceiverSocketId(to);
      if receiverSocketId.Some? {
        out := [Emission(ToSocket(receiverSocketId.value), CallRejected(from, reason, callSessionId))];
      } else {
        out := [];
      }
    }

    /** `check-user-call-status`: asks the tracker (which may reclaim a
        stale entry) and answers through the callback when there is one. */
    method CheckUserCallStatus(userId: UserId, hasCallback: bool, now: int) returns (reply: Option<bool>)
      modifies tracker
      ensures tracker.calls == AfterQuery(old(tracker.calls), userId, now)
      ensures reply == if hasCallback then Some(InCall(old(tracker.calls), userId, now)) else None
    {
      var isInCall := tracker.IsUserInCall(userId, now);
      reply := if hasCallback then Some(isInCall) else None;
    }

    /** `disconnect`: acts only while the registry still holds this socket
        for the connection's user; then clears the user's occupancy, drops
        the presence entry and broadcasts. A superseded socket changes
        nothing. */
    method Disconnect(socketId: SocketId, connectionUserId: UserId, now: int) returns (out: seq<Emission>)
      modifies this, tracker
      ensures callFailedEmitted == old(callFailedEmitted)
      ensures connectionUserId != "" && old(Lookup(connectionUserId)) == Some(socketId) ==>
        && userSocketMap == old(userSocketMap) - {connectionUserId}
        && tracker.calls == old(tracker.calls) - {connectionUserId}
        && out == [Snapshot()]
      ensures !(connectionUserId != "" && old(Lookup(connectionUserId)) == Some(socketId)) ==>
        && userSocketMap == old(userSocketMap)
        && tracker.calls == old(tracker.calls)
        && out == []
    {
      out := [];
      if connectionUserId != "" && Lookup(connectionUserId) == Some(socketId) {
        var inCall := tracker.IsUserInCall(connectionUserId, now);
        if inCall {
          var _ := tracker.RemoveActiveCall(connectionUserId);
        }
        userSocketMap := userSocketMap - {connectionUserId};
        out := [Snapshot()];
      }
    }
  }
}
