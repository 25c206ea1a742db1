/**
  The alternative raw WebSocket relay. A connection registers under the
  user id taken from its URL (`?userId=`), possibly none; messages of type
  offer, answer or ice-candidate are forwarded to the connection registered
  under their target, tagged with the sender's id; a closing connection
  unregisters its user id.

  Connections are identified by `ConnId`; sending is the returned
  `Delivery`. Parsing the raw text into JSON happens before the model.
 */
module WebSocketRelay {
  import opened Common
  import opened Strings

  const USER_ID_MARKER := "?userId="

  type ConnId = nat

  /** `url.split('?userId=')[1]`: the text between the first marker and the
      next one (or the end); `None` (undefined) when there is no marker. */
  function UserIdFromUrl(url: string): (r: Option<string>)
    ensures r.None? <==> !Contains(url, USER_ID_MARKER)
    ensures r.Some? ==> !Contains(r.value, USER_ID_MARKER)
  {
    SplitFirstPieces(url, USER_ID_MARKER);
    SplitPiecesFree(url, USER_ID_MARKER);
    var parts := Split(url, USER_ID_MARKER);
    if |parts| >= 2 then Some(parts[1]) else None
  }

  /** Apart from its first character the marker contains no '?', so two
      occurrences cannot overlap. */
  lemma MarkerQuestionMark(s: string, j: int, p: int)
    requires OccursAt(s, USER_ID_MARKER, j) && j < p < j + |USER_ID_MARKER|
    ensures s[p] != '?'
  {
    assert s[p] == s[j..j + |USER_ID_MARKER|][p - j];
  }

  /** A URL built from a marker-free path, the marker and a marker-free id
      yields that id. */
  lemma UserIdRoundTrip(path: string, u: string)
    requires !Contains(path, USER_ID_MARKER) && !Contains(u, USER_ID_MARKER)
    ensures UserIdFromUrl(path + USER_ID_MARKER + u) == Some(u)
  {
    var m := USER_ID_MARKER;
    var s := path + m + u;
    var k := |path|;
    assert s[k..k + |m|] == m;
    assert OccursAt(s, m, k);
    forall j | 0 <= j < k
      ensures !OccursAt(s, m, j)
    {
      if OccursAt(s, m, j) {
        if j + |m| <= k {
          assert s[j..j + |m|] == path[j..j + |m|];
          assert OccursAt(path, m, j);
          assert false;
        } else {
          MarkerQuestionMark(s, j, k);
          assert false;
        }
      }
    }
    var i := IndexOf(s, m);
    assert i.Some?;
    assert i.value == k;
    assert s[k + |m|..] == u;
    SplitNoSeparator(u, m);
    assert Split(s, m) == [s[..k]] + [u];
  }

  /** Whether a message type is forwarded. */
  predicate RelayedType(t: Option<Json>)
  {
    t == Some(Str("offer")) || t == Some(Str("answer")) || t == Some(Str("ice-candidate"))
  }

  /** The registry key a `targetUserId` value looks up: an absent target
      finds the connection registered without a user id; a value that is not
      a string finds nothing. */
  function TargetKey(target: Option<Json>): Option<Option<string>>
  {
    match target
    case None => Some(None)
    case Some(Str(s)) => Some(Some(s))
    case Some(_) => None
  }

  /** What handling a message does: forward `{type, senderId, payload}` to one
      connection, drop it, or throw (destructuring null). */
  datatype Delivery =
    | Relayed(conn: ConnId, msgType: string, senderId: Option<string>, payload: Option<Json>)
    | Dropped
    | Threw

  /** `handleMessage(senderId, data)` against the registry `clients`. */
  function Route(clients: map<Option<string>, ConnId>, senderId: Option<string>, data: Json): (d: Delivery)
    ensures d.Threw? <==> data == Null
    ensures d.Relayed? <==>
      data != Null && RelayedType(Field(data, "type")) &&
      TargetKey(Field(data, "targetUserId")).Some? && TargetKey(Field(data, "targetUserId")).value in clients
    ensures d.Relayed? ==>
      && d.conn == clients[TargetKey(Field(data, "targetUserId")).value]
      && Field(data, "type") == Some(Str(d.msgType))
      && d.senderId == senderId
      && d.payload == Field(data, "payload")
  {
    if data == Null then Threw
    else
      var t := Field(data, "type");
      var key := TargetKey(Field(data, "targetUserId"));
      if RelayedType(t) && key.Some? && key.value in clients then Relayed(clients[key.value], t.value.s, senderId, Field(data, "payload"))
      else Dropped
  }

  /** The registry after a connection closes, as written: the entry is
      removed whoever holds it now. */
  function AfterClose(clients: map<Option<string>, ConnId>, userId: Option<string>): (r: map<Option<string>, ConnId>)
    ensures userId !in r
    ensures forall k :: k != userId ==> (k in r <==> k in clients) && (k in r ==> r[k] == clients[k])
  {
    clients - {userId}
  }

  /** The registry after a connection closes, removing the entry only while
      it still belongs to the closing connection. */
  function AfterGuardedClose(clients: map<Option<string>, ConnId>, userId: Option<string>, conn: ConnId): (r: map<Option<string>, ConnId>)
    ensures userId in clients && clients[userId] == conn ==> userId !in r
    ensures userId in clients && clients[userId] != conn ==> r == clients
    ensures forall k :: k != userId ==> (k in r <==> k in clients) && (k in r ==> r[k] == clients[k])
  {
    if userId in clients && clients[userId] == conn then clients - {userId} else clients
  }

  /** An offer addressed to a user reaches the connection that registered
      last under that user's id, tagged with the sender's id. */
  lemma ConnectedUserReachable(clients: map<Option<string>, ConnId>, url: string, conn: ConnId, senderId: Option<string>, payload: Json)
    requires UserIdFromUrl(url).Some?
    ensures var u := UserIdFromUrl(url).value;
      var data := Obj(map["type" := Str("offer"), "targetUserId" := Str(u), "payload" := payload]);
      Route(clients[Some(u) := conn], senderId, data) == Relayed(conn, "offer", senderId, Some(payload))
  {
  }

  /** As written, when a user reconnects and the old connection closes
      afterwards, the user can no longer be reached. */
  lemma StaleCloseUnregistersNewer(clients: map<Option<string>, ConnId>, u: string, oldConn: ConnId, newConn: ConnId, payload: Json)
    requires oldConn != newConn
    ensures var reg := clients[Some(u) := oldConn][Some(u) := newConn];
      var data := Obj(map["type" := Str("offer"), "targetUserId" := Str(u), "payload" := payload]);
      Route(AfterClose(reg, Some(u)), None, data) == Dropped
  {
  }

  /** With the guard, the old connection's close leaves the newer
      registration in place, and the user stays reachable; the current
      connection's own close still unregisters it. */
  lemma GuardedCloseKeepsNewer(clients: map<Option<string>, ConnId>, u: string, oldConn: ConnId, newConn: ConnId, payload: Json)
    requires oldConn != newConn
    ensures var reg := clients[Some(u) := oldConn][Some(u) := newConn];
      var data := Obj(map["type" := Str("offer"), "targetUserId" := Str(u), "payload" := payload]);
      && Route(AfterGuardedClose(reg, Some(u), oldConn), None, data) == Relayed(newConn, "offer", None, Some(payload))
      && Route(AfterGuardedClose(reg, Some(u), newConn), None, data) == Dropped
  {
  }

  class WebSocketServer {
    /** userId (possibly undefined) -> connection */
    var clients: map<Option<string>, ConnId>

    constructor ()
      ensures clients == map[]
    {
      clients := map[];
    }

    /** A new connection registers under the id in its URL, replacing any
        earlier connection with the same id; the id is what its message and
        close handlers use. */
    method OnConnection(url: string, conn: ConnId) returns (userId: Option<string>)
      modifies this
      ensures userId == UserIdFromUrl(url)
      ensures clients == old(clients)[userId := conn]
    {
      userId := UserIdFromUrl(url);
      clients := clients[userId := conn];
    }

    /** A message from a connection registered as `senderId`. */
    method OnMessage(senderId: Option<string>, data: Json) returns (d: Delivery)
      ensures d == Route(clients, senderId, data)
    {
      d := Route(clients, senderId, data);
    }

    /** A connection closes: its user id is unregistered, as written. */
    method OnClose(userId: Option<string>)
      modifies this
      ensures clients == AfterClose(old(clients), userId)
    {
      clients := clients - {userId};
    }

    /** The close with the ownership check the signalling server applies to
        its own disconnects. */
    method OnCloseGuarded(userId: Option<string>, conn: ConnId)
      modifies this
      ensures clients == AfterGuardedClose(old(clients), userId, conn)
    {
      if userId in clients && clients[userId] == conn {
        clients := clients - {userId};
      }
    }
  }
}
