/**
 * Real-time subscriptions (api/services/websocket_service.py): the
 * connection manager's three maps, the message dispatch of a connection's
 * receive loop, and status-update messages.
 *
 * A socket is an opaque number; a connection is identified by its user and
 * socket, rendered as "{user_id}_{socket}". Sending is modelled by the set
 * of connections a message reaches: `failing` names the connections whose
 * send raises, which are skipped without stopping the others.
 */
module WebSocketService {
  import opened Wrappers
  import opened Text

  /** A connection: the user it belongs to and its socket. */
  datatype ConnId = ConnId(user: string, socket: nat) {
    /** `f"{user_id}_{id(websocket)}"` */
    function Render(): string { user + "_" + NatToString(socket) }
  }

  /** The length of the longest run of decimal digits at the end of `s`. */
  function DigitSuffix(s: string): (n: nat)
    ensures n <= |s|
  {
    if s != [] && '0' <= s[|s| - 1] <= '9' then 1 + DigitSuffix(s[..|s| - 1]) else 0
  }

  /** After "_" and a run of digits, the digit suffix is exactly that run. */
  lemma {:induction false} DigitSuffixAfterSeparator(prefix: string, digits: string)
    requires forall i | 0 <= i < |digits| :: '0' <= digits[i] <= '9'
    ensures DigitSuffix(prefix + "_" + digits) == |digits|
    decreases |digits|
  {
    var s := prefix + "_" + digits;
    if digits != [] {
      assert s[..|s| - 1] == prefix + "_" + digits[..|digits| - 1];
      DigitSuffixAfterSeparator(prefix, digits[..|digits| - 1]);
    }
  }

  /** Rendered ids of different users never coincide: the digits after the last "_" fix the split. */
  lemma {:induction false} RenderSeparatesUsers(a: ConnId, b: ConnId)
    requires a.Render() == b.Render()
    ensures a.user == b.user && a.socket == b.socket
  {
    var x := a.Render();
    var da := NatToString(a.socket);
    var db := NatToString(b.socket);
    DigitSuffixAfterSeparator(a.user, da);
    DigitSuffixAfterSeparator(b.user, db);
    assert |a.user| == |b.user|;
    assert a.user == x[..|a.user|];
    assert b.user == x[..|b.user|];
    assert da == x[|a.user| + 1..];
    assert db == x[|b.user| + 1..];
    NatToStringInjective(a.socket, b.socket);
  }

  /**
   * The manager's invariant on its three maps: every user with connections
   * has a subscription set and at least one connection, every connection
   * sits under its own user, and the connections with a subscription set
   * are exactly the open ones.
   */
  predicate Consistent(active: map<string, set<ConnId>>, requests: map<ConnId, set<string>>,
                       users: map<string, set<string>>)
  {
    && (forall u | u in active :: u in users && active[u] != {})
    && (forall u, c | u in active && c in active[u] :: c.user == u)
    && (forall u, c | u in active && c in active[u] :: c in requests)
    && (forall c | c in requests :: c.user in active && c in active[c.user])
  }

  /** Registering a connection keeps the maps consistent. */
  lemma {:induction false} ConnectConsistent(active: map<string, set<ConnId>>, requests: map<ConnId, set<string>>,
                                             users: map<string, set<string>>, c: ConnId)
    requires Consistent(active, requests, users)
    ensures Consistent(active[c.user := (if c.user in active then active[c.user] else {}) + {c}],
                       requests[c := {}],
                       if c.user in active then users else users[c.user := {}])
  {
  }

  /** Dropping an open connection, and its user when it was the last, keeps the maps consistent. */
  lemma {:induction false} DisconnectConsistent(active: map<string, set<ConnId>>, requests: map<ConnId, set<string>>,
                                                users: map<string, set<string>>, c: ConnId)
    requires Consistent(active, requests, users)
    requires c.user in active && c in active[c.user]
    ensures var rest := active[c.user] - {c};
      Consistent(if rest == {} then active - {c.user} else active[c.user := rest], requests - {c}, users)
  {
  }

  class ConnectionManager {
    /** user -> that user's open connections */
    var activeConnections: map<string, set<ConnId>>
    /** connection -> job ids it follows */
    var requestSubscriptions: map<ConnId, set<string>>
    /** user -> job ids the user follows */
    var userSubscriptions: map<string, set<string>>

    /**
     * The manager's invariant: every user with connections has a
     * subscription set and at least one connection, every connection sits
     * under its own user, and the connections with a subscription set are
     * exactly the open ones.
     */
    predicate Valid()
      reads this
    {
      Consistent(activeConnections, requestSubscriptions, userSubscriptions)
    }

    /** Whether a connection is open. */
    predicate Open(c: ConnId)
      reads this
    {
      c.user in activeConnections && c in activeConnections[c.user]
    }

    constructor()
      ensures Valid()
      ensures activeConnections == map[] && requestSubscriptions == map[] && userSubscriptions == map[]
    {
      activeConnections, requestSubscriptions, userSubscriptions := map[], map[], map[];
    }

    /**
     * connect: registers the connection with no subscriptions. A user with
     * no open connection gets a fresh, empty subscription set.
     */
    method Connect(userId: string, socket: nat) returns (c: ConnId)
      requires Valid()
      modifies this
      ensures Valid()
      ensures c == ConnId(userId, socket) && c.Render() == userId + "_" + NatToString(socket)
      ensures activeConnections ==
        old(activeConnections)[userId := (if userId in old(activeConnections) then old(activeConnections)[userId] else {}) + {c}]
      ensures requestSubscriptions == old(requestSubscriptions)[c := {}]
      ensures userSubscriptions ==
        if userId in old(activeConnections) then old(userSubscriptions) else old(userSubscriptions)[userId := {}]
    {
      c := ConnId(userId, socket);
      ConnectConsistent(activeConnections, requestSubscriptions, userSubscriptions, c);
      var existing := {};
      if userId in activeConnections {
        existing := activeConnections[userId];
      } else {
        userSubscriptions := userSubscriptions[userId := {}];
      }
      activeConnections := activeConnections[userId := existing + {c}];
      requestSubscriptions := requestSubscriptions[c := {}];
    }

    /**
     * disconnect: nothing for a connection that is not open under that user;
     * otherwise the connection and its subscriptions go, and so does a user
     * left with no connection. The user's subscription set stays.
     */
    method Disconnect(c: ConnId)
      requires Valid()
      modifies this
      ensures Valid()
      ensures !(c.user in old(activeConnections) && c in old(activeConnections)[c.user]) ==>
        activeConnections == old(activeConnections) && requestSubscriptions == old(requestSubscriptions)
      ensures c.user in old(activeConnections) && c in old(activeConnections)[c.user] ==>
        && requestSubscriptions == old(requestSubscriptions) - {c}
        && (old(activeConnections)[c.user] == {c} ==> activeConnections == old(activeConnections) - {c.user})
        && (old(activeConnections)[c.user] != {c} ==>
              activeConnections == old(activeConnections)[c.user := old(activeConnections)[c.user] - {c}])
      ensures userSubscriptions == old(userSubscriptions)
      ensures !Open(c)
    {
      if c.user in activeConnections && c in activeConnections[c.user] {
        DisconnectConsistent(activeConnections, requestSubscriptions, userSubscriptions, c);
        var rest := activeConnections[c.user] - {c};
        if rest == {} {
          activeConnections := activeConnections - {c.user};
        } else {
          activeConnections := activeConnections[c.user := rest];
        }
        if c in requestSubscriptions {
          requestSubscriptions := requestSubscriptions - {c};
        }
      }
    }

    /** subscribe: adds the job to the connection's set and to the user's, where those exist. */
    method Subscribe(c: ConnId, requestId: string)
      requires Valid()
      modifies this
      ensures Valid()
      ensures activeConnections == old(activeConnections)
      ensures requestSubscriptions ==
        if c in old(requestSubscriptions) then old(requestSubscriptions)[c := old(requestSubscriptions)[c] + {requestId}]
        else old(requestSubscriptions)
      ensures userSubscriptions ==
        if c.user in old(userSubscriptions) then old(userSubscriptions)[c.user := old(userSubscriptions)[c.user] + {requestId}]
        else old(userSubscriptions)
      ensures Open(c) ==> c in Recipients(requestId)
    {
      if c in requestSubscriptions {
        requestSubscriptions := requestSubscriptions[c := requestSubscriptions[c] + {requestId}];
      }
      if c.user in userSubscriptions {
        userSubscriptions := userSubscriptions[c.user := userSubscriptions[c.user] + {requestId}];
      }
      if Open(c) {
        assert c.user in userSubscriptions && requestId in userSubscriptions[c.user];
        assert requestId in requestSubscriptions[c];
      }
    }

    /** Whether another open connection of the user still follows the job. */
    predicate FollowedElsewhere(c: ConnId, requestId: string)
      reads this
    {
      c.user in activeConnections &&
      exists d | d in activeConnections[c.user] :: d != c && d in requestSubscriptions && requestId in requestSubscriptions[d]
    }

    /**
     * unsubscribe: drops the job from the connection's set, and from the
     * user's set unless another connection of the user still follows it.
     */
    method Unsubscribe(c: ConnId, requestId: string)
      requires Valid()
      modifies this
      ensures Valid()
      ensures activeConnections == old(activeConnections)
      ensures requestSubscriptions ==
        if c in old(requestSubscriptions) then old(requestSubscriptions)[c := old(requestSubscriptions)[c] - {requestId}]
        else old(requestSubscriptions)
      ensures userSubscriptions ==
        if !FollowedElsewhere(c, requestId) && c.user in old(userSubscriptions)
        then old(userSubscriptions)[c.user := old(userSubscriptions)[c.user] - {requestId}]
        else old(userSubscriptions)
      ensures c !in Recipients(requestId)
    {
      if c in requestSubscriptions {
        requestSubscriptions := requestSubscriptions[c := requestSubscriptions[c] - {requestId}];
      }
      var stillSubscribed := false;
      if c.user in activeConnections {
        var remaining := activeConnections[c.user];
        while remaining != {}
          invariant remaining <= activeConnections[c.user]
          invariant !stillSubscribed
          invariant forall d | d in activeConnections[c.user] - remaining ::
            !(d != c && d in requestSubscriptions && requestId in requestSubscriptions[d])
          decreases remaining
        {
          var d :| d in remaining;
          if d != c && d in requestSubscriptions && requestId in requestSubscriptions[d] {
            stillSubscribed := true;
            break;
          }
          remaining := remaining - {d};
        }
      }
      assert stillSubscribed <==> FollowedElsewhere(c, requestId);
      if !stillSubscribed && c.user in userSubscriptions {
        userSubscriptions := userSubscriptions[c.user := userSubscriptions[c.user] - {requestId}];
      }
    }

    /** The connections broadcast_to_subscribers sends to: the job is in both the user's and the connection's set. */
    function Recipients(requestId: string): set<ConnId>
      reads this
    {
      set u, c | u in userSubscriptions && requestId in userSubscriptions[u] && u in activeConnections &&
                 c in activeConnections[u] && c in requestSubscriptions && requestId in requestSubscriptions[c] :: c
    }

    /** The recipients among the connections of users in `users`. */
    function RecipientsAmong(requestId: string, users: set<string>): set<ConnId>
      reads this
    {
      set u, c | u in users && u in userSubscriptions && requestId in userSubscriptions[u] && u in activeConnections &&
                 c in activeConnections[u] && c in requestSubscriptions && requestId in requestSubscriptions[c] :: c
    }

    /**
     * broadcast_to_subscribers: the message reaches exactly the recipients
     * whose send does not fail.
     */
    method BroadcastToSubscribers(requestId: string, failing: set<ConnId>) returns (delivered: set<ConnId>)
      ensures delivered == Recipients(requestId) - failing
    {
      delivered := {};
      var users := userSubscriptions.Keys;
      while users != {}
        invariant users <= userSubscriptions.Keys
        invariant delivered == RecipientsAmong(requestId, userSubscriptions.Keys - users) - failing
        decreases users
      {
        var u :| u in users;
        if requestId in userSubscriptions[u] {
          var conns := if u in activeConnections then activeConnections[u] else {};
          ghost var before := delivered;
          while conns != {}
            invariant conns <= (if u in activeConnections then activeConnections[u] else {})
            invariant delivered == before + (set c | c in (if u in activeConnections then activeConnections[u] else {}) - conns &&
                                                     c in requestSubscriptions && requestId in requestSubscriptions[c] && c !in failing)
            decreases conns
          {
            var c :| c in conns;
            if c in requestSubscriptions && requestId in requestSubscriptions[c] && c !in failing {
              delivered := delivered + {c};
            }
            conns := conns - {c};
          }
        }
        users := users - {u};
      }
      assert userSubscriptions.Keys - users == userSubscriptions.Keys;
    }

    /** broadcast_to_user: every open connection of the user whose send does not fail. */
    method BroadcastToUser(userId: string, failing: set<ConnId>) returns (delivered: set<ConnId>)
      ensures userId !in activeConnections ==> delivered == {}
      ensures userId in activeConnections ==> delivered == activeConnections[userId] - failing
    {
      delivered := {};
      if userId in activeConnections {
        var conns := activeConnections[userId];
        while conns != {}
          invariant conns <= activeConnections[userId]
          invariant delivered == (activeConnections[userId] - conns) - failing
          decreases conns
        {
          var c :| c in conns;
          if c !in failing {
            delivered := delivered + {c};
          }
          conns := conns - {c};
        }
      }
    }

    /** send_personal_message: reaches the connection only when it is open under that user and does not fail. */
    function SendPersonalMessage(c: ConnId, failing: set<ConnId>): (delivered: bool)
      reads this
      ensures delivered <==> c.user in activeConnections && c in activeConnections[c.user] && c !in failing
    {
      c.user in activeConnections && c in activeConnections[c.user] && c !in failing
    }
  }

  /**
   * Under the invariant a recipient is an open connection of a user who
   * follows the job, and it follows the job itself.
   */
  lemma {:induction false} RecipientsAreFollowers(m: ConnectionManager, requestId: string, c: ConnId)
    requires m.Valid() && c in m.Recipients(requestId)
    ensures m.Open(c) && c.user in m.userSubscriptions && requestId in m.userSubscriptions[c.user]
    ensures requestId in m.requestSubscriptions[c]
  {
    var u :| u in m.userSubscriptions && requestId in m.userSubscriptions[u] && u in m.activeConnections &&
             c in m.activeConnections[u] && c in m.requestSubscriptions && requestId in m.requestSubscriptions[c];
    assert c.user == u;
  }

  // ---------------------------------------------------------------- messages

  /** A message received from the client; Malformed stands for text that is not JSON. */
  datatype ClientMessage =
    | Malformed
    | Json(kind: Option<string>, requestId: Option<string>, timestamp: Option<string>)

  /** A message sent to the client. */
  datatype ServerMessage =
    | ConnectionEstablished(connectionId: string)
    | Subscribed(requestId: string)
    | Unsubscribed(requestId: string)
    | Pong(timestamp: Option<string>)
    | ErrorMessage(message: string)

  const UnknownMessageType: string := "Unknown message type"
  const InvalidJson: string := "Invalid JSON format"

  /** The reply to one client message; subscribe or unsubscribe without a job id gets none. */
  function ReplyTo(m: ClientMessage): (r: Option<ServerMessage>)
    ensures m.Malformed? ==> r == Some(ErrorMessage(InvalidJson))
    ensures m.Json? && m.kind == Some("subscribe") ==>
      r == if Truthy(m.requestId) then Some(Subscribed(m.requestId.value)) else None
    ensures m.Json? && m.kind == Some("unsubscribe") ==>
      r == if Truthy(m.requestId) then Some(Unsubscribed(m.requestId.value)) else None
    ensures m.Json? && m.kind == Some("ping") ==> r == Some(Pong(m.timestamp))
    ensures m.Json? && m.kind !in {Some("subscribe"), Some("unsubscribe"), Some("ping")} ==>
      r == Some(ErrorMessage(UnknownMessageType))
  {
    match m
    case Malformed => Some(ErrorMessage(InvalidJson))
    case Json(kind, requestId, timestamp) =>
      if kind == Some("subscribe") then
        if Truthy(requestId) then Some(Subscribed(requestId.value)) else None
      else if kind == Some("unsubscribe") then
        if Truthy(requestId) then Some(Unsubscribed(requestId.value)) else None
      else if kind == Some("ping") then Some(Pong(timestamp))
      else Some(ErrorMessage(UnknownMessageType))
  }

  /** The replies to a sequence of client messages, in order. */
  function Replies(ms: seq<ClientMessage>): (rs: seq<ServerMessage>)
    ensures |rs| <= |ms|
  {
    if ms == [] then []
    else
      var r := ReplyTo(ms[|ms| - 1]);
      Replies(ms[..|ms| - 1]) + (if r.Some? then [r.value] else [])
  }

  /** Pings are always answered, so a session of n pings gets n pongs. */
  lemma {:induction false} PingsAreAnswered(ms: seq<ClientMessage>)
    requires forall i | 0 <= i < |ms| :: ms[i].Json? && ms[i].kind == Some("ping")
    ensures |Replies(ms)| == |ms|
    ensures forall i | 0 <= i < |ms| :: Replies(ms)[i] == Pong(ms[i].timestamp)
    decreases |ms|
  {
    if ms != [] {
      PingsAreAnswered(ms[..|ms| - 1]);
    }
  }

  /** Whether a message is a subscribe or unsubscribe of `kind` with a (truthy) job id. */
  predicate Requests(m: ClientMessage, kind: string) {
    m.Json? && m.kind == Some(kind) && Truthy(m.requestId)
  }

  /** A connection's own job set after one message. */
  function ConnectionStep(jobs: set<string>, m: ClientMessage): set<string> {
    if Requests(m, "subscribe") then jobs + {m.requestId.value}
    else if Requests(m, "unsubscribe") then jobs - {m.requestId.value}
    else jobs
  }

  /**
   * A user's job set after one message from one of their connections: an
   * unsubscribe keeps a job that another connection of the user follows.
   */
  function UserStep(jobs: set<string>, m: ClientMessage, elsewhere: set<string>): set<string> {
    if Requests(m, "subscribe") then jobs + {m.requestId.value}
    else if Requests(m, "unsubscribe") && m.requestId.value !in elsewhere then jobs - {m.requestId.value}
    else jobs
  }

  /** The jobs followed by the user's other open connections. */
  function FollowedByOthers(active: map<string, set<ConnId>>, requests: map<ConnId, set<string>>, c: ConnId): set<string> {
    if c.user in active then
      set d, job | d in active[c.user] && d != c && d in requests && job in requests[d] :: job
    else {}
  }

  /** FollowedElsewhere is membership in FollowedByOthers. */
  lemma {:induction false} FollowedElsewhereIsOthers(m: ConnectionManager, c: ConnId, requestId: string)
    ensures m.FollowedElsewhere(c, requestId) <==>
      requestId in FollowedByOthers(m.activeConnections, m.requestSubscriptions, c)
  {
  }

  /** What the other connections follow depends only on their own entries. */
  lemma {:induction false} OthersFrame(active: map<string, set<ConnId>>, r1: map<ConnId, set<string>>,
                                       r2: map<ConnId, set<string>>, c: ConnId)
    requires r1 - {c} == r2 - {c}
    ensures FollowedByOthers(active, r1, c) == FollowedByOthers(active, r2, c)
  {
    if c.user in active {
      forall job | job in FollowedByOthers(active, r1, c)
        ensures job in FollowedByOthers(active, r2, c)
      {
        var d :| d in active[c.user] && d != c && d in r1 && job in r1[d];
        assert d in r1 - {c};
      }
      forall job | job in FollowedByOthers(active, r2, c)
        ensures job in FollowedByOthers(active, r1, c)
      {
        var d :| d in active[c.user] && d != c && d in r2 && job in r2[d];
        assert d in r2 - {c};
      }
    }
  }

  /** Registering a connection does not change what the user's other connections follow. */
  lemma {:induction false} OthersAfterConnect(active: map<string, set<ConnId>>, requests: map<ConnId, set<string>>, c: ConnId)
    ensures FollowedByOthers(active[c.user := (if c.user in active then active[c.user] else {}) + {c}], requests[c := {}], c)
      == FollowedByOthers(active, requests, c)
  {
    var a := active[c.user := (if c.user in active then active[c.user] else {}) + {c}];
    var r := requests[c := {}];
    forall job | job in FollowedByOthers(a, r, c)
      ensures job in FollowedByOthers(active, requests, c)
    {
      var d :| d in a[c.user] && d != c && d in r && job in r[d];
      assert d in active[c.user] && d in requests && job in requests[d];
    }
    forall job | job in FollowedByOthers(active, requests, c)
      ensures job in FollowedByOthers(a, r, c)
    {
      var d :| d in active[c.user] && d != c && d in requests && job in requests[d];
      assert d in a[c.user] && d in r && job in r[d];
    }
  }

  /** The user's job set after a whole session of messages. */
  function SessionJobs(start: set<string>, ms: seq<ClientMessage>, elsewhere: set<string>): set<string>
    decreases |ms|
  {
    if ms == [] then start
    else UserStep(SessionJobs(start, ms[..|ms| - 1], elsewhere), ms[|ms| - 1], elsewhere)
  }

  /** The last subscribe (true) or unsubscribe (false) of a job in a session, if any. */
  function LastRequest(ms: seq<ClientMessage>, job: string): Option<bool>
    decreases |ms|
  {
    if ms == [] then None
    else
      var m := ms[|ms| - 1];
      if Requests(m, "subscribe") && m.requestId.value == job then Some(true)
      else if Requests(m, "unsubscribe") && m.requestId.value == job then Some(false)
      else LastRequest(ms[..|ms| - 1], job)
  }

  /**
   * After a session the user follows every job whose last request was a
   * subscribe, no job whose last request was an unsubscribe that no other
   * connection follows, and exactly the jobs it started with among those
   * the session never mentioned.
   */
  lemma {:induction false} SessionJobsMeaning(start: set<string>, ms: seq<ClientMessage>, elsewhere: set<string>, job: string)
    ensures LastRequest(ms, job) == Some(true) ==> job in SessionJobs(start, ms, elsewhere)
    ensures LastRequest(ms, job) == Some(false) && job !in elsewhere ==> job !in SessionJobs(start, ms, elsewhere)
    ensures LastRequest(ms, job) == None ==> (job in SessionJobs(start, ms, elsewhere) <==> job in start)
    decreases |ms|
  {
    if ms != [] {
      SessionJobsMeaning(start, ms[..|ms| - 1], elsewhere, job);
    }
  }

  /**
   * The receive loop of handle_websocket_connection for one message: the
   * reply depends on the message alone; the connection's own job set and
   * its user's take one step, and nothing else changes.
   */
  method HandleMessage(manager: ConnectionManager, c: ConnId, m: ClientMessage) returns (reply: Option<ServerMessage>)
    requires manager.Valid()
    modifies manager
    ensures manager.Valid()
    ensures reply == ReplyTo(m)
    ensures manager.activeConnections == old(manager.activeConnections)
    ensures manager.requestSubscriptions ==
      if c in old(manager.requestSubscriptions)
      then old(manager.requestSubscriptions)[c := ConnectionStep(old(manager.requestSubscriptions)[c], m)]
      else old(manager.requestSubscriptions)
    ensures manager.userSubscriptions ==
      if c.user in old(manager.userSubscriptions)
      then old(manager.userSubscriptions)[c.user := UserStep(old(manager.userSubscriptions)[c.user], m,
             FollowedByOthers(old(manager.activeConnections), old(manager.requestSubscriptions), c))]
      else old(manager.userSubscriptions)
  {
    match m
    case Malformed =>
      reply := Some(ErrorMessage(InvalidJson));
    case Json(kind, requestId, timestamp) =>
      if kind == Some("subscribe") {
        reply := None;
        if Truthy(requestId) {
          manager.Subscribe(c, requestId.value);
          reply := Some(Subscribed(requestId.value));
        }
      } else if kind == Some("unsubscribe") {
        reply := None;
        if Truthy(requestId) {
          FollowedElsewhereIsOthers(manager, c, requestId.value);
          manager.Unsubscribe(c, requestId.value);
          reply := Some(Unsubscribed(requestId.value));
        }
      } else if kind == Some("ping") {
        reply := Some(Pong(timestamp));
      } else {
        reply := Some(ErrorMessage(UnknownMessageType));
      }
  }

  /**
   * The receive loop of handle_websocket_connection on an open connection:
   * the replies to the messages in order; the connection's own job set may
   * change, the other connections' do not, and the user's job set becomes
   * what the session makes of it.
   */
  method ReceiveLoop(manager: ConnectionManager, c: ConnId, messages: seq<ClientMessage>) returns (replies: seq<ServerMessage>)
    requires manager.Valid() && manager.Open(c)
    modifies manager
    ensures manager.Valid() && manager.Open(c)
    ensures replies == Replies(messages)
    ensures manager.activeConnections == old(manager.activeConnections)
    ensures c in manager.requestSubscriptions
    ensures manager.requestSubscriptions - {c} == old(manager.requestSubscriptions) - {c}
    ensures manager.userSubscriptions == old(manager.userSubscriptions)[c.user :=
      SessionJobs(old(manager.userSubscriptions)[c.user], messages,
                  FollowedByOthers(old(manager.activeConnections), old(manager.requestSubscriptions), c))]
  {
    ghost var requests := manager.requestSubscriptions;
    ghost var users := manager.userSubscriptions;
    ghost var others := FollowedByOthers(manager.activeConnections, requests, c);
    replies := [];
    var i := 0;
    while i < |messages|
      invariant 0 <= i <= |messages|
      invariant manager.Valid()
      invariant replies == Replies(messages[..i])
      invariant manager.activeConnections == old(manager.activeConnections)
      invariant c in manager.requestSubscriptions
      invariant manager.requestSubscriptions - {c} == requests - {c}
      invariant manager.userSubscriptions == users[c.user := SessionJobs(users[c.user], messages[..i], others)]
      decreases |messages| - i
    {
      OthersFrame(manager.activeConnections, manager.requestSubscriptions, requests, c);
      var reply := HandleMessage(manager, c, messages[i]);
      assert messages[..i + 1][..i] == messages[..i];
      if reply.Some? {
        replies := replies + [reply.value];
      }
      i := i + 1;
    }
    assert messages[..i] == messages;
  }

  /** Connecting and then disconnecting the same connection leaves only its user's entry changed. */
  lemma {:induction false} ConnectThenDisconnect(active: map<string, set<ConnId>>, requests: map<ConnId, set<string>>,
                                                 c: ConnId, r: map<ConnId, set<string>>)
    requires r - {c} == requests[c := {}] - {c}
    ensures var a := active[c.user := (if c.user in active then active[c.user] else {}) + {c}];
      var rest := a[c.user] - {c};
      (if rest == {} then a - {c.user} else a[c.user := rest]) ==
      (if c.user in active && active[c.user] - {c} != {} then active[c.user := active[c.user] - {c}] else active - {c.user})
    ensures r - {c} == requests - {c}
  {
    var a := active[c.user := (if c.user in active then active[c.user] else {}) + {c}];
    assert a[c.user] - {c} == (if c.user in active then active[c.user] - {c} else {});
    assert a - {c.user} == active - {c.user};
    if c.user in active {
      assert a[c.user := a[c.user] - {c}] == active[c.user := active[c.user] - {c}];
    }
    assert requests[c := {}] - {c} == requests - {c};
  }

  /**
   * handle_websocket_connection for a whole session: connect, confirm with
   * the rendered id, answer each message in turn, and disconnect when the
   * client goes away. Afterwards the connection and its own job set are
   * gone, every other connection and user is as before, and the user's job
   * set is what the session made of it, kept after the disconnect.
   * `messages` are the ones handled before the session ends, whichever
   * way it ends: the client disconnecting, or a message whose handling
   * raises (JSON that is not an object, an unhashable request_id), which
   * the outer handler answers with the same disconnect.
   */
  method HandleConnection(manager: ConnectionManager, userId: string, socket: nat, messages: seq<ClientMessage>)
    returns (c: ConnId, sent: seq<ServerMessage>)
    requires manager.Valid()
    modifies manager
    ensures manager.Valid()
    ensures c == ConnId(userId, socket)
    ensures sent == [ConnectionEstablished(c.Render())] + Replies(messages)
    ensures !manager.Open(c)
    ensures manager.activeConnections ==
      if userId in old(manager.activeConnections) && old(manager.activeConnections)[userId] - {c} != {}
      then old(manager.activeConnections)[userId := old(manager.activeConnections)[userId] - {c}]
      else old(manager.activeConnections) - {userId}
    ensures manager.requestSubscriptions == old(manager.requestSubscriptions) - {c}
    ensures manager.userSubscriptions == old(manager.userSubscriptions)[userId :=
      SessionJobs(if userId in old(manager.activeConnections) then old(manager.userSubscriptions)[userId] else {},
                  messages, FollowedByOthers(old(manager.activeConnections), old(manager.requestSubscriptions), c))]
  {
    OthersAfterConnect(manager.activeConnections, manager.requestSubscriptions, ConnId(userId, socket));
    c := manager.Connect(userId, socket);
    var replies := ReceiveLoop(manager, c, messages);
    ConnectThenDisconnect(old(manager.activeConnections), old(manager.requestSubscriptions), c, manager.requestSubscriptions);
    sent := [ConnectionEstablished(c.Render())] + replies;
    manager.Disconnect(c);
  }

  // ---------------------------------------------------------------- status updates

  /** The status_update message; result and error keys appear only when truthy. */
  datatype StatusUpdate = StatusUpdate(
    requestId: string, status: string, progress: nat, result: Option<map<string, string>>, error: Option<string>)

  function StatusUpdateMessage(requestId: string, status: string, progress: nat,
                               result: Option<map<string, string>>, error: Option<string>): (m: StatusUpdate)
    ensures m.requestId == requestId && m.status == status && m.progress == progress
    ensures m.result.Some? <==> result.Some? && result.value != map[]
    ensures m.result.Some? ==> m.result == result
    ensures m.error.Some? <==> Truthy(error)
    ensures m.error.Some? ==> m.error == error
  {
    StatusUpdate(requestId, status, progress,
                 if result.Some? && result.value != map[] then result else None,
                 if Truthy(error) then error else None)
  }

  /** send_status_update: the message and the connections it reaches. */
  method SendStatusUpdate(manager: ConnectionManager, requestId: string, status: string, progress: nat,
                          result: Option<map<string, string>>, error: Option<string>, failing: set<ConnId>)
    returns (m: StatusUpdate, delivered: set<ConnId>)
    ensures m == StatusUpdateMessage(requestId, status, progress, result, error)
    ensures delivered == manager.Recipients(requestId) - failing
  {
    m := StatusUpdateMessage(requestId, status, progress, result, error);
    delivered := manager.BroadcastToSubscribers(requestId, failing);
  }

  /** The story_completed message. */
  datatype StoryCompleted = StoryCompleted(storyId: string, story: map<string, string>)

  /** send_story_completed: the message reaches every open connection of the user whose send does not fail. */
  method SendStoryCompleted(manager: ConnectionManager, userId: string, storyId: string,
                            storyData: map<string, string>, failing: set<ConnId>)
    returns (m: StoryCompleted, delivered: set<ConnId>)
    ensures m == StoryCompleted(storyId, storyData)
    ensures delivered == if userId in manager.activeConnections then manager.activeConnections[userId] - failing else {}
  {
    m := StoryCompleted(storyId, storyData);
    delivered := manager.BroadcastToUser(userId, failing);
  }
}
