/**
 * The real-time session registry of the fraud-detection backend: which
 * Socket.IO sessions are connected, which sessions belong to which user, and
 * where alerts and notifications are sent.
 *
 * Socket emits, room joins and forced disconnects are recorded in an abstract
 * log of events; wall-clock time is an integer number of seconds supplied by
 * the caller.
 */
module WebSocket {
  import opened Wrappers
  import opened Strings

  /** A session with no activity for more than this many seconds is stale. */
  const StaleAfterSeconds: int := 600

  /** The three roles the role counter knows about. */
  const CountedRoles: set<string> := {"admin", "analyst", "user"}

  // ---------------------------------------------------------------------------
  // Entities
  // ---------------------------------------------------------------------------

  /** The identity `_authenticate_websocket_user` derives from a token. */
  datatype UserInfo = UserInfo(userId: string, username: string, role: string)

  /** Preferences stored by a fraud-alert subscription. */
  datatype AlertPreferences = AlertPreferences(
    enabled: bool,
    minRiskScore: real,
    includeFalsePositives: bool,
    subscribedAt: int)

  /** One entry of `connected_clients`; `role` is None when the entry has no role key. */
  datatype ClientInfo = ClientInfo(
    userId: string,
    username: string,
    role: Option<string>,
    connectedAt: int,
    lastActivity: int,
    fraudAlerts: Option<AlertPreferences>)

  /** The payload of a `subscribe_to_fraud_alerts` event; a missing key is None. */
  datatype SubscriptionRequest = SubscriptionRequest(
    enabled: Option<bool>,
    minRiskScore: Option<real>,
    includeFalsePositives: Option<bool>)

  /** A value the client sent where a number is expected. */
  datatype JsonValue = JNull | JBool(b: bool) | JNumber(n: real) | JText(s: string)

  /** The payload of an `update_fraud_threshold` event; a missing key is None. */
  datatype ThresholdRequest = ThresholdRequest(threshold: Option<JsonValue>, kind: Option<string>)

  /** An accepted threshold change, as broadcast to admins and analysts. */
  datatype ThresholdUpdate = ThresholdUpdate(kind: string, newValue: real, updatedBy: string)

  /** A risk score as received: absent, a number, or a value Python cannot compare with a number. */
  datatype RiskScore = Absent | Score(value: real) | NotComparable

  /** The fields of a fraud report that decide where its alert is routed. */
  datatype FraudData = FraudData(transactionId: Option<string>, userId: Option<string>, riskScore: RiskScore)

  datatype AlertLevel = Low | Medium | High | Critical

  /** A queued fraud alert; `riskScore` is None when the report carried none. */
  datatype FraudAlert = FraudAlert(
    id: string,
    timestamp: int,
    transactionId: Option<string>,
    userId: Option<string>,
    riskScore: Option<real>,
    level: AlertLevel)

  /** Where an emit goes: the requesting session, a room, or every client. */
  datatype Target = ToSession(sid: string) | ToRoom(room: string) | ToEveryone

  /** The observable effects on the socket layer. */
  datatype Event =
    | Emitted(name: string, to: Target)
    | Joined(sid: string, room: string)
    | Left(sid: string, room: string)
    | Dropped(sid: string)

  /** The summary `get_connected_clients_info` returns. */
  datatype ClientsSummary = ClientsSummary(totalConnections: nat, clientsByRole: map<string, nat>, activeSessions: nat)

  /** The two registry maps: session id to client, user id to session ids. */
  datatype Registry = Registry(clients: map<string, ClientInfo>, sessions: map<string, set<string>>)

  // ---------------------------------------------------------------------------
  // Authentication and classification
  // ---------------------------------------------------------------------------

  /** `auth.get('token') if auth else None`: an empty auth object has no token. */
  function AuthToken(auth: Option<map<string, string>>): Option<string> {
    if auth.Some? && "token" in auth.value then Some(auth.value["token"]) else None
  }

  function UserForRole(role: string): UserInfo {
    if role == "admin" then UserInfo("admin_001", "admin_user", "admin")
    else if role == "analyst" then UserInfo("analyst_001", "fraud_analyst", "analyst")
    else UserInfo("user_001", "regular_user", "user")
  }

  /** The role a non-empty token grants: decided by its prefix alone. */
  function RoleOfToken(token: string): (role: string)
    ensures role in CountedRoles
    ensures role == "admin" <==> IsPrefix("admin_", token)
    ensures role == "analyst" <==> !IsPrefix("admin_", token) && IsPrefix("analyst_", token)
  {
    if IsPrefix("admin_", token) then "admin"
    else if IsPrefix("analyst_", token) then "analyst"
    else "user"
  }

  /** `_authenticate_websocket_user`: None rejects the connection. */
  function Authenticate(auth: Option<map<string, string>>): (r: Option<UserInfo>)
    ensures r.None? <==> AuthToken(auth) == None || AuthToken(auth) == Some("")
    ensures r.Some? ==> r.value == UserForRole(RoleOfToken(AuthToken(auth).value))
  {
    match AuthToken(auth)
    case None => None
    case Some(token) => if token == "" then None else Some(UserForRole(RoleOfToken(token)))
  }

  /** Two tokens with the same role prefix authenticate as the same user. */
  lemma AuthenticationByPrefixOnly(a1: map<string, string>, a2: map<string, string>)
    requires "token" in a1 && "token" in a2 && a1["token"] != "" && a2["token"] != ""
    requires IsPrefix("admin_", a1["token"]) <==> IsPrefix("admin_", a2["token"])
    requires IsPrefix("analyst_", a1["token"]) <==> IsPrefix("analyst_", a2["token"])
    ensures Authenticate(Some(a1)) == Authenticate(Some(a2)) != None
  {
  }

  /** Each role is served by exactly one user id, and different roles by different ids. */
  lemma UserIdDeterminesRole(r1: string, r2: string)
    requires r1 in CountedRoles && r2 in CountedRoles
    ensures UserForRole(r1).role == r1
    ensures UserForRole(r1).userId == UserForRole(r2).userId <==> r1 == r2
  {
  }

  function LevelRank(l: AlertLevel): nat {
    match l
    case Low => 0
    case Medium => 1
    case High => 2
    case Critical => 3
  }

  /** `_get_alert_level`. */
  function AlertLevelOf(score: real): (l: AlertLevel)
    ensures l == Critical <==> score >= 90.0
    ensures l == High <==> 70.0 <= score < 90.0
    ensures l == Medium <==> 50.0 <= score < 70.0
    ensures l == Low <==> score < 50.0
  {
    if score >= 90.0 then Critical
    else if score >= 70.0 then High
    else if score >= 50.0 then Medium
    else Low
  }

  /** A higher risk score never yields a lower alert level. */
  lemma AlertLevelMonotone(x: real, y: real)
    requires x <= y
    ensures LevelRank(AlertLevelOf(x)) <= LevelRank(AlertLevelOf(y))
  {
  }

  // ---------------------------------------------------------------------------
  // The registry invariant and its two transitions
  // ---------------------------------------------------------------------------

  /**
   * `user_sessions` is exactly the inverse of the `user_id` column of
   * `connected_clients`, and never stores an empty set.
   */
  ghost predicate Consistent(r: Registry) {
    && (forall u :: u in r.sessions ==> r.sessions[u] != {})
    && (forall u, s :: u in r.sessions && s in r.sessions[u] ==> s in r.clients && r.clients[s].userId == u)
    && (forall s :: s in r.clients ==> r.clients[s].userId in r.sessions && s in r.sessions[r.clients[s].userId])
  }

  function NewClient(info: UserInfo, now: int): ClientInfo {
    ClientInfo(info.userId, info.username, Some(info.role), now, now, None)
  }

  /** The registry after the connect handler stores session `sid` for `info`. */
  function Connected(r: Registry, sid: string, info: UserInfo, now: int): Registry {
    var withEntry := if info.userId in r.sessions then r.sessions else r.sessions[info.userId := {}];
    Registry(r.clients[sid := NewClient(info, now)], withEntry[info.userId := withEntry[info.userId] + {sid}])
  }

  /**
   * Connecting stores the session for the authenticated user, adds it to that
   * user's sessions and leaves every other session and user as it was.
   */
  lemma ConnectedEffect(r: Registry, sid: string, info: UserInfo, now: int)
    ensures var r' := Connected(r, sid, info, now);
      && sid in r'.clients && r'.clients[sid].userId == info.userId
      && r'.clients[sid].lastActivity == now && r'.clients[sid].role == Some(info.role)
      && info.userId in r'.sessions && sid in r'.sessions[info.userId]
    ensures var r' := Connected(r, sid, info, now);
      && (forall s :: s != sid ==> (s in r'.clients <==> s in r.clients))
      && (forall s :: s != sid && s in r.clients ==> r'.clients[s] == r.clients[s])
      && (forall u :: u != info.userId ==> (u in r'.sessions <==> u in r.sessions))
      && (forall u :: u != info.userId && u in r.sessions ==> r'.sessions[u] == r.sessions[u])
      && (info.userId in r.sessions ==> r'.sessions[info.userId] == r.sessions[info.userId] + {sid})
      && (info.userId !in r.sessions ==> r'.sessions[info.userId] == {sid})
  {
  }

  /** The registry after the disconnect handler runs for session `sid`. */
  function Disconnected(r: Registry, sid: string): Registry
  {
    if sid !in r.clients then r
    else
      var u := r.clients[sid].userId;
      var sessions :=
        if u !in r.sessions then r.sessions
        else
          var discarded := r.sessions[u := r.sessions[u] - {sid}];
          if discarded[u] == {} then discarded - {u} else discarded;
      Registry(r.clients - {sid}, sessions)
  }

  /**
   * Disconnecting removes exactly the session, and touches the session set of
   * no user but the session's own, which loses `sid` and disappears when empty.
   */
  lemma DisconnectedEffect(r: Registry, sid: string)
    ensures var r' := Disconnected(r, sid);
      && (sid !in r.clients ==> r' == r)
      && sid !in r'.clients && r'.clients.Keys == r.clients.Keys - {sid}
      && (forall s :: s in r'.clients ==> r'.clients[s] == r.clients[s])
    ensures var r' := Disconnected(r, sid);
      sid in r.clients ==>
      var u := r.clients[sid].userId;
      && (forall v :: v != u ==> (v in r'.sessions <==> v in r.sessions))
      && (forall v :: v != u && v in r.sessions ==> r'.sessions[v] == r.sessions[v])
      && (u in r'.sessions ==> u in r.sessions && r'.sessions[u] == r.sessions[u] - {sid} != {})
      && (u in r.sessions && u !in r'.sessions ==> r.sessions[u] <= {sid})
  {
  }

  /** In a consistent registry a disconnected session is gone from both maps. */
  lemma DisconnectForgetsSession(r: Registry, sid: string)
    requires Consistent(r)
    ensures var r' := Disconnected(r, sid);
      sid !in r'.clients && forall u :: u in r'.sessions ==> sid !in r'.sessions[u]
  {
    var r' := Disconnected(r, sid);
    DisconnectedEffect(r, sid);
    forall u | u in r'.sessions ensures sid !in r'.sessions[u] {
      if sid in r.clients && u != r.clients[sid].userId {
        assert r'.sessions[u] == r.sessions[u];
      }
    }
  }

  /** What the connect handler emits once the user is stored: room joins, the welcome, the admin notice. */
  function ConnectEmits(sid: string, info: UserInfo): (es: seq<Event>)
    ensures Joined(sid, "user_" + info.userId) in es && Joined(sid, "role_" + info.role) in es
    ensures Emitted("connection_established", ToSession(sid)) in es
    ensures Emitted("admin_connected", ToRoom("role_admin")) in es <==> info.role == "admin"
    ensures |es| == 3 + (if info.role == "admin" then 1 else 0)
    ensures es[0] == Joined(sid, "user_" + info.userId) && es[1] == Joined(sid, "role_" + info.role)
    ensures es[2] == Emitted("connection_established", ToSession(sid))
  {
    [Joined(sid, "user_" + info.userId), Joined(sid, "role_" + info.role),
     Emitted("connection_established", ToSession(sid))]
    + (if info.role == "admin" then [Emitted("admin_connected", ToRoom("role_admin"))] else [])
  }

  /** Connecting a fresh session keeps the two maps consistent. */
  lemma ConnectPreservesConsistency(r: Registry, sid: string, info: UserInfo, now: int)
    requires Consistent(r) && sid !in r.clients
    ensures Consistent(Connected(r, sid, info, now))
  {
    var r' := Connected(r, sid, info, now);
    ConnectedEffect(r, sid, info, now);
    forall u, s | u in r'.sessions && s in r'.sessions[u]
      ensures s in r'.clients && r'.clients[s].userId == u
    {
      if s != sid {
        assert u in r.sessions && s in r.sessions[u];
      }
    }
  }

  /** Disconnecting any session keeps the two maps consistent. */
  lemma DisconnectPreservesConsistency(r: Registry, sid: string)
    requires Consistent(r)
    ensures Consistent(Disconnected(r, sid))
  {
    var r' := Disconnected(r, sid);
    DisconnectedEffect(r, sid);
    if sid in r.clients {
      forall s | s in r'.clients
        ensures r'.clients[s].userId in r'.sessions && s in r'.sessions[r'.clients[s].userId]
      {
        var u := r.clients[s].userId;
        assert s in r.sessions[u] && s != sid;
      }
    }
  }

  /** The set of user ids of a client map. */
  function UserIds(clients: map<string, ClientInfo>): set<string> {
    set s | s in clients :: clients[s].userId
  }

  lemma {:induction false} UserIdsAtMostClients(clients: map<string, ClientInfo>)
    ensures |UserIds(clients)| <= |clients|
    decreases |clients|
  {
    if clients != map[] {
      var x :| x in clients;
      var rest := clients - {x};
      assert rest.Keys == clients.Keys - {x};
      assert |rest| == |clients| - 1;
      UserIdsAtMostClients(rest);
      assert UserIds(clients) <= UserIds(rest) + {clients[x].userId} by {
        forall u | u in UserIds(clients) ensures u in UserIds(rest) + {clients[x].userId} {
          var s :| s in clients && clients[s].userId == u;
          if s != x { assert s in rest; }
        }
      }
      SubsetCardinality(UserIds(clients), UserIds(rest) + {clients[x].userId});
    }
  }

  lemma SubsetCardinality(a: set<string>, b: set<string>)
    requires a <= b
    ensures |a| <= |b|
  {
    assert b == a + (b - a);
  }

  /** In a consistent registry there are never more users with sessions than sessions. */
  lemma ActiveSessionsAtMostConnections(r: Registry)
    requires Consistent(r)
    ensures |r.sessions| <= |r.clients|
  {
    assert r.sessions.Keys == UserIds(r.clients) by {
      forall u | u in r.sessions ensures u in UserIds(r.clients) {
        var s :| s in r.sessions[u];
        assert s in r.clients && r.clients[s].userId == u;
      }
    }
    UserIdsAtMostClients(r.clients);
  }

  // ---------------------------------------------------------------------------
  // Role counting, stale sessions, routing
  // ---------------------------------------------------------------------------

  /** `client_info.get('role', 'user')`. */
  function EffectiveRole(c: ClientInfo): string {
    if c.role.Some? then c.role.value else "user"
  }

  /** The sessions among `keys` whose client has role `role`. */
  function WithRole(clients: map<string, ClientInfo>, keys: set<string>, role: string): set<string> {
    set s | s in keys && s in clients && EffectiveRole(clients[s]) == role
  }

  function RoleCount(clients: map<string, ClientInfo>, role: string): nat {
    |WithRole(clients, clients.Keys, role)|
  }

  /** The three role counts partition the clients whose role is one of the counted ones. */
  lemma RoleCountsSum(clients: map<string, ClientInfo>)
    ensures RoleCount(clients, "admin") + RoleCount(clients, "analyst") + RoleCount(clients, "user")
         == |set s | s in clients && EffectiveRole(clients[s]) in CountedRoles|
  {
    var a := WithRole(clients, clients.Keys, "admin");
    var n := WithRole(clients, clients.Keys, "analyst");
    var u := WithRole(clients, clients.Keys, "user");
    assert a !! n && a !! u && n !! u;
    assert (set s | s in clients && EffectiveRole(clients[s]) in CountedRoles) == a + n + u;
  }

  /** A client with no role is counted as a user. */
  lemma NoRoleCountsAsUser(clients: map<string, ClientInfo>, s: string)
    requires s in clients && clients[s].role.None?
    ensures s in WithRole(clients, clients.Keys, "user")
  {
  }

  predicate IsStale(c: ClientInfo, now: int) {
    now - c.lastActivity > StaleAfterSeconds
  }

  /** The rooms a fraud alert goes to, in emit order. */
  function AlertEmits(alert: FraudAlert): (es: seq<Event>)
    ensures |es| > 0 && es[0] == Emitted("fraud_alert", ToRoom("fraud_alerts"))
    ensures Emitted("critical_fraud_alert", ToRoom("role_admin")) in es <==> alert.level == Critical
    ensures (exists u :: Emitted("user_fraud_alert", ToRoom("user_" + u)) in es)
        <==> alert.userId.Some? && alert.userId.value != ""
    ensures alert.userId.Some? && alert.userId.value != "" ==>
      Emitted("user_fraud_alert", ToRoom("user_" + alert.userId.value)) in es
    ensures |es| == 1 + (if alert.userId.Some? && alert.userId.value != "" then 1 else 0)
                      + (if alert.level == Critical then 1 else 0)
    ensures forall i :: 1 <= i < |es| ==>
      || (alert.userId.Some? && es[i] == Emitted("user_fraud_alert", ToRoom("user_" + alert.userId.value)))
      || es[i] == Emitted("critical_fraud_alert", ToRoom("role_admin"))
    ensures forall e :: e in es ==> e.Emitted? && e.to.ToRoom?
  {
    var userPart :=
      if alert.userId.Some? && alert.userId.value != ""
      then [Emitted("user_fraud_alert", ToRoom("user_" + alert.userId.value))] else [];
    var adminPart := if alert.level == Critical then [Emitted("critical_fraud_alert", ToRoom("role_admin"))] else [];
    [Emitted("fraud_alert", ToRoom("fraud_alerts"))] + userPart + adminPart
  }

  /** A critical alert for a user reaches that user's room and the admin room. */
  lemma CriticalAlertRouting(alert: FraudAlert, score: real)
    requires alert.riskScore == Some(score) && alert.level == AlertLevelOf(score) && score >= 90.0
    requires alert.userId.Some? && alert.userId.value != ""
    ensures AlertEmits(alert) == [Emitted("fraud_alert", ToRoom("fraud_alerts")),
                                  Emitted("user_fraud_alert", ToRoom("user_" + alert.userId.value)),
                                  Emitted("critical_fraud_alert", ToRoom("role_admin"))]
  {
  }

  /** One notification emit per target role, to that role's room, in list order. */
  function RoleNotifications(roles: seq<string>): (es: seq<Event>)
    ensures |es| == |roles|
    ensures forall i :: 0 <= i < |roles| ==> es[i] == Emitted("system_notification", ToRoom("role_" + roles[i]))
  {
    if roles == [] then [] else [Emitted("system_notification", ToRoom("role_" + roles[0]))] + RoleNotifications(roles[1..])
  }

  /** `handle_fraud_threshold_update`'s checks, in the order the handler makes them. */
  function ThresholdDecision(clients: map<string, ClientInfo>, sid: string, data: Option<ThresholdRequest>): (r: Result<ThresholdUpdate, string>)
    ensures r.Ok? <==> && sid in clients && clients[sid].role == Some("admin")
                       && data.Some? && data.value.threshold.Some?
                       && NumericValue(data.value.threshold.value).Some?
                       && 0.0 <= NumericValue(data.value.threshold.value).value <= 100.0
    ensures sid !in clients ==> r == Err("Not authenticated")
    ensures sid in clients && clients[sid].role != Some("admin") ==> r == Err("Insufficient privileges")
    ensures sid in clients && clients[sid].role == Some("admin") && data.None? ==>
      r == Err("Failed to update threshold")
    ensures sid in clients && clients[sid].role == Some("admin") && data.Some? && !r.Ok? ==>
      r == Err("Invalid threshold value")
    ensures r.Ok? ==>
      && r.value.newValue == NumericValue(data.value.threshold.value).value
      && r.value.kind == (if data.value.kind.Some? then data.value.kind.value else "risk_score")
      && r.value.updatedBy == clients[sid].username && 0.0 <= r.value.newValue <= 100.0
  {
    if sid !in clients then Err("Not authenticated")
    else if clients[sid].role != Some("admin") then Err("Insufficient privileges")
    else if data.None? then Err("Failed to update threshold")
    else
      var kind := if data.value.kind.Some? then data.value.kind.value else "risk_score";
      var value := if data.value.threshold.Some? then NumericValue(data.value.threshold.value) else None;
      if value.None? || value.value < 0.0 || value.value > 100.0 then Err("Invalid threshold value")
      else Ok(ThresholdUpdate(kind, value.value, clients[sid].username))
  }

  /** `isinstance(v, (int, float))` holds of numbers and, since `bool` subclasses `int`, of booleans. */
  function NumericValue(v: JsonValue): Option<real> {
    match v
    case JNumber(n) => Some(n)
    case JBool(b) => Some(if b then 1.0 else 0.0)
    case _ => None
  }

  /** What the threshold handler emits for a decision. */
  function ThresholdEmits(sid: string, d: Result<ThresholdUpdate, string>): seq<Event> {
    if d.Err? then [Emitted("error", ToSession(sid))]
    else [Emitted("threshold_updated", ToRoom("role_admin")),
          Emitted("threshold_updated", ToRoom("role_analyst")),
          Emitted("threshold_update_success", ToSession(sid))]
  }

  /** A rejected threshold update notifies nobody but the requester. */
  lemma RejectedThresholdNotifiesNobody(clients: map<string, ClientInfo>, sid: string, data: Option<ThresholdRequest>)
    requires ThresholdDecision(clients, sid, data).Err?
    ensures forall e :: e in ThresholdEmits(sid, ThresholdDecision(clients, sid, data)) ==> e.Emitted? && e.to == ToSession(sid)
  {
  }

  // ---------------------------------------------------------------------------
  // The manager
  // ---------------------------------------------------------------------------

  class WebSocketManager {
    var connectedClients: map<string, ClientInfo>
    var userSessions: map<string, set<string>>
    /** Alerts accepted by `send_fraud_alert` and not yet sent. */
    var fraudQueue: seq<FraudAlert>
    /** Whether `socketio` was initialised, which happens when an app is supplied. */
    var socketReady: bool
    /** Every emit, room change and forced disconnect, oldest first. */
    var log: seq<Event>

    function State(): Registry
      reads this
    {
      Registry(connectedClients, userSessions)
    }

    ghost predicate Valid()
      reads this
    {
      Consistent(State())
    }

    constructor(withApp: bool)
      ensures Valid()
      ensures connectedClients == map[] && userSessions == map[]
      ensures fraudQueue == [] && log == [] && socketReady == withApp
    {
      connectedClients := map[];
      userSessions := map[];
      fraudQueue := [];
      socketReady := withApp;
      log := [];
    }

    /** The `connect` handler. */
    method HandleConnect(sid: string, auth: Option<map<string, string>>, now: int) returns (accepted: bool)
      modifies this
      ensures accepted <==> Authenticate(auth).Some?
      ensures !accepted ==> State() == old(State()) && log == old(log) + [Dropped(sid)]
      ensures accepted ==> State() == Connected(old(State()), sid, Authenticate(auth).value, now)
      ensures accepted ==> log == old(log) + ConnectEmits(sid, Authenticate(auth).value)
      ensures old(Valid()) && sid !in old(connectedClients) ==> Valid()
      ensures fraudQueue == old(fraudQueue) && socketReady == old(socketReady)
    {
      var user := Authenticate(auth);
      if user.None? {
        log := log + [Dropped(sid)];
        return false;
      }
      var info := user.value;
      ghost var before := State();
      connectedClients := connectedClients[sid := NewClient(info, now)];
      if info.userId !in userSessions {
        userSessions := userSessions[info.userId := {}];
      }
      userSessions := userSessions[info.userId := userSessions[info.userId] + {sid}];
      assert connectedClients == Connected(before, sid, info, now).clients;
      assert userSessions == Connected(before, sid, info, now).sessions;
      log := log + ConnectEmits(sid, info);
      accepted := true;
      if Consistent(before) && sid !in before.clients {
        ConnectPreservesConsistency(before, sid, info, now);
      }
    }

    /** The `disconnect` handler. */
    method HandleDisconnect(sid: string)
      modifies this
      ensures State() == Disconnected(old(State()), sid)
      ensures sid !in old(connectedClients) ==> log == old(log)
      ensures sid in old(connectedClients) ==>
        var c := old(connectedClients)[sid];
        log == old(log) + [Left(sid, "user_" + c.userId), Left(sid, "role_" + EffectiveRole(c))]
                        + (if c.role == Some("admin") then [Emitted("admin_disconnected", ToRoom("role_admin"))] else [])
      ensures old(Valid()) ==> Valid()
      ensures fraudQueue == old(fraudQueue) && socketReady == old(socketReady)
    {
      ghost var before := State();
      if sid in connectedClients {
        var client := connectedClients[sid];
        var u := client.userId;
        if u in userSessions {
          userSessions := userSessions[u := userSessions[u] - {sid}];
          if userSessions[u] == {} {
            userSessions := userSessions - {u};
          }
        }
        connectedClients := connectedClients - {sid};
        log := log + [Left(sid, "user_" + u), Left(sid, "role_" + EffectiveRole(client))];
        if client.role == Some("admin") {
          log := log + [Emitted("admin_disconnected", ToRoom("role_admin"))];
        }
      }
      assert connectedClients == Disconnected(before, sid).clients;
      assert userSessions == Disconnected(before, sid).sessions;
      if Consistent(before) {
        DisconnectPreservesConsistency(before, sid);
      }
    }

    /** The `ping` handler: refreshes a known session's activity time. */
    method HandlePing(sid: string, now: int)
      modifies this
      ensures sid in old(connectedClients) ==>
        connectedClients == old(connectedClients)[sid := old(connectedClients)[sid].(lastActivity := now)]
        && log == old(log) + [Emitted("pong", ToSession(sid))]
      ensures sid !in old(connectedClients) ==> connectedClients == old(connectedClients) && log == old(log)
      ensures userSessions == old(userSessions) && fraudQueue == old(fraudQueue) && socketReady == old(socketReady)
      ensures old(Valid()) ==> Valid()
    {
      if sid in connectedClients {
        connectedClients := connectedClients[sid := connectedClients[sid].(lastActivity := now)];
        log := log + [Emitted("pong", ToSession(sid))];
      }
    }

    /**
     * The `subscribe_to_fraud_alerts` handler. `data` is None when the payload
     * is not an object: the room is joined before the payload is read, so the
     * session joins and then receives an error.
     */
    method HandleSubscribe(sid: string, data: Option<SubscriptionRequest>, now: int)
      modifies this
      ensures sid !in old(connectedClients) ==>
        connectedClients == old(connectedClients) && log == old(log) + [Emitted("error", ToSession(sid))]
      ensures sid in old(connectedClients) && data.None? ==>
        connectedClients == old(connectedClients)
        && log == old(log) + [Joined(sid, "fraud_alerts"), Emitted("error", ToSession(sid))]
      ensures sid in old(connectedClients) && data.Some? ==>
        var req := data.value;
        var prefs := AlertPreferences(
          if req.enabled.Some? then req.enabled.value else true,
          if req.minRiskScore.Some? then req.minRiskScore.value else 70.0,
          if req.includeFalsePositives.Some? then req.includeFalsePositives.value else false,
          now);
        && connectedClients == old(connectedClients)[sid := old(connectedClients)[sid].(fraudAlerts := Some(prefs))]
        && log == old(log) + [Joined(sid, "fraud_alerts"), Emitted("subscription_confirmed", ToSession(sid))]
      ensures userSessions == old(userSessions) && fraudQueue == old(fraudQueue) && socketReady == old(socketReady)
      ensures old(Valid()) ==> Valid()
    {
      if sid !in connectedClients {
        log := log + [Emitted("error", ToSession(sid))];
        return;
      }
      log := log + [Joined(sid, "fraud_alerts")];
      if data.None? {
        log := log + [Emitted("error", ToSession(sid))];
        return;
      }
      var req := data.value;
      var prefs := AlertPreferences(
        if req.enabled.Some? then req.enabled.value else true,
        if req.minRiskScore.Some? then req.minRiskScore.value else 70.0,
        if req.includeFalsePositives.Some? then req.includeFalsePositives.value else false,
        now);
      connectedClients := connectedClients[sid := connectedClients[sid].(fraudAlerts := Some(prefs))];
      log := log + [Emitted("subscription_confirmed", ToSession(sid))];
    }

    /** The `request_live_stats` handler. */
    method HandleLiveStatsRequest(sid: string)
      modifies this`log
      ensures sid !in connectedClients ==> log == old(log) + [Emitted("error", ToSession(sid))]
      ensures sid in connectedClients ==>
        log == old(log) + [Emitted("live_stats_update", ToSession(sid)), Joined(sid, "live_stats")]
    {
      if sid !in connectedClients {
        log := log + [Emitted("error", ToSession(sid))];
        return;
      }
      log := log + [Emitted("live_stats_update", ToSession(sid)), Joined(sid, "live_stats")];
    }

    /**
     * `send_fraud_alert`: builds the alert and queues it. A risk score Python
     * cannot compare with a number makes the level computation raise, and
     * nothing is queued.
     */
    method SendFraudAlert(data: FraudData, alertId: string, now: int) returns (queued: bool)
      modifies this`fraudQueue
      ensures queued <==> !data.riskScore.NotComparable?
      ensures !queued ==> fraudQueue == old(fraudQueue)
      ensures queued ==>
        var score := if data.riskScore.Score? then data.riskScore.value else 0.0;
        fraudQueue == old(fraudQueue) + [FraudAlert(alertId, now, data.transactionId, data.userId,
                                                    if data.riskScore.Score? then Some(data.riskScore.value) else None,
                                                    AlertLevelOf(score))]
    {
      if data.riskScore.NotComparable? {
        return false;
      }
      var score := if data.riskScore.Score? then data.riskScore.value else 0.0;
      var alert := FraudAlert(alertId, now, data.transactionId, data.userId,
                              if data.riskScore.Score? then Some(data.riskScore.value) else None,
                              AlertLevelOf(score));
      fraudQueue := fraudQueue + [alert];
      queued := true;
    }

    /** One step of the alert-processing loop: send the oldest queued alert. */
    method ProcessNextAlert()
      modifies this`fraudQueue, this`log
      ensures old(fraudQueue) == [] ==> fraudQueue == [] && log == old(log)
      ensures old(fraudQueue) != [] ==>
        fraudQueue == old(fraudQueue)[1..]
        && log == old(log) + (if socketReady then AlertEmits(old(fraudQueue)[0]) else [])
    {
      if fraudQueue != [] {
        var alert := fraudQueue[0];
        fraudQueue := fraudQueue[1..];
        if socketReady {
          log := log + AlertEmits(alert);
        }
      }
    }

    /** `send_system_notification`: one emit per target role, or one to everyone. */
    method SendSystemNotification(targetRoles: Option<seq<string>>)
      modifies this`log
      ensures !socketReady ==> log == old(log)
      ensures socketReady && targetRoles.Some? && targetRoles.value != [] ==>
        log == old(log) + RoleNotifications(targetRoles.value)
      ensures socketReady && (targetRoles.None? || targetRoles.value == []) ==>
        log == old(log) + [Emitted("system_notification", ToEveryone)]
    {
      if !socketReady {
        return;
      }
      if targetRoles.Some? && targetRoles.value != [] {
        var roles := targetRoles.value;
        for i := 0 to |roles|
          invariant log == old(log) + RoleNotifications(roles[..i])
        {
          assert roles[..i + 1] == roles[..i] + [roles[i]];
          NotificationsAppend(roles[..i], roles[i]);
          log := log + [Emitted("system_notification", ToRoom("role_" + roles[i]))];
        }
        assert roles[..|roles|] == roles;
      } else {
        log := log + [Emitted("system_notification", ToEveryone)];
      }
    }

    /** `update_fraud_threshold`: decides, then emits per the decision. */
    method HandleThresholdUpdate(sid: string, data: Option<ThresholdRequest>) returns (d: Result<ThresholdUpdate, string>)
      modifies this`log
      ensures d == ThresholdDecision(connectedClients, sid, data)
      ensures log == old(log) + ThresholdEmits(sid, d)
    {
      d := ThresholdDecision(connectedClients, sid, data);
      log := log + ThresholdEmits(sid, d);
    }

    /** `_get_clients_by_role`: counts clients per counted role. */
    method ClientsByRole() returns (counts: map<string, nat>)
      ensures counts.Keys == CountedRoles
      ensures forall role :: role in counts ==> counts[role] == RoleCount(connectedClients, role)
    {
      counts := map["admin" := 0, "analyst" := 0, "user" := 0];
      CountsStart(connectedClients);
      var remaining := connectedClients.Keys;
      ghost var done: set<string> := {};
      while remaining != {}
        invariant remaining <= connectedClients.Keys && done == connectedClients.Keys - remaining
        invariant counts.Keys == CountedRoles
        invariant CountsAgree(counts, connectedClients, done)
        decreases remaining
      {
        var s :| s in remaining;
        var role := EffectiveRole(connectedClients[s]);
        CountsStep(counts, connectedClients, done, s);
        if role in counts {
          counts := counts[role := counts[role] + 1];
        }
        remaining := remaining - {s};
        done := done + {s};
      }
      assert done == connectedClients.Keys;
    }

    /** `get_connected_clients_info`. */
    method ConnectedClientsInfo() returns (info: ClientsSummary)
      requires Valid()
      ensures info.totalConnections == |connectedClients|
      ensures info.activeSessions == |userSessions|
      ensures info.activeSessions <= info.totalConnections
      ensures info.clientsByRole.Keys == CountedRoles
      ensures forall role :: role in CountedRoles ==> info.clientsByRole[role] == RoleCount(connectedClients, role)
    {
      var byRole := ClientsByRole();
      ActiveSessionsAtMostConnections(State());
      info := ClientsSummary(|connectedClients|, byRole, |userSessions|);
    }

    /** The selection half of the health check: sessions idle for more than ten minutes. */
    method StaleSessions(now: int) returns (stale: seq<string>)
      ensures forall s :: s in stale <==> s in connectedClients && IsStale(connectedClients[s], now)
      ensures forall i, j :: 0 <= i < j < |stale| ==> stale[i] != stale[j]
    {
      stale := [];
      var remaining := connectedClients.Keys;
      while remaining != {}
        invariant remaining <= connectedClients.Keys
        invariant forall s :: s in stale <==> s in connectedClients.Keys - remaining && IsStale(connectedClients[s], now)
        invariant forall i, j :: 0 <= i < j < |stale| ==> stale[i] != stale[j]
        decreases remaining
      {
        var s :| s in remaining;
        if IsStale(connectedClients[s], now) {
          stale := stale + [s];
        }
        remaining := remaining - {s};
      }
    }
  }

  lemma NotificationsAppend(roles: seq<string>, role: string)
    ensures RoleNotifications(roles + [role]) == RoleNotifications(roles) + [Emitted("system_notification", ToRoom("role_" + role))]
  {
  }

  /** Each tallied role holds the number of clients among `done` with that role. */
  ghost predicate CountsAgree(counts: map<string, nat>, clients: map<string, ClientInfo>, done: set<string>) {
    forall role :: role in counts ==> counts[role] == |WithRole(clients, done, role)|
  }

  /** The zeroed tally agrees with an empty set of visited clients. */
  lemma CountsStart(clients: map<string, ClientInfo>)
    ensures var zero := map["admin" := 0, "analyst" := 0, "user" := 0];
      zero.Keys == CountedRoles && CountsAgree(zero, clients, {})
  {
  }

  /** Tallying one more client keeps the counts in agreement. */
  lemma CountsStep(counts: map<string, nat>, clients: map<string, ClientInfo>, done: set<string>, s: string)
    requires CountsAgree(counts, clients, done) && s in clients && s !in done
    ensures var role := EffectiveRole(clients[s]);
      var next := if role in counts then counts[role := counts[role] + 1] else counts;
      next.Keys == counts.Keys && CountsAgree(next, clients, done + {s})
  {
    forall r | r in counts {
      WithRoleStep(clients, done, s, r);
    }
  }

  lemma WithRoleStep(clients: map<string, ClientInfo>, done: set<string>, s: string, role: string)
    requires s in clients && s !in done
    ensures |WithRole(clients, done + {s}, role)| == |WithRole(clients, done, role)| + (if EffectiveRole(clients[s]) == role then 1 else 0)
  {
    if EffectiveRole(clients[s]) == role {
      assert WithRole(clients, done + {s}, role) == WithRole(clients, done, role) + {s};
    } else {
      assert WithRole(clients, done + {s}, role) == WithRole(clients, done, role);
    }
  }
}
