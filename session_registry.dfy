/** The registry of connected charge points (service/ocpp/ocppHandler.js): the identity taken
    from the handshake, the `connectedClients` map and the per-connection handlers that update it. */
module SessionRegistry {
  import opened Common
  import opened Strings
  import opened Collections

  // ---------------------------------------------------------------------------------------
  // Handshake identity

  /** The handshake fields the authentication handler reads; `None` is undefined. */
  datatype Handshake = Handshake(chargePointId: Option<string>, url: Option<string>)

  const Unknown: string := "unknown"

  predicate NonEmptyPiece(p: string) { |p| > 0 }

  /** The non-empty segments of a URL path, in order. */
  function PathSegments(url: string): (r: seq<string>)
    ensures forall k :: 0 <= k < |r| ==> r[k] != [] && '/' !in r[k]
  {
    Filter(Split(url, '/'), NonEmptyPiece)
  }

  /** The identity the handshake is accepted with: the handshake's own chargePointId, else the
      last non-empty segment of the URL path, else "unknown". */
  function ExtractIdentity(h: Handshake): (id: string)
    ensures id != []
    ensures h.chargePointId.Some? && h.chargePointId.value != [] ==> id == h.chargePointId.value
    ensures !(h.chargePointId.Some? && h.chargePointId.value != []) && h.url.Some? && h.url.value != []
            && PathSegments(h.url.value) != []
            ==> id == PathSegments(h.url.value)[|PathSegments(h.url.value)| - 1]
    ensures !(h.chargePointId.Some? && h.chargePointId.value != [])
            && !(h.url.Some? && h.url.value != [] && PathSegments(h.url.value) != [])
            ==> id == Unknown
  {
    var given := if h.chargePointId.Some? then h.chargePointId.value else [];
    var fromUrl :=
      if given == [] && h.url.Some? && h.url.value != [] then
        var parts := PathSegments(h.url.value);
        if parts == [] then Unknown else parts[|parts| - 1]
      else given;
    if fromUrl == [] || fromUrl == Unknown then Unknown else fromUrl
  }

  /** The last non-empty segment of `<any path>/<identity>` is the identity. */
  lemma LastPathSegment(prefix: string, identity: string)
    requires identity != [] && '/' !in identity
    ensures var ps := PathSegments(prefix + "/" + identity); ps != [] && ps[|ps| - 1] == identity
  {
    var url := prefix + "/" + identity;
    assert url == prefix + ['/'] + identity;
    SplitLastPiece(prefix, '/', identity);
    var parts := Split(url, '/');
    assert parts == parts[..|parts| - 1] + [identity];
    FilterAppend(parts[..|parts| - 1], [identity], NonEmptyPiece);
    assert Filter([identity], NonEmptyPiece) == [identity];
  }

  /** A charger connecting to `<any path>/<identity>` is known by that identity. */
  lemma IdentityFromPath(prefix: string, identity: string)
    requires identity != [] && '/' !in identity
    ensures ExtractIdentity(Handshake(None, Some(prefix + "/" + identity))) == identity
  {
    LastPathSegment(prefix, identity);
  }

  // ---------------------------------------------------------------------------------------
  // Registry entries

  datatype ConnectionState = Connected | Disconnected

  /** A transaction as the StartTransaction handler records it; the request fields it copies
      may be undefined. */
  datatype SessionTx = SessionTx(
    transactionId: int,
    connectorId: Option<int>,
    idTag: Option<string>,
    meterStart: Option<int>,
    timestamp: Option<string>,
    startedAt: int,
    stoppedAt: Option<int>,
    meterStop: Option<int>,
    reason: Option<string>)

  /** A registry entry; `client` stands for the connection object. */
  datatype ClientEntry = ClientEntry(
    client: nat,
    connectedAt: int,
    lastHeartbeat: Option<int>,
    status: ConnectionState,
    disconnectedAt: Option<int>,
    transactions: seq<SessionTx>)

  type Entries = map<string, ClientEntry>

  /** The map key a connection is registered under. */
  function RegistryKey(identity: string): (key: string)
    ensures key != []
    ensures identity != [] ==> key == identity
  {
    if identity != [] then identity else Unknown
  }

  /** On connect the entry is replaced: connected, no heartbeat yet, no transactions. */
  function Registered(entries: Entries, key: string, client: nat, now: int): (r: Entries)
    ensures r.Keys == entries.Keys + {key}
    ensures r[key] == ClientEntry(client, now, None, Connected, None, [])
    ensures forall k :: k in entries && k != key ==> r[k] == entries[k]
  {
    entries[key := ClientEntry(client, now, None, Connected, None, [])]
  }

  /** The close handler as written: it looks the entry up by the identity the closing
      connection was registered under, whichever connection holds that entry now. */
  function ClosedByIdentity(entries: Entries, key: string, now: int): (r: Entries)
    ensures r.Keys == entries.Keys
    ensures key in entries ==> r[key] == entries[key].(status := Disconnected, disconnectedAt := Some(now))
    ensures forall k :: k in entries && k != key ==> r[k] == entries[k]
  {
    if key in entries then entries[key := entries[key].(status := Disconnected, disconnectedAt := Some(now))]
    else entries
  }

  /** The close handler as evidently intended: only the closing connection's own entry is marked. */
  function ClosedByConnection(entries: Entries, key: string, client: nat, now: int): (r: Entries)
    ensures r.Keys == entries.Keys
    ensures key in entries && entries[key].client == client
            ==> r[key] == entries[key].(status := Disconnected, disconnectedAt := Some(now))
    ensures key in entries && entries[key].client != client ==> r[key] == entries[key]
    ensures forall k :: k in entries && k != key ==> r[k] == entries[k]
  {
    if key in entries && entries[key].client == client
    then entries[key := entries[key].(status := Disconnected, disconnectedAt := Some(now))]
    else entries
  }

  /** A charger that reconnects before its old socket's close event arrives is shown as
      disconnected by the handler as written, although its new connection is live. */
  lemma StaleCloseDisconnectsLiveConnection()
    ensures var e := Registered(Registered(map[], "CP1", 1, 100), "CP1", 2, 200);
            ClosedByIdentity(e, "CP1", 300)["CP1"].status == Disconnected
            && e["CP1"].client == 2
  {
  }

  /** Closing a connection never marks the entry of a later connection with the same identity. */
  lemma OnlyTheClosingConnectionIsMarked(entries: Entries, key: string, oldClient: nat, newClient: nat, t1: int, t2: int)
    requires oldClient != newClient
    ensures var e := Registered(entries, key, newClient, t1);
            ClosedByConnection(e, key, oldClient, t2)[key].status == Connected
  {
  }

  /** Heartbeat: lastHeartbeat is stamped only when the entry exists. */
  function HeartbeatAt(entries: Entries, key: string, now: int): (r: Entries)
    ensures r.Keys == entries.Keys
    ensures key in entries ==> r[key] == entries[key].(lastHeartbeat := Some(now))
    ensures forall k :: k in entries && k != key ==> r[k] == entries[k]
  {
    if key in entries then entries[key := entries[key].(lastHeartbeat := Some(now))] else entries
  }

  /** The StartTransaction request fields the handler copies. */
  datatype StartRequest = StartRequest(connectorId: Option<int>, idTag: Option<string>, meterStart: Option<int>,
                                       timestamp: Option<string>)

  /** StartTransaction: one record appended to the entry's list (when there is an entry). */
  function Started(entries: Entries, key: string, req: StartRequest, transactionId: int, now: int): (r: Entries)
    ensures r.Keys == entries.Keys
    ensures key in entries ==> r[key] == entries[key].(transactions := entries[key].transactions
              + [SessionTx(transactionId, req.connectorId, req.idTag, req.meterStart, req.timestamp, now, None, None, None)])
    ensures forall k :: k in entries && k != key ==> r[k] == entries[k]
  {
    if key in entries then
      var e := entries[key];
      entries[key := e.(transactions := e.transactions
                          + [SessionTx(transactionId, req.connectorId, req.idTag, req.meterStart, req.timestamp, now,
                                       None, None, None)])]
    else entries
  }

  /** The StopTransaction request fields the handler reads. */
  datatype StopRequest = StopRequest(transactionId: int, meterStop: Option<int>, reason: Option<string>)

  /** StopTransaction: only the first record with that id is updated; an unknown id changes nothing. */
  function Stopped(entries: Entries, key: string, req: StopRequest, now: int): (r: Entries)
    ensures r.Keys == entries.Keys
    ensures forall k :: k in entries && k != key ==> r[k] == entries[k]
    ensures key in entries ==>
              var txs := entries[key].transactions;
              var i := FirstIndex(txs, (t: SessionTx) => t.transactionId == req.transactionId);
              r[key] == if i == |txs| then entries[key]
                        else entries[key].(transactions := txs[i := txs[i].(stoppedAt := Some(now), meterStop := req.meterStop,
                                                                            reason := req.reason)])
  {
    if key in entries then
      var e := entries[key];
      var i := FirstIndex(e.transactions, (t: SessionTx) => t.transactionId == req.transactionId);
      if i == |e.transactions| then entries
      else
        entries[key := e.(transactions := e.transactions[i := e.transactions[i].(stoppedAt := Some(now),
                                                                                 meterStop := req.meterStop,
                                                                                 reason := req.reason)])]
    else entries
  }

  predicate Open(t: SessionTx) { t.stoppedAt.None? }

  /** Starting adds one open transaction to the entry. */
  lemma StartAddsOpenTransaction(entries: Entries, key: string, req: StartRequest, id: int, now: int)
    requires key in entries
    ensures var before := entries[key].transactions;
            var after := Started(entries, key, req, id, now)[key].transactions;
            |after| == |before| + 1 && Count(after, Open) == Count(before, Open) + 1
  {
    var before := entries[key].transactions;
    CountAppend(before, SessionTx(id, req.connectorId, req.idTag, req.meterStart, req.timestamp, now, None, None, None), Open);
  }

  /** Stopping an open transaction closes exactly one; the record count is unchanged. */
  lemma StopClosesOneTransaction(entries: Entries, key: string, req: StopRequest, now: int)
    requires key in entries
    requires var txs := entries[key].transactions;
             var i := FirstIndex(txs, (t: SessionTx) => t.transactionId == req.transactionId);
             i < |txs| && Open(txs[i])
    ensures var before := entries[key].transactions;
            var after := Stopped(entries, key, req, now)[key].transactions;
            |after| == |before| && Count(after, Open) == Count(before, Open) - 1
  {
    var txs := entries[key].transactions;
    var i := FirstIndex(txs, (t: SessionTx) => t.transactionId == req.transactionId);
    CountUpdate(txs, i, txs[i].(stoppedAt := Some(now), meterStop := req.meterStop, reason := req.reason), Open);
  }

  // ---------------------------------------------------------------------------------------
  // Replies

  datatype BootReply = BootReply(status: string, interval: nat, currentTime: int)

  /** BootNotification is always accepted, with a 300-second heartbeat interval. */
  function BootNotification(now: int): (r: BootReply)
    ensures r.status == "Accepted" && r.interval == 300 && r.currentTime == now
  {
    BootReply("Accepted", 300, now)
  }

  datatype StartReply = StartReply(transactionId: int, status: string)

  /** A summary line of `getAllClients`. */
  datatype ClientSummary = ClientSummary(
    chargePointId: string,
    connectedAt: int,
    lastHeartbeat: Option<int>,
    status: ConnectionState,
    transactionCount: nat,
    activeTransactions: nat)

  function Summary(key: string, e: ClientEntry): (s: ClientSummary)
    ensures s.activeTransactions <= s.transactionCount == |e.transactions|
    ensures s.activeTransactions == Count(e.transactions, Open)
  {
    ClientSummary(key, e.connectedAt, e.lastHeartbeat, e.status, |e.transactions|, Count(e.transactions, Open))
  }

  function Summaries(keys: seq<string>, entries: Entries): (r: seq<ClientSummary>)
    requires forall k :: k in keys ==> k in entries
    ensures |r| == |keys|
    ensures forall i :: 0 <= i < |r| ==> r[i] == Summary(keys[i], entries[keys[i]])
  {
    if keys == [] then [] else [Summary(keys[0], entries[keys[0]])] + Summaries(keys[1..], entries)
  }

  /** The `connectedClients` map: entries in first-insertion order (a JavaScript `Map` keeps a
      key's place when its value is replaced). */
  class Registry {
    var order: seq<string>
    var entries: Entries

    ghost predicate Valid()
      reads this
    {
      (forall i, j :: 0 <= i < j < |order| ==> order[i] != order[j])
      && forall k :: k in entries <==> k in order
    }

    constructor ()
      ensures Valid() && order == [] && entries == map[]
    {
      order := [];
      entries := map[];
    }

    /** A connection arrives: registered under its identity (or "unknown"), replacing any entry. */
    method Connect(identity: string, client: nat, now: int) returns (key: string)
      requires Valid()
      modifies this
      ensures Valid()
      ensures key == RegistryKey(identity)
      ensures entries == Registered(old(entries), key, client, now)
      ensures order == if key in old(order) then old(order) else old(order) + [key]
    {
      key := RegistryKey(identity);
      if key !in entries {
        order := order + [key];
      }
      entries := Registered(entries, key, client, now);
    }

    /** The connection registered under `key` closes; its entry is kept. */
    method Close(key: string, client: nat, now: int)
      requires Valid()
      modifies this
      ensures Valid() && order == old(order)
      ensures entries == ClosedByConnection(old(entries), key, client, now)
    {
      entries := ClosedByConnection(entries, key, client, now);
    }

    /** Heartbeat: the reply carries the current time. */
    method Heartbeat(key: string, now: int) returns (currentTime: int)
      requires Valid()
      modifies this
      ensures Valid() && order == old(order)
      ensures entries == HeartbeatAt(old(entries), key, now) && currentTime == now
    {
      entries := HeartbeatAt(entries, key, now);
      currentTime := now;
    }

    /** StartTransaction: the id is `random` (`Math.floor(Math.random() * 1000000)`); the reply is
        always Accepted. */
    method StartTransaction(key: string, req: StartRequest, random: int, now: int) returns (reply: StartReply)
      requires Valid() && 0 <= random < 1000000
      modifies this
      ensures Valid() && order == old(order)
      ensures entries == Started(old(entries), key, req, random, now)
      ensures reply == StartReply(random, "Accepted")
    {
      entries := Started(entries, key, req, random, now);
      reply := StartReply(random, "Accepted");
    }

    /** StopTransaction: the reply is always Accepted, known id or not. */
    method StopTransaction(key: string, req: StopRequest, now: int) returns (status: string)
      requires Valid()
      modifies this
      ensures Valid() && order == old(order)
      ensures entries == Stopped(old(entries), key, req, now)
      ensures status == "Accepted"
    {
      entries := Stopped(entries, key, req, now);
      status := "Accepted";
    }

    /** `getClient`: the connection of any entry, connected or not. */
    method GetClient(key: string) returns (client: Option<nat>)
      ensures client.Some? <==> key in entries
      ensures client.Some? ==> client.value == entries[key].client
    {
      client := if key in entries then Some(entries[key].client) else None;
    }

    /** `getAllClients`: one summary per entry, in map order. */
    method AllClients() returns (r: seq<ClientSummary>)
      requires Valid()
      ensures |r| == |order|
      ensures forall i :: 0 <= i < |r| ==> order[i] in entries && r[i] == Summary(order[i], entries[order[i]])
      ensures forall i :: 0 <= i < |r| ==> r[i].activeTransactions <= r[i].transactionCount
    {
      r := Summaries(order, entries);
    }
  }
}
