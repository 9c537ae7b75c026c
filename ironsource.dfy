/**
 * The ironSource reward-callback handler: client lookup, inbound signature
 * check, duplicate check on the event ledger, ledger write, and a forward to
 * the client's callback URL. Every path answers the network with the same
 * 200 acknowledgement; the paths differ only in their side effects.
 *
 * `Dispatch` is the specification of one call, as a pure function of the
 * tables and the query; `CallbackHandler.IronsourceCallback` is the handler
 * itself, a step-by-step pipeline over mutable state proved to agree with it.
 */
module IronSource {
  import opened Common

  /** The query parameters the handler reads (`custom_clientId` is the client id). */
  datatype CallbackQuery = CallbackQuery(
    clientId: string,
    eventId: string,
    rewards: string,
    signature: string,
    timestamp: string,
    userId: string)

  /** Key of the events table. */
  datatype EventKey = EventKey(clientId: string, eventId: string)

  /** Attributes the handler sets on an event item. */
  datatype EventRecord = EventRecord(rewards: string, timestamp: string, userId: string)

  /** The events table: an item exists for a key iff a query for it yields items. */
  type Ledger = map<EventKey, EventRecord>

  /** Which of the four exits of the pipeline a call takes. */
  datatype Path = ClientMissing | SignatureRejected | AlreadySent | Saved

  /**
   * Everything one call produces: its exit, the new ledger, the keys it looked
   * up in the events table, its other effects and its answer.
   */
  datatype Outcome = Outcome(
    path: Path,
    ledger: Ledger,
    lookups: seq<EventKey>,
    forwards: seq<string>,
    logs: seq<string>,
    response: LambdaResponse)

  /** The acknowledgement returned on every path. */
  function ReturnMessage(eventId: string): (r: LambdaResponse)
    ensures r.statusCode == 200
    ensures |r.body| >= 3 && r.body[..|r.body| - 3] == eventId && r.body[|r.body| - 3..] == ":OK"
  {
    LambdaResponse(200, eventId + ":OK")
  }

  /**
   * The inbound signature check: the MD5 hex digest of timestamp, event id,
   * user id, rewards and the private key, concatenated in that order, must
   * equal the supplied signature exactly. MD5 itself is a parameter.
   */
  predicate CheckSignature(md5Hex: string -> string, privateKey: string, q: CallbackQuery)
  {
    md5Hex(q.timestamp + q.eventId + q.userId + q.rewards + privateKey) == q.signature
  }

  /** Of all signatures, the check accepts exactly the digest of the signed fields. */
  lemma OnlyTheDigestIsAccepted(md5Hex: string -> string, privateKey: string, q: CallbackQuery, s: string)
    ensures CheckSignature(md5Hex, privateKey, q.(signature := s))
            <==> s == md5Hex(q.timestamp + q.eventId + q.userId + q.rewards + privateKey)
  {
  }

  /**
   * The signed fields are concatenated without separators, so two queries
   * whose fields differ only in where one field ends and the next begins
   * pass or fail the check together.
   */
  lemma SignatureIgnoresFieldBoundaries(md5Hex: string -> string, privateKey: string,
                                        q1: CallbackQuery, q2: CallbackQuery)
    requires q1.timestamp + q1.eventId + q1.userId + q1.rewards == q2.timestamp + q2.eventId + q2.userId + q2.rewards
    requires q1.signature == q2.signature
    ensures CheckSignature(md5Hex, privateKey, q1) <==> CheckSignature(md5Hex, privateKey, q2)
  {
    assert q1.timestamp + q1.eventId + q1.userId + q1.rewards + privateKey
        == q2.timestamp + q2.eventId + q2.userId + q2.rewards + privateKey;
  }

  /** Moving the boundary between event id and user id goes unnoticed by the check. */
  lemma SignatureBoundaryExample(md5Hex: string -> string, privateKey: string)
    ensures CheckSignature(md5Hex, privateKey, CallbackQuery("c", "ev1", "10", "sig", "123", "user"))
            <==> CheckSignature(md5Hex, privateKey, CallbackQuery("c", "ev", "10", "sig", "123", "1user"))
  {
    SignatureIgnoresFieldBoundaries(md5Hex, privateKey, CallbackQuery("c", "ev1", "10", "sig", "123", "user"),
                                    CallbackQuery("c", "ev", "10", "sig", "123", "1user"));
  }

  /** The callback URL as a template string renders it: `undefined` when unset. */
  function CallbackBase(client: Client): string
  {
    match client.callbackUrl
    case Some(url) => url
    case None => "undefined"
  }

  /** The last query parameter of a forwarded URL. */
  function SuccessParam(success: bool): string
  {
    if success then "&success=true" else "&success=false"
  }

  /** The forwarded URL: the callback URL and the event's fields, unescaped, and the flag. */
  function ForwardUrl(client: Client, q: CallbackQuery, success: bool): (url: string)
    ensures CallbackBase(client) + "?eventId=" <= url
    ensures |SuccessParam(success)| <= |url| && url[|url| - |SuccessParam(success)|..] == SuccessParam(success)
  {
    var head := CallbackBase(client) + "?eventId=";
    var fields := q.eventId + "&rewards=" + q.rewards + "&timestamp=" + q.timestamp + "&userId=" + q.userId;
    assert (head + fields + SuccessParam(success))[..|head|] == head;
    head + fields + SuccessParam(success)
  }

  /** Reads the `success` flag back off a forwarded URL: does it end in `true`? */
  predicate ReportsSuccess(url: string)
  {
    |url| >= 4 && url[|url| - 4..] == "true"
  }

  /** The number of forwards in `urls` that report success. */
  function SuccessCount(urls: seq<string>): nat
  {
    if urls == [] then 0
    else SuccessCount(urls[..|urls| - 1]) + (if ReportsSuccess(urls[|urls| - 1]) then 1 else 0)
  }

  /**
   * One call of the handler, as a function of the client table, the MD5
   * function, the private key, the ledger before the call and the query.
   */
  function Dispatch(clients: ClientTable, md5Hex: string -> string, privateKey: string,
                    ledger: Ledger, q: CallbackQuery): (o: Outcome)
    // every path answers with the same acknowledgement
    ensures o.response == LambdaResponse(200, q.eventId + ":OK")
    // the exits, in order, each exclusive of the others
    ensures o.path == ClientMissing <==> GetClient(clients, q.clientId).None?
    ensures o.path == SignatureRejected <==>
              GetClient(clients, q.clientId).Some? &&
              md5Hex(q.timestamp + q.eventId + q.userId + q.rewards + privateKey) != q.signature
    ensures o.path == AlreadySent <==>
              GetClient(clients, q.clientId).Some? &&
              md5Hex(q.timestamp + q.eventId + q.userId + q.rewards + privateKey) == q.signature &&
              EventKey(q.clientId, q.eventId) in ledger
    // the ledger changes only on the saving path, and there only at the inbound key
    ensures o.path != Saved ==> o.ledger == ledger
    // the events table is looked up only once the client and the signature have passed
    ensures o.path == ClientMissing || o.path == SignatureRejected ==> o.lookups == []
    ensures o.path == AlreadySent || o.path == Saved ==> o.lookups == [EventKey(q.clientId, q.eventId)]
    ensures o.path == Saved ==>
              EventKey(q.clientId, q.eventId) !in ledger &&
              o.ledger == ledger[EventKey(q.clientId, q.eventId) := EventRecord(q.rewards, q.timestamp, q.userId)]
    // a missing client is only logged
    ensures o.path == ClientMissing ==> o.forwards == [] && o.logs == [ClientNotFoundLog(q.clientId)]
    // every other path forwards exactly once, with success=true only when it saved
    ensures o.path != ClientMissing ==>
              o.logs == [] &&
              o.forwards == [ForwardUrl(GetClient(clients, q.clientId).value, q, o.path == Saved)]
  {
    var response := ReturnMessage(q.eventId);
    match GetClient(clients, q.clientId)
    case None =>
      Outcome(ClientMissing, ledger, [], [], [ClientNotFoundLog(q.clientId)], response)
    case Some(client) =>
      if !CheckSignature(md5Hex, privateKey, q) then
        Outcome(SignatureRejected, ledger, [], [ForwardUrl(client, q, false)], [], response)
      else if EventKey(q.clientId, q.eventId) in ledger then
        Outcome(AlreadySent, ledger, [EventKey(q.clientId, q.eventId)], [ForwardUrl(client, q, false)], [], response)
      else
        var saved := ledger[EventKey(q.clientId, q.eventId) := EventRecord(q.rewards, q.timestamp, q.userId)];
        Outcome(Saved, saved, [EventKey(q.clientId, q.eventId)], [ForwardUrl(client, q, true)], [], response)
  }

  /** The flag written into a forwarded URL can be read back from it. */
  lemma ForwardFlagReadable(client: Client, q: CallbackQuery, success: bool)
    ensures ReportsSuccess(ForwardUrl(client, q, success)) <==> success
  {
    var url := ForwardUrl(client, q, success);
    var param := SuccessParam(success);
    assert url[|url| - 4..] == url[|url| - |param|..][|param| - 4..];
  }

  /** Counting success forwards distributes over concatenation. */
  lemma {:induction false} SuccessCountAppend(a: seq<string>, b: seq<string>)
    ensures SuccessCount(a + b) == SuccessCount(a) + SuccessCount(b)
    decreases |b|
  {
    if b == [] {
      assert a + b == a;
    } else {
      var b' := b[..|b| - 1];
      assert (a + b)[..|a + b| - 1] == a + b';
      assert (a + b)[|a + b| - 1] == b[|b| - 1];
      SuccessCountAppend(a, b');
    }
  }

  /** A call reports success to the client exactly when it saved the event. */
  lemma SuccessForwardIffSaved(clients: ClientTable, md5Hex: string -> string, privateKey: string,
                               ledger: Ledger, q: CallbackQuery)
    ensures var o := Dispatch(clients, md5Hex, privateKey, ledger, q);
            SuccessCount(o.forwards) == if o.path == Saved then 1 else 0
  {
    var o := Dispatch(clients, md5Hex, privateKey, ledger, q);
    if o.path != ClientMissing {
      var url := ForwardUrl(GetClient(clients, q.clientId).value, q, o.path == Saved);
      ForwardFlagReadable(GetClient(clients, q.clientId).value, q, o.path == Saved);
      assert o.forwards == [url];
      assert [url][..0] == [];
    }
  }

  /**
   * Idempotence: a second call with the same inputs, on the ledger the first
   * left behind, leaves the ledger as it is and takes the same exit, except
   * that a first call that saved is followed by one that finds the duplicate.
   * Over both calls the event is saved at most once and at most one forward
   * reports success.
   */
  lemma RepeatedCallIsIdempotent(clients: ClientTable, md5Hex: string -> string, privateKey: string,
                                 ledger: Ledger, q: CallbackQuery)
    ensures var o1 := Dispatch(clients, md5Hex, privateKey, ledger, q);
            var o2 := Dispatch(clients, md5Hex, privateKey, o1.ledger, q);
            && o2.ledger == o1.ledger
            && o2.path != Saved
            && (o1.path == Saved ==> o2.path == AlreadySent)
            && (o1.path != Saved ==> o2.path == o1.path)
            && SuccessCount(o1.forwards + o2.forwards) <= 1
  {
    var o1 := Dispatch(clients, md5Hex, privateKey, ledger, q);
    var o2 := Dispatch(clients, md5Hex, privateKey, o1.ledger, q);
    SuccessForwardIffSaved(clients, md5Hex, privateKey, ledger, q);
    SuccessForwardIffSaved(clients, md5Hex, privateKey, o1.ledger, q);
    SuccessCountAppend(o1.forwards, o2.forwards);
  }

  /** The forwarded URL as one left-to-right concatenation, as the template string writes it. */
  lemma ForwardUrlFlat(client: Client, q: CallbackQuery, success: bool)
    ensures ForwardUrl(client, q, success)
            == CallbackBase(client) + "?eventId=" + q.eventId + "&rewards=" + q.rewards + "&timestamp=" + q.timestamp
               + "&userId=" + q.userId + SuccessParam(success)
  {
    var head := CallbackBase(client) + "?eventId=";
    assert head + (q.eventId + "&rewards=" + q.rewards + "&timestamp=" + q.timestamp + "&userId=" + q.userId)
        == head + q.eventId + "&rewards=" + q.rewards + "&timestamp=" + q.timestamp + "&userId=" + q.userId;
  }

  /** The fixture's URL pieces, joined. */
  lemma FixtureUrlLiteral()
    ensures "http://someurl.com" + "?eventId=" + "eventId" + "&rewards=" + "10" + "&timestamp=" + "123123"
            + "&userId=" + "userId" + "&success=true"
            == "http://someurl.com?eventId=eventId&rewards=10&timestamp=123123&userId=userId&success=true"
  {
    assert "http://someurl.com" + "?eventId=" + "eventId" == "http://someurl.com?eventId=eventId";
    assert "http://someurl.com?eventId=eventId" + "&rewards=" + "10"
        == "http://someurl.com?eventId=eventId&rewards=10";
    assert "http://someurl.com?eventId=eventId&rewards=10" + "&timestamp=" + "123123"
        == "http://someurl.com?eventId=eventId&rewards=10&timestamp=123123";
    assert "http://someurl.com?eventId=eventId&rewards=10&timestamp=123123" + "&userId=" + "userId"
        == "http://someurl.com?eventId=eventId&rewards=10&timestamp=123123&userId=userId";
    assert "http://someurl.com?eventId=eventId&rewards=10&timestamp=123123&userId=userId" + "&success=true"
        == "http://someurl.com?eventId=eventId&rewards=10&timestamp=123123&userId=userId&success=true";
  }

  /** The forwarded URL of the callback fixture, with no escaping. */
  lemma ForwardUrlFixture()
    ensures ForwardUrl(Client("testClient", Some("http://someurl.com"), None, None),
                       CallbackQuery("clientId", "eventId", "10", "9a9232cf5155cb0226cc1cb777cd926f", "123123", "userId"),
                       true)
            == "http://someurl.com?eventId=eventId&rewards=10&timestamp=123123&userId=userId&success=true"
  {
    ForwardUrlFlat(Client("testClient", Some("http://someurl.com"), None, None),
                   CallbackQuery("clientId", "eventId", "10", "9a9232cf5155cb0226cc1cb777cd926f", "123123", "userId"),
                   true);
    assert SuccessParam(true) == "&success=true";
    FixtureUrlLiteral();
  }

  /**
   * The callback fixture: the stored client's own id differs from the inbound
   * `custom_clientId`, and the event is saved under the inbound one.
   */
  lemma DispatchFixture(md5Hex: string -> string)
    requires md5Hex("123123eventIduserId10supersecret") == "9a9232cf5155cb0226cc1cb777cd926f"
    ensures var client := Client("testClient", Some("http://someurl.com"), None, None);
            var q := CallbackQuery("clientId", "eventId", "10", "9a9232cf5155cb0226cc1cb777cd926f", "123123", "userId");
            var o := Dispatch(map["clientId" := [client]], md5Hex, "supersecret", map[], q);
            && o.path == Saved
            && o.ledger == map[EventKey("clientId", "eventId") := EventRecord("10", "123123", "userId")]
            && o.forwards == [ForwardUrl(client, q, true)]
            && o.response == LambdaResponse(200, "eventId:OK")
  {
    var q := CallbackQuery("clientId", "eventId", "10", "9a9232cf5155cb0226cc1cb777cd926f", "123123", "userId");
    assert q.timestamp + q.eventId + q.userId + q.rewards + "supersecret" == "123123eventIduserId10supersecret";
  }

  /**
   * The handler's state: the client table and the configuration it reads,
   * the events table it reads and updates, and the logs of its outbound
   * requests and of its console output.
   */
  class CallbackHandler {
    const clients: ClientTable
    const privateKey: string
    const md5Hex: string -> string
    var events: Ledger
    var eventReads: seq<EventKey>
    var forwarded: seq<string>
    var log: seq<string>

    constructor (clients: ClientTable, privateKey: string, md5Hex: string -> string, events: Ledger)
      ensures this.clients == clients && this.privateKey == privateKey && this.md5Hex == md5Hex
      ensures this.events == events && eventReads == [] && forwarded == [] && log == []
    {
      this.clients := clients;
      this.privateKey := privateKey;
      this.md5Hex := md5Hex;
      this.events := events;
      eventReads := [];
      forwarded := [];
      log := [];
    }

    /** The key-condition query: does the events table hold an item for this client and event? */
    method IsEventAlreadySent(clientId: string, eventId: string) returns (sent: bool)
      modifies this`eventReads
      ensures sent <==> EventKey(clientId, eventId) in events
      ensures eventReads == old(eventReads) + [EventKey(clientId, eventId)]
    {
      eventReads := eventReads + [EventKey(clientId, eventId)];
      sent := EventKey(clientId, eventId) in events;
    }

    /** The `updateItem` upsert: sets the three attributes on the item at the key. */
    method SaveEvent(clientId: string, eventId: string, rewards: string, timestamp: string, userId: string)
      modifies this`events
      ensures events == old(events)[EventKey(clientId, eventId) := EventRecord(rewards, timestamp, userId)]
    {
      events := events[EventKey(clientId, eventId) := EventRecord(rewards, timestamp, userId)];
    }

    /** An outbound GET request. */
    method Fetch(url: string)
      modifies this`forwarded
      ensures forwarded == old(forwarded) + [url]
    {
      forwarded := forwarded + [url];
    }

    /** A console line. */
    method Log(line: string)
      modifies this`log
      ensures log == old(log) + [line]
    {
      log := log + [line];
    }

    /** The handler: each step may end the call early with the acknowledgement. */
    method IronsourceCallback(q: CallbackQuery) returns (response: LambdaResponse)
      modifies this
      ensures var o := Dispatch(clients, md5Hex, privateKey, old(events), q);
              && response == o.response
              && events == o.ledger
              && eventReads == old(eventReads) + o.lookups
              && forwarded == old(forwarded) + o.forwards
              && log == old(log) + o.logs
    {
      var client := GetClient(clients, q.clientId);
      if client.None? {
        Log(ClientNotFoundLog(q.clientId));
        return ReturnMessage(q.eventId);
      }

      if !CheckSignature(md5Hex, privateKey, q) {
        Fetch(ForwardUrl(client.value, q, false));
        return ReturnMessage(q.eventId);
      }

      var alreadySent := IsEventAlreadySent(q.clientId, q.eventId);
      if alreadySent {
        Fetch(ForwardUrl(client.value, q, false));
        return ReturnMessage(q.eventId);
      }

      SaveEvent(q.clientId, q.eventId, q.rewards, q.timestamp, q.userId);
      Fetch(ForwardUrl(client.value, q, true));
      return ReturnMessage(q.eventId);
    }
  }

  /**
   * Two consecutive deliveries of the same event to one handler: the event is
   * saved once, the second call takes the duplicate exit, and at most one
   * forward reports success.
   */
  method DeliverTwice(h: CallbackHandler, q: CallbackQuery) returns (first: LambdaResponse, second: LambdaResponse)
    modifies h
    ensures first == second == ReturnMessage(q.eventId)
    ensures old(h.forwarded) <= h.forwarded
    ensures var o1 := Dispatch(h.clients, h.md5Hex, h.privateKey, old(h.events), q);
            && h.events == o1.ledger
            && SuccessCount(h.forwarded[|old(h.forwarded)|..]) <= 1
  {
    first := h.IronsourceCallback(q);
    ghost var mid := h.forwarded;
    second := h.IronsourceCallback(q);
    RepeatedCallIsIdempotent(h.clients, h.md5Hex, h.privateKey, old(h.events), q);
    var o1 := Dispatch(h.clients, h.md5Hex, h.privateKey, old(h.events), q);
    var o2 := Dispatch(h.clients, h.md5Hex, h.privateKey, o1.ledger, q);
    assert h.forwarded[|old(h.forwarded)|..] == o1.forwards + o2.forwards;
  }
}
