/**
 * The eCPM lookup handler: a read-only chain of three checks (the client
 * exists, its secret matches, a record exists for the app and date), each
 * failing with its own 400 answer, in that order.
 *
 * The handler is a function of the two tables it queries and of the query.
 * Besides its answer it reports the queries it issued and the lines it
 * logged; it returns no table, so it writes none.
 */
module Ecpm {
  import opened Common

  /** The query parameters of a lookup; a request may omit `secret`. */
  datatype EcpmQuery = EcpmQuery(appKey: string, date: string, secret: Option<string>)

  /** A stored eCPM record; an item without an `eCPM` attribute reads as undefined. */
  datatype EcpmRecord = EcpmRecord(clientId: string, date: string, eCPM: Option<real>)

  /** Key of the eCPM table. */
  datatype RecordKey = RecordKey(clientId: string, date: string)

  /** The eCPM table as seen through its key-condition query (an absent key: `Items` undefined). */
  type EcpmTable = map<RecordKey, seq<EcpmRecord>>

  /** A query the handler issues. */
  datatype TableRead = ClientRead(clientId: string) | RecordRead(key: RecordKey)

  /** What one call produces: the answer, the queries in the order issued, and the log lines. */
  datatype Lookup = Lookup(response: LambdaResponse, queries: seq<TableRead>, logs: seq<string>)

  const INCORRECT_CLIENT: string := "{\"error\":\"Incorrect client\"}"
  const INCORRECT_SECRET: string := "{\"error\":\"Incorrect secret\"}"
  const RECORD_NOT_FOUND: string := "{\"error\":\"Could not find record\"}"

  /** Record lookup: none when the query yields no `Items` or an empty list, else the first item. */
  function GetEcpm(table: EcpmTable, clientId: string, date: string): (r: Option<EcpmRecord>)
    ensures r.None? <==> RecordKey(clientId, date) !in table || |table[RecordKey(clientId, date)]| == 0
    ensures r.Some? ==> r.value == table[RecordKey(clientId, date)][0]
  {
    var key := RecordKey(clientId, date);
    if key in table && |table[key]| > 0 then Some(table[key][0]) else None
  }

  /**
   * `JSON.stringify({ eCPM: value })`: the number as JavaScript prints it
   * (a parameter here), or `{}` when the attribute is undefined.
   */
  function EcpmBody(value: Option<real>, formatNumber: real -> string): (body: string)
    ensures body == "{}" <==> value.None?
    ensures value.Some? ==>
              && |body| >= 9 && body[..8] == "{\"eCPM\":" && body[|body| - 1] == '}'
              && body[8..|body| - 1] == formatNumber(value.value)
  {
    match value
    case Some(x) => "{\"eCPM\":" + formatNumber(x) + "}"
    case None => "{}"
  }

  /** The handler. */
  function HandleEcpm(clients: ClientTable, records: EcpmTable, formatNumber: real -> string, q: EcpmQuery)
    : (l: Lookup)
    // an unknown client: 400, one query, one log line
    ensures GetClient(clients, q.appKey).None? ==>
              && l.response == LambdaResponse(400, INCORRECT_CLIENT)
              && l.queries == [ClientRead(q.appKey)]
              && l.logs == [ClientNotFoundLog(q.appKey)]
    // a known client whose secret differs (an absent secret only matches an absent one): 400, the record is not read
    ensures GetClient(clients, q.appKey).Some? && GetClient(clients, q.appKey).value.secret != q.secret ==>
              && l.response == LambdaResponse(400, INCORRECT_SECRET)
              && l.queries == [ClientRead(q.appKey)]
    // the secret matches: the record for (appKey, date) is read
    ensures GetClient(clients, q.appKey).Some? && GetClient(clients, q.appKey).value.secret == q.secret ==>
              && l.queries == [ClientRead(q.appKey), RecordRead(RecordKey(q.appKey, q.date))]
              && l.response ==
                   match GetEcpm(records, q.appKey, q.date)
                   case None => LambdaResponse(400, RECORD_NOT_FOUND)
                   case Some(record) => LambdaResponse(200, EcpmBody(record.eCPM, formatNumber))
    // only a missing client is logged
    ensures GetClient(clients, q.appKey).Some? ==> l.logs == []
  {
    match GetClient(clients, q.appKey)
    case None =>
      Lookup(LambdaResponse(400, INCORRECT_CLIENT), [ClientRead(q.appKey)], [ClientNotFoundLog(q.appKey)])
    case Some(client) =>
      if client.secret != q.secret then
        Lookup(LambdaResponse(400, INCORRECT_SECRET), [ClientRead(q.appKey)], [])
      else
        var queries := [ClientRead(q.appKey), RecordRead(RecordKey(q.appKey, q.date))];
        match GetEcpm(records, q.appKey, q.date)
        case None => Lookup(LambdaResponse(400, RECORD_NOT_FOUND), queries, [])
        case Some(record) => Lookup(LambdaResponse(200, EcpmBody(record.eCPM, formatNumber)), queries, [])
  }

  /** The answer is 200 exactly when all three checks pass, and 400 otherwise. */
  lemma StatusIsOkIffAllChecksPass(clients: ClientTable, records: EcpmTable, formatNumber: real -> string,
                                   q: EcpmQuery)
    ensures var l := HandleEcpm(clients, records, formatNumber, q);
            && (l.response.statusCode == 200 || l.response.statusCode == 400)
            && (l.response.statusCode == 200 <==>
                  && GetClient(clients, q.appKey).Some?
                  && GetClient(clients, q.appKey).value.secret == q.secret
                  && GetEcpm(records, q.appKey, q.date).Some?)
  {
  }

  /**
   * Error precedence: when the client or the secret check fails, the answer
   * does not depend on the eCPM table at all.
   */
  lemma EarlyErrorsIgnoreRecords(clients: ClientTable, records1: EcpmTable, records2: EcpmTable,
                                 formatNumber: real -> string, q: EcpmQuery)
    requires GetClient(clients, q.appKey).None? || GetClient(clients, q.appKey).value.secret != q.secret
    ensures HandleEcpm(clients, records1, formatNumber, q) == HandleEcpm(clients, records2, formatNumber, q)
  {
  }

  /** The lookup fixture: a client with secret `someSecret` and a record with eCPM 2.13. */
  lemma HandleEcpmFixture(formatNumber: real -> string)
    ensures var clients := map["appKey" := [Client("testClient", Some("http://someurl.com"), Some("someSecret"), None)]];
            var records := map[RecordKey("appKey", "2000-01-01") := [EcpmRecord("", "", Some(2.13))]];
            && HandleEcpm(clients, records, formatNumber, EcpmQuery("appKey", "2000-01-01", Some("someSecret"))).response
                 == LambdaResponse(200, "{\"eCPM\":" + formatNumber(2.13) + "}")
            && HandleEcpm(clients, records, formatNumber, EcpmQuery("appKey", "2000-01-01", Some("incorrectSecret"))).response
                 == LambdaResponse(400, INCORRECT_SECRET)
            && HandleEcpm(map[], records, formatNumber, EcpmQuery("appKey", "2000-01-01", Some("someSecret"))).response
                 == LambdaResponse(400, INCORRECT_CLIENT)
            && HandleEcpm(clients, map[], formatNumber, EcpmQuery("appKey", "2000-01-01", Some("someSecret"))).response
                 == LambdaResponse(400, RECORD_NOT_FOUND)
  {
  }

  /**
   * A client stored without a secret is served a request that carries no
   * secret either, and refused one that carries any secret.
   */
  lemma SecretlessClientFixture(formatNumber: real -> string, given: string)
    ensures var clients := map["appKey" := [Client("testClient", None, None, None)]];
            var records := map[RecordKey("appKey", "2000-01-01") := [EcpmRecord("", "", Some(2.13))]];
            && HandleEcpm(clients, records, formatNumber, EcpmQuery("appKey", "2000-01-01", None)).response
                 == LambdaResponse(200, "{\"eCPM\":" + formatNumber(2.13) + "}")
            && HandleEcpm(clients, records, formatNumber, EcpmQuery("appKey", "2000-01-01", Some(given))).response
                 == LambdaResponse(400, INCORRECT_SECRET)
  {
  }
}
