/**
 * Types shared by the handlers: optional values, the Lambda response
 * envelope, and the client directory (the client table and its lookup).
 */
module Common {

  datatype Option<T> = None | Some(value: T)

  /** The `{statusCode, body}` object every handler returns. */
  datatype LambdaResponse = LambdaResponse(statusCode: int, body: string)

  /**
   * A client record as stored in the client table. Attributes that a stored
   * item may lack are optional; JavaScript reads a missing one as `undefined`.
   */
  datatype Client = Client(
    clientId: string,
    callbackUrl: Option<string>,
    secret: Option<string>,
    signatureSecret: Option<string>)

  /**
   * The client table as seen through its key-condition query: the `Items` a
   * query for a client id returns. A key that is absent stands for a query
   * whose `Items` came back undefined.
   */
  type ClientTable = map<string, seq<Client>>

  /**
   * Client lookup: a query that yields no `Items`, or an empty list, means the
   * client is unknown; otherwise the first item is the client.
   */
  function GetClient(table: ClientTable, clientId: string): (r: Option<Client>)
    ensures r.None? <==> clientId !in table || |table[clientId]| == 0
    ensures r.Some? ==> r.value == table[clientId][0]
  {
    if clientId in table && |table[clientId]| > 0 then Some(table[clientId][0]) else None
  }

  /**
   * The log line written when the lookup fails: the thrown `Error` printed
   * through a template string, behind an `ERROR: ` prefix.
   */
  function ClientNotFoundLog(clientId: string): string
  {
    "ERROR: Error: Could not find client with ID: " + clientId
  }
}
