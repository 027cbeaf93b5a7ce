/**
 * The part of the Express response object the handlers use: `res.status(code).send(body)`
 * appends one response to what the client is sent. Several sends in a row are recorded
 * in order, as the handlers issue them.
 */
module Http {
  import opened Store

  datatype Body =
    | Text(text: string)                                     // a plain string body
    | Messages(messages: seq<string>)                        // `{ messages }`
    | AccessGrant(accessToken: string, ttl: int)             // `{ access_token, ttl }`
    | RegistrationGrant(registrationToken: string, ttl: int) // `{ registration_token, ttl }`
    | Rows(rows: seq<Row>)                                   // a list of user records
    | Record(row: Row)                                       // one user record

  datatype Response = Response(status: int, body: Body)

  class Reply {
    var sent: seq<Response>

    constructor()
      ensures sent == []
    {
      sent := [];
    }

    method Send(status: int, body: Body)
      modifies this
      ensures sent == old(sent) + [Response(status, body)]
    {
      sent := sent + [Response(status, body)];
    }
  }
}
