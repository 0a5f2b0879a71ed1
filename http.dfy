/**
 * The HTTP transport, made abstract: a request is a verb, a URL, headers and an
 * optional body; a round trip ends in a transport error or in a response with a
 * status code and a body. A `Transport` records every request it is given.
 */
module Http {
  import opened Wrappers

  datatype Verb = GET | POST

  datatype Request = Request(verb: Verb, url: string, headers: map<string, string>, body: Option<string>)

  datatype Reply =
    | TransportError(cause: string)
    | Response(status: nat, body: string)

  /**
   * The remote side: the reply to a request may depend on every request the
   * transport carried before it.
   */
  type Server = (seq<Request>, Request) -> Reply

  /** An HTTP client handle over a fixed server, with the log of the requests it sent. */
  class Transport {
    const server: Server
    var log: seq<Request>

    constructor (server: Server)
      ensures this.server == server
      ensures log == []
    {
      this.server := server;
      log := [];
    }

    /** One blocking round trip: the request joins the log and the server answers it. */
    method Do(req: Request) returns (reply: Reply)
      modifies this
      ensures log == old(log) + [req]
      ensures reply == server(old(log), req)
    {
      reply := server(log, req);
      log := log + [req];
    }
  }
}
