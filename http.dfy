// The `requests.Session` the client talks through, reduced to what the model
// observes: the requests it has sent, in order, and the server's answers.
module Http {

  class Session<Q, A> {
    /** Every request sent so far, oldest first. */
    var sent: seq<Q>
    /** How the server answers a request; the network is not modelled further. */
    const server: Q -> A

    constructor (server: Q -> A)
      ensures this.server == server && sent == []
    {
      this.server := server;
      sent := [];
    }

    /** Sends `q` and returns the server's answer. */
    method Send(q: Q) returns (a: A)
      modifies this
      ensures sent == old(sent) + [q]
      ensures a == server(q)
    {
      sent := sent + [q];
      a := server(q);
    }
  }
}
