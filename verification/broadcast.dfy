/** Connection handles and the forwarding loop of the handler (server.py:49-53). */
module Broadcast {
  import opened Wrappers

  /** One live duplex channel; two handles are the same connection exactly when they are the same object. */
  class Connection {
    /** A completed handshake: a new handle, distinct from every existing one. */
    constructor () {}
  }

  /**
   * The forwarding loop: each registered client other than the sender is sent
   * the message in turn. Clients are visited in the set's iteration order,
   * which is arbitrary; `failing` holds the peers whose send raises. The first
   * failing peer the loop reaches ends it (the exception leaves the loop), so
   * the peers after it are skipped. `delivered` lists the peers that were sent
   * the message, in order, and `stoppedAt` the peer whose send raised, if any.
   */
  method ForwardToOthers(clients: set<Connection>, sender: Connection, failing: set<Connection>)
    returns (delivered: seq<Connection>, stoppedAt: Option<Connection>)
    ensures forall i :: 0 <= i < |delivered| ==>
              delivered[i] in clients && delivered[i] != sender && delivered[i] !in failing
    ensures forall i, j :: 0 <= i < j < |delivered| ==> delivered[i] != delivered[j]
    ensures stoppedAt.None? <==> (clients - {sender}) * failing == {}
    ensures stoppedAt.None? ==> forall c :: c in clients && c != sender ==> c in delivered
    ensures stoppedAt.Some? ==> stoppedAt.value in (clients - {sender}) * failing
  {
    delivered, stoppedAt := [], None;
    var rest := clients;
    while rest != {}
      invariant rest <= clients
      invariant forall c :: c in clients && c !in rest && c != sender ==> c in delivered
      invariant forall i :: 0 <= i < |delivered| ==>
                  delivered[i] in clients && delivered[i] !in rest &&
                  delivered[i] != sender && delivered[i] !in failing
      invariant forall i, j :: 0 <= i < j < |delivered| ==> delivered[i] != delivered[j]
      invariant (clients - rest - {sender}) * failing == {}
      decreases rest
    {
      var client :| client in rest;
      rest := rest - {client};
      if client != sender {
        if client in failing {
          stoppedAt := Some(client);
          assert client in (clients - {sender}) * failing;
          return;
        }
        delivered := delivered + [client];
      }
    }
  }
}
