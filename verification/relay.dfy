/**
 * The relay server (server.py:5-9, 24-63): the module-level set of connected
 * clients, the store file, and the per-connection `handler`. Every text a
 * client sends is written to the store under its user key (unless it comes
 * from an admin) and then forwarded verbatim to every other client.
 */
module Relay {
  import opened Wrappers
  import opened Json
  import opened Store
  import opened Broadcast

  /** One `send` on the network: the text and the connection it went to. */
  datatype Sent = Sent(to: Connection, text: string)

  /**
   * One inbound text: `raw` as received, `parsed` the result of `json.loads(raw)`
   * (None when it raised JSONDecodeError), and `failing` the peers whose
   * `send` raises while this text is forwarded.
   */
  datatype Received = Received(raw: string, parsed: Option<Json>, failing: set<Connection>)

  /** How the processing of one text ended (the source only logs it). */
  datatype Outcome =
    | Relayed                  // stored as applicable and forwarded to every other client
    | Dropped(fault: Fault)    // stopped before forwarding; the file is untouched
    | Interrupted(at: Connection)  // stored as applicable; forwarding stopped at a failing send

  /** The sends of `raw` to each of `peers`, in order. */
  function Outgoing(peers: seq<Connection>, raw: string): (r: seq<Sent>)
  {
    seq(|peers|, i requires 0 <= i < |peers| => Sent(peers[i], raw))
  }

  /** The parse results of a run of inbound texts. */
  function ParsedOf(inbox: seq<Received>): (r: seq<Option<Json>>)
  {
    seq(|inbox|, i requires 0 <= i < |inbox| => inbox[i].parsed)
  }

  /** The connections `sends` went to. */
  function Receivers(sends: seq<Sent>): (r: set<Connection>)
  {
    set i | 0 <= i < |sends| :: sends[i].to
  }

  /** Every send in `sends` went to one of `peers`. */
  ghost predicate AllTo(sends: seq<Sent>, peers: set<Connection>) {
    forall i :: 0 <= i < |sends| ==> sends[i].to in peers
  }

  /**
   * `sends` carry the text `raw` unchanged, each to one of `peers` whose send
   * succeeded, and no peer twice.
   */
  ghost predicate FanOut(sends: seq<Sent>, raw: string, peers: set<Connection>, failing: set<Connection>) {
    && AllTo(sends, peers)
    && (forall i :: 0 <= i < |sends| ==> sends[i].text == raw && sends[i].to !in failing)
    && (forall i, j :: 0 <= i < j < |sends| ==> sends[i].to != sends[j].to)
  }

  /**
   * What became of the text `m`, sent by a client whose fellow clients are
   * `peers`, when the store file was `f`: `sends` are the sends it caused and
   * `outcome` how its processing ended. A text whose store step faults sends
   * nothing. A text that is stored (or skipped, from an admin) fans out, and it
   * reaches every peer exactly when no peer's send fails; otherwise forwarding
   * stopped at a failing peer.
   */
  ghost predicate Handled(sends: seq<Sent>, m: Received, peers: set<Connection>, f: StoreFile, outcome: Outcome) {
    && FanOut(sends, m.raw, peers, m.failing)
    && (outcome.Dropped? <==> StoreStep(f, m.parsed).Err?)
    && (outcome.Dropped? ==> outcome.fault == StoreStep(f, m.parsed).error && sends == [])
    && (outcome.Relayed? <==> StoreStep(f, m.parsed).Ok? && peers * m.failing == {})
    && (outcome.Relayed? ==> peers <= Receivers(sends))
    && (outcome.Interrupted? ==> outcome.at in peers * m.failing)
  }

  /**
   * `cuts` splits the log positions `lo` to `hi` into `n` consecutive spans,
   * one per inbound text.
   */
  ghost predicate Spans(cuts: seq<nat>, lo: nat, hi: nat, n: nat) {
    && |cuts| == n + 1 && cuts[0] == lo && cuts[n] == hi
    && (forall i :: 0 <= i <= n ==> lo <= cuts[i] <= hi)
    && (forall i :: 0 <= i < n ==> cuts[i] <= cuts[i + 1])
  }

  /**
   * A log that grew from `before` to `after` with sends to `peers` only still
   * sends to `peers` only from `base` on, and kept what it held before.
   */
  lemma WireStep(base: nat, before: seq<Sent>, after: seq<Sent>, peers: set<Connection>)
    requires base <= |before| <= |after| && after[..|before|] == before
    requires AllTo(before[base..], peers) && AllTo(after[|before|..], peers)
    ensures after[..base] == before[..base]
    ensures AllTo(after[base..], peers)
  {
  }

  /** A slice within the part of the log that was already there is unchanged. */
  lemma SliceOfPrefix(before: seq<Sent>, after: seq<Sent>, a: nat, b: nat)
    requires a <= b <= |before| <= |after| && after[..|before|] == before
    ensures after[a..b] == before[a..b]
  {
    forall k | 0 <= k < b - a
      ensures after[a..b][k] == before[a..b][k]
    {
      assert after[a + k] == after[..|before|][a + k];
    }
  }

  /**
   * The per-text record of a message loop carries over when one more text is
   * processed: the earlier spans of the log are untouched, and the new span
   * holds the new text's sends.
   */
  lemma HandledExtend(lo: nat, before: seq<Sent>, after: seq<Sent>, cuts: seq<nat>, inbox: seq<Received>, i: nat,
                      peers: set<Connection>, f: StoreFile, outcomes: seq<Outcome>, outcome: Outcome)
    requires i < |inbox| && |outcomes| == i
    requires |before| <= |after| && after[..|before|] == before
    requires Spans(cuts, lo, |before|, i)
    requires forall j :: 0 <= j < i ==>
               Handled(before[cuts[j]..cuts[j + 1]], inbox[j], peers, FileBefore(f, inbox, j), outcomes[j])
    requires Handled(after[|before|..], inbox[i], peers, FileBefore(f, inbox, i), outcome)
    ensures Spans(cuts + [|after|], lo, |after|, i + 1)
    ensures forall j :: 0 <= j < i + 1 ==>
              Handled(after[(cuts + [|after|])[j]..(cuts + [|after|])[j + 1]], inbox[j], peers,
                      FileBefore(f, inbox, j), (outcomes + [outcome])[j])
  {
    var cuts', outcomes' := cuts + [|after|], outcomes + [outcome];
    forall j | 0 <= j < i + 1
      ensures Handled(after[cuts'[j]..cuts'[j + 1]], inbox[j], peers, FileBefore(f, inbox, j), outcomes'[j])
    {
      if j < i {
        assert cuts'[j] == cuts[j] && cuts'[j + 1] == cuts[j + 1] && outcomes'[j] == outcomes[j];
        SliceOfPrefix(before, after, cuts[j], cuts[j + 1]);
      } else {
        assert cuts'[j] == |before| && cuts'[j + 1] == |after| && outcomes'[j] == outcome;
      }
    }
  }

  /** The file before the `j`-th text of `inbox` is processed. */
  function FileBefore(f: StoreFile, inbox: seq<Received>, j: nat): (g: StoreFile)
    requires j <= |inbox|
  {
    StoreAfterAll(f, ParsedOf(inbox[..j]))
  }

  lemma FileBeforeNext(f: StoreFile, inbox: seq<Received>, j: nat)
    requires j < |inbox|
    ensures FileBefore(f, inbox, j + 1) == Next(FileBefore(f, inbox, j), inbox[j].parsed)
  {
    assert inbox[..j + 1][..j] == inbox[..j];
    assert ParsedOf(inbox[..j + 1]) == ParsedOf(inbox[..j]) + [inbox[j].parsed];
  }

  class Server {
    /** `connected_clients` (server.py:6). */
    var clients: set<Connection>
    /** The contents of `database.json` (server.py:9). */
    var file: StoreFile
    /** Every send made so far, oldest first. */
    var wire: seq<Sent>

    /** The server at start-up: no clients, the store file as found on disk, nothing sent. */
    constructor (disk: StoreFile)
      ensures clients == {} && file == disk && wire == []
    {
      clients := {};
      file := disk;
      wire := [];
    }

    /** `connected_clients.add(websocket)` (server.py:26). */
    method Connect(ws: Connection)
      modifies this
      ensures clients == old(clients) + {ws}
      ensures file == old(file) && wire == old(wire)
    {
      clients := clients + {ws};
    }

    /** `connected_clients.remove(websocket)` (server.py:62), which raises unless `ws` is registered. */
    method Disconnect(ws: Connection)
      requires ws in clients
      modifies this
      ensures clients == old(clients) - {ws}
      ensures file == old(file) && wire == old(wire)
    {
      clients := clients - {ws};
    }

    /**
     * The body of the message loop for one text from `ws` (server.py:32-58):
     * the store is updated first, then the raw text is forwarded to every
     * other client until a send fails. A failed send does not undo the store
     * write, and no outcome closes the connection.
     */
    method OnMessage(ws: Connection, m: Received) returns (outcome: Outcome)
      modifies this
      ensures clients == old(clients)
      ensures file == Next(old(file), m.parsed)
      ensures |wire| >= |old(wire)| && wire[..|old(wire)|] == old(wire)
      ensures Handled(wire[|old(wire)|..], m, old(clients) - {ws}, old(file), outcome)
    {
      var step := StoreStep(file, m.parsed);
      if step.Err? {
        outcome := Dropped(step.error);
        return;
      }
      file := step.value;
      var delivered, stoppedAt := ForwardToOthers(clients, ws, m.failing);
      wire := wire + Outgoing(delivered, m.raw);
      assert wire[|old(wire)|..] == Outgoing(delivered, m.raw);
      outcome := if stoppedAt.None? then Relayed else Interrupted(stoppedAt.value);
      if stoppedAt.None? {
        forall c | c in old(clients) - {ws}
          ensures c in Receivers(wire[|old(wire)|..])
        {
          var k :| 0 <= k < |delivered| && delivered[k] == c;
          assert wire[|old(wire)|..][k].to == c;
        }
      }
    }

    /**
     * The `async for` loop of `handler` (server.py:31-58) while `ws` is
     * registered: each inbound text is processed in turn, whatever became of
     * the previous one, and none of them deregisters `ws`. The sends of the
     * `i`-th text are the log between `cuts[i]` and `cuts[i + 1]`.
     */
    method MessageLoop(ws: Connection, inbox: seq<Received>) returns (outcomes: seq<Outcome>, ghost cuts: seq<nat>)
      requires ws in clients
      modifies this
      ensures clients == old(clients)
      ensures file == FileBefore(old(file), inbox, |inbox|)
      ensures |outcomes| == |inbox|
      ensures |wire| >= |old(wire)| && wire[..|old(wire)|] == old(wire)
      ensures Spans(cuts, |old(wire)|, |wire|, |inbox|)
      ensures forall i :: 0 <= i < |inbox| ==>
                Handled(wire[cuts[i]..cuts[i + 1]], inbox[i], old(clients) - {ws},
                        FileBefore(old(file), inbox, i), outcomes[i])
      ensures AllTo(wire[|old(wire)|..], old(clients) - {ws})
    {
      outcomes, cuts := [], [|wire|];
      var i := 0;
      while i < |inbox|
        invariant 0 <= i <= |inbox|
        invariant clients == old(clients)
        invariant file == FileBefore(old(file), inbox, i)
        invariant |outcomes| == i
        invariant |wire| >= |old(wire)| && wire[..|old(wire)|] == old(wire)
        invariant Spans(cuts, |old(wire)|, |wire|, i)
        invariant forall j :: 0 <= j < i ==>
                    Handled(wire[cuts[j]..cuts[j + 1]], inbox[j], old(clients) - {ws},
                            FileBefore(old(file), inbox, j), outcomes[j])
        invariant AllTo(wire[|old(wire)|..], old(clients) - {ws})
      {
        ghost var before := wire;
        var outcome := OnMessage(ws, inbox[i]);
        FileBeforeNext(old(file), inbox, i);
        WireStep(|old(wire)|, before, wire, old(clients) - {ws});
        HandledExtend(|old(wire)|, before, wire, cuts, inbox, i, old(clients) - {ws}, old(file), outcomes, outcome);
        outcomes, cuts := outcomes + [outcome], cuts + [|wire|];
        i := i + 1;
      }
    }

    /**
     * `handler` for one connection (server.py:24-63): register `ws`, run the
     * message loop, and deregister `ws` when the stream ends, however it ends;
     * the `finally` clause always finds `ws` registered.
     */
    method Handler(ws: Connection, inbox: seq<Received>) returns (outcomes: seq<Outcome>, ghost cuts: seq<nat>)
      modifies this
      ensures clients == old(clients) - {ws}
      ensures file == FileBefore(old(file), inbox, |inbox|)
      ensures |outcomes| == |inbox|
      ensures |wire| >= |old(wire)| && wire[..|old(wire)|] == old(wire)
      ensures Spans(cuts, |old(wire)|, |wire|, |inbox|)
      ensures forall i :: 0 <= i < |inbox| ==>
                Handled(wire[cuts[i]..cuts[i + 1]], inbox[i], old(clients) - {ws},
                        FileBefore(old(file), inbox, i), outcomes[i])
      ensures AllTo(wire[|old(wire)|..], old(clients) - {ws})
    {
      Connect(ws);
      assert (old(clients) + {ws}) - {ws} == old(clients) - {ws};
      outcomes, cuts := MessageLoop(ws, inbox);
      Disconnect(ws);
    }
  }
}
