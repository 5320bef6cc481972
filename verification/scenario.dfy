/**
 * Three clients A, B and C: what the contracts of the relay let a caller
 * conclude about the texts A sends.
 */
module Scenario {
  import opened Wrappers
  import opened Json
  import opened Store
  import opened Broadcast
  import opened Relay

  /** A fresh server, with no store file yet, and three connected clients. */
  method ThreeConnected() returns (server: Server, a: Connection, b: Connection, c: Connection)
    ensures fresh(server) && a != b && b != c && a != c
    ensures server.clients == {a, b, c} && server.file == Missing && server.wire == []
  {
    server := new Server(Missing);
    a := new Connection();
    b := new Connection();
    c := new Connection();
    server.Connect(a);
    server.Connect(b);
    server.Connect(c);
  }

  /** A signs up: the record lands under "555", B and C each get the text, A gets nothing. */
  method SignupReachesOthers() {
    var server, a, b, c := ThreeConnected();
    var signup := JObj(map["phone_number" := JStr("555"), "step" := JStr("signup")]);
    var raw := "{\"phone_number\":\"555\",\"step\":\"signup\"}";
    var outcome := server.OnMessage(a, Received(raw, Some(signup), {}));
    assert outcome == Relayed;
    assert server.file == Snapshot(map["555" := signup]);
    assert server.wire[0..] == server.wire;
    assert b in Receivers(server.wire) && c in Receivers(server.wire);
    assert forall i :: 0 <= i < |server.wire| ==> server.wire[i].to != a && server.wire[i].text == raw;
  }

  /** An admin text leaves the store alone, yet it too is forwarded to B and C. */
  method AdminIsForwarded() {
    var server, a, b, c := ThreeConnected();
    var admin := JObj(map["role" := JStr("admin")]);
    assert Classifier.IsAdmin(admin.fields);
    var outcome := server.OnMessage(a, Received("{\"role\":\"admin\"}", Some(admin), {}));
    assert outcome == Relayed && server.file == Missing;
    assert server.wire[0..] == server.wire;
    assert b in Receivers(server.wire) && c in Receivers(server.wire);
  }

  /** A text that is not JSON is dropped; nothing is stored or sent, and A stays connected. */
  method BadJsonIsDropped() {
    var server, a, b, c := ThreeConnected();
    var outcome := server.OnMessage(a, Received("{oops", None, {}));
    assert outcome == Dropped(BadJson);
    assert server.file == Missing && server.wire == [] && a in server.clients;
  }

  /** The send to B fails: the record under "556" is stored all the same, and C may miss the text. */
  method FailedSendKeepsWrite() {
    var server, a, b, c := ThreeConnected();
    var numbered := JObj(map["phone_number" := JNum(556)]);
    assert IntText(556) == "556";
    var outcome := server.OnMessage(a, Received("{\"phone_number\":556}", Some(numbered), {b}));
    assert ({a, b, c} - {a}) * {b} == {b};
    assert outcome == Interrupted(b);
    assert server.file == Snapshot(map["556" := numbered]);
    assert forall i :: 0 <= i < |server.wire| ==> server.wire[i].to == c;
  }

  /**
   * A whole connection: A connects, sends a signup and disconnects. B, which
   * was already connected, received the text; A is no longer registered.
   */
  method HandlerForwardsSignup() {
    var server := new Server(Missing);
    var a := new Connection();
    var b := new Connection();
    server.Connect(b);
    var signup := JObj(map["phone_number" := JStr("555")]);
    var inbox := [Received("{\"phone_number\":\"555\"}", Some(signup), {})];
    var outcomes, cuts := server.Handler(a, inbox);
    assert ParsedOf(inbox[..0]) == [];
    assert outcomes[0] == Relayed;
    assert b in Receivers(server.wire[cuts[0]..cuts[1]]);
    assert server.clients == {b};
  }
}
