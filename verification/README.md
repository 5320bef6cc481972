# Relay server model

A model of the websocket relay in `server.py`. Clients keep a connection open.
Every text one client sends is parsed as JSON. Unless it comes from an admin
(`"role": "admin"`), it is written to a JSON file store under the sender's
phone number. It is then forwarded, unchanged, to every other connected
client. The model covers the two pieces of shared state and the per-message
handler that updates them:

- `connected_clients`, the set of live connection handles
  (`Relay.Server.clients`);
- `database.json`, the record store, read in full by `load_data` and
  rewritten in full by `save_data` (`Relay.Server.file`, a `Store.StoreFile`).

A third field, `Relay.Server.wire`, logs every `send` made (receiver and
text), so that the contracts can say who received what.

Modules, leaves first:

- `Wrappers`: `Option` and `Result`.
- `Json`: decoded JSON values; `KeyText` gives the text under which
  `json.dump` writes a non-string dictionary key: an integer as its decimal
  digits, booleans as `true`/`false`, `None` as `null`.
- `Classifier`: the admin test (`data.get("role") == "admin"`) and the store
  key (`data.get("phone_number", "unknown_user")`).
- `Store`: `load_data`, `save_data` and the effect of one text on the file
  (`StoreStep`), plus its fold over a run of texts, with last-write-wins
  lemmas.
- `Broadcast`: connection handles and the forwarding loop.
- `Relay`: the `Server` class, which has `Connect`, `Disconnect`, one
  message (`OnMessage`), the message loop and the whole `handler`.
- `Scenario`: clients of the server. One has three connections; another
  runs a whole connection through `Handler`. They show what the contracts
  let a caller conclude.

Behaviour as the code has it (the model follows `server.py`):

- Admin messages are forwarded like any other. The handler has no admin
  store dump and no reply to the admin.
- There is no `step` field handling: every non-admin object replaces the
  whole record under its key.
- The first send that raises ends the forwarding loop. The exception leaves
  the `for` loop and is caught by the broad `except` around the message. So
  later peers in the set's iteration order are skipped. The store write has
  already happened and is kept, and the connection stays open.
- Deregistration uses `set.remove`, which raises if the handle is absent.
  `handler` registers the handle on entry, so the removal in `finally` always
  finds it. `Relay.Server.Disconnect` requires membership, and
  `Relay.Server.Handler` proves that requirement is met.
- Not every store key is a string. A numeric, boolean or null
  `phone_number` is a dictionary key that `json.dump` writes as text. So
  `556` and `"556"` end up in the same record. The dump can write a key twice
  (`"556"` from the loaded store, then the number), and a later load keeps
  the last of the two, which is the new record; the model writes that
  outcome directly. A list or object `phone_number` is unhashable: the
  assignment raises after the load and before the save, and the text is
  dropped.
- A parsed document that is not an object makes `data.get` raise, and the
  text is dropped. `load_data` catches only a missing file and a JSON
  decoding error. Any other read failure escapes, and the text is dropped.

## Model

| member | source | states |
|---|---|---|
| `Classifier.IsAdmin` | server.py:38 | A message counts as an admin message exactly when its `role` field is present and is the JSON string `"admin"`. A number, boolean, null, list, object or other string there does not count. |
| `Classifier.UserKey` | server.py:44 | A string phone number is itself the key. With no `phone_number` the key is `"unknown_user"`. There is no key (the text is unhashable) exactly when the phone number is a list or an object. A numeric phone number gives a numeral key. |
| `Classifier.NumericKeys` | server.py:44-46 | A numeric phone number addresses the same record as its decimal digits sent as a string. Two different numbers never share a record. |
| `Json.KeyText` | server.py:20-22 | The key text `json.dump` writes for a dictionary key. Lists and objects have none, since they cannot be dictionary keys. A string is its own key. An integer key is a numeral. A boolean or null key is never a numeral, so it never collides with an integer key. |
| `Json.IntText` | server.py:20-22 | The text written for an integer key is a numeral: an optional minus sign, then digits. The sign is present exactly for negative numbers. The digits after any sign read back as the magnitude of the number. |
| `Json.IntTextInjective` | server.py:20-22 | The decimal text that `json.dump` writes for an integer key is different for different integers. |
| `Json.NatText` | server.py:20-22 | The text of a non-negative integer is a non-empty string of decimal digits. It is one character long exactly when the number is below ten. |
| `Json.NatTextValue` | server.py:20-22 | The digits written for a non-negative integer read back, most significant first, as that integer. |
| `Store.LoadData` | server.py:12-17 | Loading fails exactly when the file is unreadable for a reason other than being missing or undecodable. A missing or undecodable file loads as the empty store. |
| `Store.SaveData` | server.py:20-22 | A saved store loads back as exactly the records saved. The model saves string-keyed records: a key that is not a string has already become its text through `KeyText`, so an in-memory dictionary holding both `556` and `"556"` is saved as its single `"556"` record. |
| `Store.StoreStep` | server.py:35-46 | Undecodable text is a `BadJson` fault. A non-object document is a `NotAnObject` fault. An admin object leaves the file exactly as it was. Any other object replaces the record under its key, adds that key if absent, and leaves every other record unchanged. If the store cannot be read, or the key is unhashable, the result is a fault and nothing is written. |
| `Store.CorruptFileReplaced` | server.py:42-46 | On a missing or undecodable file, a stored text yields a file holding exactly its own record. Nothing of the corrupt contents survives. |
| `Store.NextKeeps` | server.py:42-46 | A text that does not write under key `k` leaves the record under `k`, or its absence, as it was. |
| `Store.StaysReadable` | server.py:42-46 | Once the file is readable, it stays readable after any run of texts. |
| `Store.UntouchedRecordKept` | server.py:42-46 | If no text in a run writes under `k`, then after the run the record under `k`, or its absence, is what it was before. |
| `Store.LatestRecordWins` | server.py:42-46 | On a readable file, the record under `k` after a run of texts is the last message written under `k`, whatever was stored there before. |
| `Broadcast.ForwardToOthers` | server.py:49-53 | The message goes only to registered peers other than the sender whose send succeeds, each at most once. Forwarding completes exactly when no other peer's send fails, and then every other peer receives it. Otherwise the loop stops at a failing peer other than the sender. |
| `Relay.Server.constructor` | server.py:5-9 | At start-up no client is registered and the store file is whatever is on disk. |
| `Relay.Server.Connect` | server.py:26 | The client set becomes the old set plus `ws`. Nothing else changes. |
| `Relay.Server.Disconnect` | server.py:60-62 | For a registered `ws`, the client set becomes the old set minus `ws`. Nothing else changes. |
| `Relay.Server.OnMessage` | server.py:32-58 | The client set is unchanged, and the file becomes the result of `StoreStep`. The new sends satisfy `Handled`. They carry the raw text unchanged, each to a distinct other client whose send succeeded. A text whose step faults sends nothing. A text is relayed exactly when its step succeeds and no other client's send fails, and then every other client receives it. An interrupted text keeps its store write. |
| `Relay.Server.MessageLoop` | server.py:31-58 | Every inbound text is processed in turn, whatever happened to the previous one, and `ws` stays registered. The file ends as the fold of `StoreStep` over the texts. The log splits into one span per text (ghost `cuts`), and each span satisfies `Handled` for its text and the file as it then stood: what was sent, to whom, and why the text ended as it did. No send goes to `ws`. |
| `Relay.Server.Handler` | server.py:24-63 | The connection is registered, the message loop runs, and the connection is deregistered on exit. Afterwards the client set is the old set minus `ws`. The file, the per-text spans with their `Handled` facts, and the absence of any send to `ws` are as in `MessageLoop`, with `ws`'s peers being the other clients registered beforehand. |

## Left out

- Concurrency between connections: the model handles one message at a
  time. Left out with it are the lost-update race between concurrent
  load/modify/save sequences, and a change to the client set during
  `await client.send`.
- JSON parsing and printing are foreign library code. Each inbound text
  comes with its decoded value (`None` when decoding raised), and the model
  does not constrain how that value relates to the raw text. The store file
  is a value, not bytes.
- JSON numbers are integers only. Floating-point values, and float
  `phone_number` keys (written by `json.dump` as `repr`), are not modelled.
- A store file that holds valid JSON which is not an object is not
  modelled. Starting from a missing file or from one `save_data` wrote, the
  file always holds an object.
- `save_data` failures (disk full, a partly written file) are not modelled.
  Saving replaces the file's contents.
- The order of set iteration is left arbitrary: the forwarding loop picks
  any remaining client. Which peers an interrupted message reaches therefore
  depends on an order the model does not fix.
- A send that fails is an input (`Received.failing`). Sends do not fail for
  any modelled reason.
- A connection error raised by the `async for` itself ends the stream, like
  a normal close. Both are the end of the inbox sequence.
- Logging (`print`), the server start-up (server.py:65-70), the unused
  `path` parameter and the websocket handshake have no behaviour in the
  model.
