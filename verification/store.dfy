/**
 * The record store (server.py:8-22, 35-46): the file `database.json`, read in
 * full by `load_data` and rewritten in full by `save_data`, and what one
 * inbound text does to it.
 */
module Store {
  import opened Wrappers
  import opened Json
  import opened Classifier

  /** Records by user key, as the saved JSON object holds them. */
  type Records = map<string, Json>

  /** The store file as `load_data` finds it. */
  datatype StoreFile =
    | Missing                     // open raises FileNotFoundError
    | Undecodable                 // json.load raises json.JSONDecodeError
    | Unreadable                  // any other failure to open or read, which load_data does not catch
    | Snapshot(records: Records)  // a JSON object, as save_data writes it

  /** Why the processing of one inbound text stops before anything is forwarded. */
  datatype Fault =
    | BadJson          // json.loads raised JSONDecodeError (server.py:55)
    | NotAnObject      // the document is not an object, so `data.get` raises (server.py:38, 57)
    | StoreUnreadable  // load_data let a read failure escape (server.py:42, 57)
    | UnhashableKey    // the phone number is a list or an object (server.py:45, 57)

  /** `load_data`: a missing or undecodable file is the empty store; other read failures escape. */
  function LoadData(f: StoreFile): (r: Result<Records, Fault>)
    ensures r.Err? <==> f.Unreadable?
    ensures f.Missing? || f.Undecodable? ==> r == Ok(map[])
  {
    match f
    case Missing => Ok(map[])
    case Undecodable => Ok(map[])
    case Unreadable => Err(StoreUnreadable)
    case Snapshot(db) => Ok(db)
  }

  /** `save_data`: the whole store replaces the file's contents. */
  function SaveData(db: Records): (f: StoreFile)
    ensures LoadData(f) == Ok(db)
  {
    Snapshot(db)
  }

  /** `after` is the store `before` with the record under `k` replaced by `v` and nothing else changed. */
  ghost predicate Overwrites(before: Records, after: StoreFile, k: string, v: Json) {
    && after.Snapshot?
    && after.records.Keys == before.Keys + {k}
    && after.records[k] == v
    && forall k' :: k' in before && k' != k ==> after.records[k'] == before[k']
  }

  /**
   * What one inbound text does to the file (server.py:35-46): `parsed` is the
   * result of `json.loads`, None when it raised. An admin message leaves the
   * file alone; any other object is written under its user key, replacing the
   * record there. A fault leaves the file untouched and stops the message.
   */
  function StoreStep(f: StoreFile, parsed: Option<Json>): (r: Result<StoreFile, Fault>)
    ensures parsed.None? ==> r == Err(BadJson)
    ensures parsed.Some? && !parsed.value.JObj? ==> r == Err(NotAnObject)
    ensures parsed.Some? && parsed.value.JObj? && IsAdmin(parsed.value.fields) ==> r == Ok(f)
    ensures parsed.Some? && parsed.value.JObj? && !IsAdmin(parsed.value.fields) ==>
              && (LoadData(f).Err? ==> r == Err(StoreUnreadable))
              && (LoadData(f).Ok? && UserKey(parsed.value.fields).None? ==> r == Err(UnhashableKey))
              && (LoadData(f).Ok? && UserKey(parsed.value.fields).Some? ==>
                    r.Ok? && Overwrites(LoadData(f).value, r.value, UserKey(parsed.value.fields).value, parsed.value))
  {
    match parsed
    case None => Err(BadJson)
    case Some(data) =>
      if !data.JObj? then Err(NotAnObject)
      else if IsAdmin(data.fields) then Ok(f)
      else
        match LoadData(f)
        case Err(e) => Err(e)
        case Ok(db) =>
          match UserKey(data.fields)
          case None => Err(UnhashableKey)
          case Some(k) => Ok(SaveData(db[k := data]))
  }

  /**
   * A missing or corrupt file does not stop a write: the first stored text
   * replaces it with a store that holds that one record and nothing of the
   * corrupt contents.
   */
  lemma CorruptFileReplaced(f: StoreFile, fields: map<string, Json>, k: string)
    requires f.Missing? || f.Undecodable?
    requires !IsAdmin(fields) && UserKey(fields) == Some(k)
    ensures StoreStep(f, Some(JObj(fields))) == Ok(Snapshot(map[k := JObj(fields)]))
  {
  }

  /** The file after one text: a fault leaves it as it was. */
  function Next(f: StoreFile, parsed: Option<Json>): (g: StoreFile) {
    match StoreStep(f, parsed)
    case Ok(g) => g
    case Err(_) => f
  }

  /** The file after each text of `msgs` in turn. */
  function StoreAfterAll(f: StoreFile, msgs: seq<Option<Json>>): (g: StoreFile)
    decreases |msgs|
  {
    if msgs == [] then f else Next(StoreAfterAll(f, msgs[..|msgs| - 1]), msgs[|msgs| - 1])
  }

  /** The records a later `load_data` would see (none, when it cannot read the file). */
  function View(f: StoreFile): (db: Records) {
    match LoadData(f)
    case Ok(db) => db
    case Err(_) => map[]
  }

  /** The text `parsed` replaces the record under `k`. */
  predicate Writes(parsed: Option<Json>, k: string) {
    parsed.Some? && parsed.value.JObj? && !IsAdmin(parsed.value.fields) &&
    UserKey(parsed.value.fields) == Some(k)
  }

  /** One text that does not write `k` leaves the record under `k` (or its absence) as it was. */
  lemma NextKeeps(f: StoreFile, parsed: Option<Json>, k: string)
    requires !Writes(parsed, k)
    ensures k in View(Next(f, parsed)) <==> k in View(f)
    ensures k in View(f) ==> View(Next(f, parsed))[k] == View(f)[k]
  {
  }

  /** A readable file stays readable: every write is a fresh snapshot. */
  lemma {:induction false} StaysReadable(f: StoreFile, msgs: seq<Option<Json>>)
    requires LoadData(f).Ok?
    ensures LoadData(StoreAfterAll(f, msgs)).Ok?
  {
    if msgs != [] {
      StaysReadable(f, msgs[..|msgs| - 1]);
    }
  }

  /**
   * Texts that never write under `k` leave its record exactly as it was,
   * whatever else they write.
   */
  lemma {:induction false} UntouchedRecordKept(f: StoreFile, msgs: seq<Option<Json>>, k: string)
    requires forall j :: 0 <= j < |msgs| ==> !Writes(msgs[j], k)
    ensures k in View(StoreAfterAll(f, msgs)) <==> k in View(f)
    ensures k in View(f) ==> View(StoreAfterAll(f, msgs))[k] == View(f)[k]
  {
    if msgs != [] {
      var n := |msgs| - 1;
      UntouchedRecordKept(f, msgs[..n], k);
      NextKeeps(StoreAfterAll(f, msgs[..n]), msgs[n], k);
    }
  }

  /**
   * Last write wins: on a readable file, the record under `k` after a run of
   * texts is the last message that was written under `k`, whatever was
   * stored there before.
   */
  lemma {:induction false} LatestRecordWins(f: StoreFile, msgs: seq<Option<Json>>, i: nat, k: string)
    requires LoadData(f).Ok?
    requires i < |msgs| && Writes(msgs[i], k)
    requires forall j :: i < j < |msgs| ==> !Writes(msgs[j], k)
    ensures k in View(StoreAfterAll(f, msgs))
    ensures View(StoreAfterAll(f, msgs))[k] == msgs[i].value
  {
    var n := |msgs| - 1;
    var g := StoreAfterAll(f, msgs[..n]);
    if i == n {
      StaysReadable(f, msgs[..n]);
    } else {
      LatestRecordWins(f, msgs[..n], i, k);
      NextKeeps(g, msgs[n], k);
    }
  }
}

