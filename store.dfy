/** The SQLite-backed message store: the messages table, the schema migrations, the external
    reference and backend state tables, and the global scopes table. Each table is a field;
    each statement is a method that reassigns the fields it writes. A storage-engine failure
    that the source passes on as an error is a `dbErr` parameter. */
module Store {
  import opened Wrappers
  import opened Core
  import opened Text
  import opened Identity
  import opened StoreSchema

  /** message_external_refs is unique on (backend, external_id, scope). */
  datatype RefKey = RefKey(backend: string, externalId: string, scope: string)
  datatype RefRow = RefRow(messageId: string, metaJson: string, createdAt: Time, updatedAt: Time)

  /** message_backend_state is keyed by (message_id, backend). */
  datatype StateKey = StateKey(messageId: string, backend: string)
  datatype StateRow = StateRow(folder: string, state: string, updatedAt: Time, extraJson: string)

  datatype ScopeRow = ScopeRow(createdAt: Time, note: string)
  /** One entry of ListScopes' result. */
  datatype ScopeEntry = ScopeEntry(scope: string, createdAt: Time, note: string)

  /** A status update requested through SetStatusByID, whether or not it matched a row. */
  datatype StatusWrite = StatusWrite(id: string, status: Status, lastError: string)

  const PatBackend := "pat"
  const NoRows := "sql: no rows in result set"
  /** The SQLite driver's text for a second row with the same primary key (extended code 1555). */
  const DuplicateId := "constraint failed: UNIQUE constraint failed: messages.id (1555)"
  const NoRefsTable := "no such table: message_external_refs"
  const NoStateTable := "no such table: message_backend_state"

  /** The table's rows in storage (rowid) order. */
  function RowsOf(order: seq<string>, messages: map<string, Row>): seq<Row>
    requires forall i | 0 <= i < |order| :: order[i] in messages
  {
    seq(|order|, i requires 0 <= i < |order| => messages[order[i]])
  }

  // ---------------------------------------------------------------- row updates

  /** `SET status = ?, updated_at = now, sent_at = COALESCE(?, sent_at), last_error = ?`, where
      the bound sent_at is `now` only for the sent status. */
  function WithStatus(r: Row, status: Status, lastErr: string, now: Time): (w: Row)
    ensures w.id == r.id && w.status == status && w.lastError == lastErr && w.updatedAt == Some(now)
    ensures status == Sent ==> w.sentAt == Some(now)
    ensures status != Sent ==> w.sentAt == r.sentAt
    ensures w == r.(status := status, lastError := lastErr, updatedAt := w.updatedAt, sentAt := w.sentAt)
  {
    r.(status := status, updatedAt := Some(now), lastError := lastErr,
       sentAt := if status == Sent then Some(now) else r.sentAt)
  }

  /** The messages table after one status update: the addressed row, when it exists, is not
      deleted and the statement does not fail, takes the new status; nothing else changes. */
  function AfterStatus(msgs: map<string, Row>, w: StatusWrite, dbErr: Option<string>, now: Time): (out: map<string, Row>)
    ensures out.Keys == msgs.Keys
  {
    if dbErr.None? && w.id in msgs && msgs[w.id].status != Deleted
    then msgs[w.id := WithStatus(msgs[w.id], w.status, w.lastError, now)]
    else msgs
  }

  /** Once a message has a send time, no status update clears it. */
  lemma SentAtSticky(r: Row, status: Status, lastErr: string, now: Time)
    requires r.sentAt.Some?
    ensures WithStatus(r, status, lastErr, now).sentAt.Some?
  {
  }

  /** Rows QueueByTag moves: drafts and failures whose tags text contains the tag. */
  predicate Requeueable(r: Row, tag: string) {
    (r.status == Draft || r.status == Failed) && TagLike(r.tags, tag)
  }

  function Requeued(r: Row, now: Time): (q: Row)
    ensures q.id == r.id && q.status == Queued && q.lastError == "" && q.updatedAt == Some(now)
    ensures q.sentAt == r.sentAt && q.tags == r.tags && q.body == r.body
  {
    r.(status := Queued, updatedAt := Some(now), lastError := "")
  }

  /** The v2 backfill `UPDATE messages SET updated_at = created_at WHERE updated_at = ''`. */
  function Backfilled(r: Row): (b: Row)
    ensures b.updatedAt.Some? && b.id == r.id
    ensures r.updatedAt.Some? ==> b == r
    ensures r.updatedAt.None? ==> b == r.(updatedAt := Some(r.createdAt))
  {
    if r.updatedAt.None? then r.(updatedAt := Some(r.createdAt)) else r
  }

  /** Decoding meta_json for SetPatMIDByID: text that does not decode is an error there. */
  function DecodeMetaStrict(c: MetaColumn): (r: Result<MessageMeta>)
    ensures r.Err? <==> c.MetaGarbage?
    ensures r.Ok? ==> r.value == DecodeMetaLenient(c)
  {
    match c
    case MetaEmpty => Ok(DefaultMeta())
    case MetaJson(m) => Ok(m)
    // The JSON decoder's own message depends on the text; this one stands in for it.
    case MetaGarbage(_) => Err("invalid character in meta_json")
  }

  /** The row with the PAT message id written into its metadata; metadata that does not decode
      is an error, and every other field stays as it was. */
  function WithPatMID(r: Row, patMID: string): (u: Result<Row>)
    ensures u.Err? <==> r.meta.MetaGarbage?
    ensures u.Ok? ==> u.value.id == r.id && u.value.updatedAt == r.updatedAt
    ensures u.Ok? ==> u.value.meta.MetaJson? && u.value.meta.meta.delivery.patMID == patMID
    ensures u.Ok? ==> u.value == r.(meta := u.value.meta)
    ensures u.Ok? ==> u.value.meta.meta == DecodeMetaLenient(r.meta).(delivery := Delivery(patMID))
  {
    match DecodeMetaStrict(r.meta)
    case Err(e) => Err(e)
    case Ok(meta) => Ok(r.(meta := MetaJson(meta.(delivery := Delivery(patMID)))))
  }

  // ---------------------------------------------------------------- upserts

  /** `INSERT ... ON CONFLICT(backend, external_id, scope) DO UPDATE SET message_id, meta_json,
      updated_at`: an existing reference keeps its creation time. */
  function UpsertRef(refs: map<RefKey, RefRow>, k: RefKey, messageId: string, metaJson: string, now: Time): map<RefKey, RefRow> {
    if k in refs then refs[k := refs[k].(messageId := messageId, metaJson := metaJson, updatedAt := now)]
    else refs[k := RefRow(messageId, metaJson, now, now)]
  }

  /** The reference table after UpsertExternalRef: unchanged when a required argument is empty,
      the table does not exist yet or the statement fails; an empty meta_json is stored as `{}`. */
  function RefsAfterUpsert(refs: map<RefKey, RefRow>, tableExists: bool, messageId: string, backend: string,
                           externalId: string, scope: string, metaJson: string, now: Time, dbErr: Option<string>): map<RefKey, RefRow>
  {
    if messageId == "" || backend == "" || externalId == "" || !tableExists || dbErr.Some? then refs
    else UpsertRef(refs, RefKey(backend, externalId, scope), messageId, if metaJson == "" then "{}" else metaJson, now)
  }

  /** The row the lookup SELECT finds: the message id and whether there was one. */
  function LookupRef(refs: map<RefKey, RefRow>, k: RefKey): (found: (string, bool))
    ensures found.1 <==> k in refs
    ensures found.1 ==> found.0 == refs[k].messageId
    ensures !found.1 ==> found.0 == ""
  {
    if k in refs then (refs[k].messageId, true) else ("", false)
  }

  /** An upsert followed by a lookup of the same key finds the upserted message, keeps the first
      creation time, and leaves every other key as it was. */
  lemma UpsertThenLookup(refs: map<RefKey, RefRow>, k: RefKey, messageId: string, metaJson: string, now: Time, other: RefKey)
    ensures LookupRef(UpsertRef(refs, k, messageId, metaJson, now), k) == (messageId, true)
    ensures k in refs ==> UpsertRef(refs, k, messageId, metaJson, now)[k].createdAt == refs[k].createdAt
    ensures other != k ==> LookupRef(UpsertRef(refs, k, messageId, metaJson, now), other) == LookupRef(refs, other)
    ensures UpsertRef(refs, k, messageId, metaJson, now).Keys == refs.Keys + {k}
  {
  }

  function UpsertState(states: map<StateKey, StateRow>, k: StateKey, folder: string, state: string, extraJson: string, now: Time): (s: map<StateKey, StateRow>)
    ensures s.Keys == states.Keys + {k}
    ensures s[k] == StateRow(folder, state, now, extraJson)
    ensures forall o | o in states && o != k :: s[o] == states[o]
  {
    states[k := StateRow(folder, state, now, extraJson)]
  }

  // ---------------------------------------------------------------- the v3 reference backfill

  /** The PAT message id a row's meta_json carries, decoded best-effort. */
  function PatMidOf(r: Row): string {
    DecodeMetaLenient(r.meta).delivery.patMID
  }

  function BackfillKey(r: Row, envCallsign: string, envStation: string): RefKey {
    RefKey(PatBackend, PatMidOf(r), IdentityScope(r.from.callsign, envCallsign, envStation))
  }

  /** One `INSERT OR IGNORE` of the backfill: rows without a PAT message id are skipped. */
  function BackfillOne(refs: map<RefKey, RefRow>, r: Row, envCallsign: string, envStation: string, now: Time): map<RefKey, RefRow> {
    if PatMidOf(r) == "" then refs
    else
      var k := BackfillKey(r, envCallsign, envStation);
      if k in refs then refs else refs[k := RefRow(r.id, "{}", now, now)]
  }

  /** The backfill over the rows in scan order. */
  function BackfillRefs(refs: map<RefKey, RefRow>, rows: seq<Row>, envCallsign: string, envStation: string, now: Time): map<RefKey, RefRow>
    decreases |rows|
  {
    if rows == [] then refs
    else BackfillOne(BackfillRefs(refs, rows[..|rows| - 1], envCallsign, envStation, now), rows[|rows| - 1], envCallsign, envStation, now)
  }

  /** The backfill only adds: every reference present before keeps its row. */
  lemma {:induction false} BackfillKeeps(refs: map<RefKey, RefRow>, rows: seq<Row>, envCallsign: string, envStation: string, now: Time)
    ensures var out := BackfillRefs(refs, rows, envCallsign, envStation, now);
            forall k | k in refs :: k in out && out[k] == refs[k]
    decreases |rows|
  {
    if rows != [] {
      BackfillKeeps(refs, rows[..|rows| - 1], envCallsign, envStation, now);
    }
  }

  /** What one backfill step adds is the key of the row it scanned, naming that row. */
  lemma BackfillOneAdds(prev: map<RefKey, RefRow>, r: Row, envCallsign: string, envStation: string, now: Time)
    ensures var out := BackfillOne(prev, r, envCallsign, envStation, now);
            && (forall k | k in prev :: k in out && out[k] == prev[k])
            && (forall k | k in out && k !in prev ::
                  k == BackfillKey(r, envCallsign, envStation) && k.externalId != "" && out[k].messageId == r.id)
  {
  }

  /** Every reference the backfill adds is a PAT reference naming a scanned row that carries
      that PAT message id, under the scope derived from the row's sender. */
  lemma {:induction false} BackfillSound(refs: map<RefKey, RefRow>, rows: seq<Row>, envCallsign: string, envStation: string, now: Time)
    ensures var out := BackfillRefs(refs, rows, envCallsign, envStation, now);
            forall k | k in out && k !in refs ::
              && k.backend == PatBackend && k.externalId != ""
              && exists r | r in rows :: r.id == out[k].messageId && k == BackfillKey(r, envCallsign, envStation)
    decreases |rows|
  {
    if rows != [] {
      var init := rows[..|rows| - 1];
      var last := rows[|rows| - 1];
      BackfillSound(refs, init, envCallsign, envStation, now);
      var prev := BackfillRefs(refs, init, envCallsign, envStation, now);
      var out := BackfillOne(prev, last, envCallsign, envStation, now);
      BackfillOneAdds(prev, last, envCallsign, envStation, now);
      forall k | k in out && k !in refs
        ensures && k.backend == PatBackend && k.externalId != ""
                && exists r | r in rows :: r.id == out[k].messageId && k == BackfillKey(r, envCallsign, envStation)
      {
        if k in prev {
          var r :| r in init && r.id == prev[k].messageId && k == BackfillKey(r, envCallsign, envStation);
          assert r in rows;
        } else {
          assert last in rows;
        }
      }
    }
  }

  /** Every scanned row that carries a PAT message id ends up referenced under its key (by that
      row, or by an earlier row or reference that claimed the same key). */
  lemma {:induction false} BackfillComplete(refs: map<RefKey, RefRow>, rows: seq<Row>, envCallsign: string, envStation: string, now: Time)
    ensures var out := BackfillRefs(refs, rows, envCallsign, envStation, now);
            forall r | r in rows && PatMidOf(r) != "" :: BackfillKey(r, envCallsign, envStation) in out
    decreases |rows|
  {
    if rows != [] {
      var init := rows[..|rows| - 1];
      BackfillComplete(refs, init, envCallsign, envStation, now);
      BackfillKeeps(BackfillRefs(refs, init, envCallsign, envStation, now), [rows[|rows| - 1]], envCallsign, envStation, now);
      assert rows == init + [rows[|rows| - 1]];
    }
  }

  // ---------------------------------------------------------------- scopes ORDER BY scope

  function ScopesOf(entries: seq<ScopeEntry>): set<string> {
    set e | e in entries :: e.scope
  }

  /** Strictly ascending by scope: sorted, and each scope once. */
  predicate ScopesAscending(entries: seq<ScopeEntry>) {
    forall i | 0 <= i < |entries| - 1 :: Before(entries[i].scope, entries[i + 1].scope)
  }

  function InsertScope(x: ScopeEntry, entries: seq<ScopeEntry>): (out: seq<ScopeEntry>)
    requires ScopesAscending(entries) && x.scope !in ScopesOf(entries)
    ensures ScopesAscending(out)
    ensures ScopesOf(out) == ScopesOf(entries) + {x.scope}
    ensures forall e | e in out :: e == x || e in entries
    ensures |out| > 0 && (out[0] == x || (|entries| > 0 && out[0] == entries[0]))
  {
    if entries == [] || Before(x.scope, entries[0].scope) then [x] + entries
    else
      BeforeTotal(x.scope, entries[0].scope);
      var tail := entries[1..];
      assert ScopesOf(entries) == {entries[0].scope} + ScopesOf(tail) by {
        assert entries == [entries[0]] + tail;
      }
      var rest := InsertScope(x, tail);
      [entries[0]] + rest
  }

  // ---------------------------------------------------------------- the store

  class MessageStore {
    /** messages, by primary key, and the keys in rowid order. */
    var messages: map<string, Row>
    var order: seq<string>
    /** The versions recorded in schema_migrations. */
    var migrations: set<nat>
    var refs: map<RefKey, RefRow>
    var states: map<StateKey, StateRow>
    var scopes: map<string, ScopeRow>
    /** Every status update requested through SetStatusByID, in order. */
    ghost var statusLog: seq<StatusWrite>

    /** The database's integrity: primary keys match the rows, the rowid order lists each key
        once, migrations are recorded in sequence, the v3 tables exist only from v3 on, and
        from v2 on every row has an update time. */
    ghost predicate Valid()
      reads this
    {
      && (forall id | id in messages :: messages[id].id == id)
      && (forall i | 0 <= i < |order| :: order[i] in messages)
      && (forall id | id in messages :: id in order)
      && (forall i, j | 0 <= i < j < |order| :: order[i] != order[j])
      && migrations <= {SchemaV1, SchemaV2, SchemaV3}
      && (SchemaV3 in migrations ==> SchemaV2 in migrations)
      && (SchemaV2 in migrations ==> SchemaV1 in migrations)
      && (SchemaV1 !in migrations ==> messages == map[])
      && (SchemaV3 !in migrations ==> refs == map[] && states == map[])
      && (SchemaV2 in migrations ==> forall id | id in messages :: messages[id].updatedAt.Some?)
    }

    /** A store as Open returns it: valid, with schema v1 applied. */
    ghost predicate Opened()
      reads this
    {
      Valid() && SchemaV1 in migrations
    }

    ghost function Rows(): seq<Row>
      reads this
      requires Valid()
    {
      RowsOf(order, messages)
    }

    /** A database file with no tables yet. */
    constructor Fresh()
      ensures Valid() && migrations == {} && messages == map[] && order == []
      ensures scopes == map[] && statusLog == []
    {
      messages, order, migrations := map[], [], {};
      refs, states, scopes := map[], map[], map[];
      statusLog := [];
    }

    /** An existing database file: its rows by primary key, the keys in rowid order, and the
        recorded migrations. */
    constructor Existing(rowsById: map<string, Row>, rowOrder: seq<string>, applied: set<nat>, scopeRows: map<string, ScopeRow>)
      requires forall id | id in rowsById :: rowsById[id].id == id
      requires (forall i | 0 <= i < |rowOrder| :: rowOrder[i] in rowsById) && (forall id | id in rowsById :: id in rowOrder)
      requires forall i, j | 0 <= i < j < |rowOrder| :: rowOrder[i] != rowOrder[j]
      requires applied <= {SchemaV1, SchemaV2, SchemaV3}
      requires (SchemaV3 in applied ==> SchemaV2 in applied) && (SchemaV2 in applied ==> SchemaV1 in applied)
      requires SchemaV1 !in applied ==> rowsById == map[]
      requires SchemaV2 in applied ==> forall id | id in rowsById :: rowsById[id].updatedAt.Some?
      ensures Valid() && migrations == applied && messages == rowsById && order == rowOrder
      ensures scopes == scopeRows && refs == map[] && states == map[] && statusLog == []
    {
      messages, order, migrations := rowsById, rowOrder, applied;
      refs, states, scopes := map[], map[], scopeRows;
      statusLog := [];
    }

    /** Schema migration as Open runs it. A database without v1 gets the v1 schema and nothing
        else; otherwise v2 (the updated_at backfill) and v3 (the reference tables and the PAT
        reference backfill) are applied when missing, in that order. */
    method Migrate(now: Time, envCallsign: string, envStation: string)
      requires Valid()
      modifies this
      ensures Opened()
      ensures order == old(order) && scopes == old(scopes) && statusLog == old(statusLog)
      ensures SchemaV1 !in old(migrations) ==>
                migrations == {SchemaV1} && messages == old(messages) && refs == old(refs) && states == old(states)
      ensures SchemaV1 in old(migrations) ==> migrations == {SchemaV1, SchemaV2, SchemaV3}
      ensures SchemaV1 in old(migrations) && SchemaV2 in old(migrations) ==> messages == old(messages)
      ensures SchemaV1 in old(migrations) && SchemaV2 !in old(migrations) ==>
                messages == map id | id in old(messages) :: Backfilled(old(messages)[id])
      ensures SchemaV3 in old(migrations) ==> refs == old(refs) && states == old(states)
      ensures SchemaV1 in old(migrations) && SchemaV3 !in old(migrations) ==>
                refs == BackfillRefs(map[], Rows(), envCallsign, envStation, now) && states == map[]
    {
      if SchemaV1 !in migrations {
        migrations := migrations + {SchemaV1};
        return;
      }
      if SchemaV2 !in migrations {
        ApplyV2();
      }
      if SchemaV3 !in migrations {
        ApplyV3(now, envCallsign, envStation);
      }
    }

    /** Schema v2: rows whose updated_at is the empty text take their creation time. */
    method ApplyV2()
      requires Valid() && SchemaV1 in migrations && SchemaV2 !in migrations
      modifies this
      ensures Valid() && migrations == old(migrations) + {SchemaV2}
      ensures messages == map id | id in old(messages) :: Backfilled(old(messages)[id])
      ensures order == old(order) && refs == old(refs) && states == old(states)
      ensures scopes == old(scopes) && statusLog == old(statusLog)
    {
      var backfilled := map id | id in messages :: Backfilled(messages[id]);
      assert backfilled.Keys == messages.Keys;
      assert forall id | id in backfilled :: backfilled[id].id == id && backfilled[id].updatedAt.Some?;
      messages := backfilled;
      migrations := migrations + {SchemaV2};
    }

    /** Schema v3: the reference and backend state tables, then the PAT reference backfill. */
    method ApplyV3(now: Time, envCallsign: string, envStation: string)
      requires Valid() && SchemaV2 in migrations && SchemaV3 !in migrations
      modifies this
      ensures Valid() && migrations == old(migrations) + {SchemaV3}
      ensures refs == BackfillRefs(map[], Rows(), envCallsign, envStation, now) && states == map[]
      ensures messages == old(messages) && order == old(order)
      ensures scopes == old(scopes) && statusLog == old(statusLog)
    {
      refs := ScanBackfill(RowsOf(order, messages), envCallsign, envStation, now);
      migrations := migrations + {SchemaV3};
    }

    /** INSERT of a new message row; a second message with the same id is refused. */
    method SaveMessage(msg: Option<Message>, dbErr: Option<string>) returns (r: Outcome)
      requires Opened()
      modifies this
      ensures Opened()
      ensures migrations == old(migrations) && refs == old(refs) && states == old(states)
      ensures scopes == old(scopes) && statusLog == old(statusLog)
      ensures msg.None? ==> r == Fail("SaveMessage: msg is nil")
      ensures msg.Some? && dbErr.Some? ==> r == Fail("SaveMessage: " + dbErr.value)
      ensures msg.Some? && dbErr.None? && msg.value.id in old(messages) ==> r == Fail("SaveMessage: " + DuplicateId)
      ensures r.Fail? ==> messages == old(messages) && order == old(order)
      ensures r.Pass? <==> msg.Some? && dbErr.None? && msg.value.id !in old(messages)
      ensures r.Pass? ==>
                messages == old(messages)[msg.value.id := RowOf(msg.value)] && order == old(order) + [msg.value.id]
    {
      if msg.None? {
        return Fail("SaveMessage: msg is nil");
      }
      if dbErr.Some? {
        return Fail("SaveMessage: " + dbErr.value);
      }
      var m := msg.value;
      if m.id in messages {
        return Fail("SaveMessage: " + DuplicateId);
      }
      messages := messages[m.id := RowOf(m)];
      order := order + [m.id];
      r := Pass;
    }

    /** Sets status, update time and last error (and the send time for `sent`) of the message
        with this id unless it is deleted; an id that matches nothing is not an error. */
    method SetStatusByID(id: string, status: Status, lastErr: string, now: Time, dbErr: Option<string>) returns (r: Outcome)
      requires Opened()
      modifies this
      ensures Opened()
      ensures order == old(order) && migrations == old(migrations) && refs == old(refs)
      ensures states == old(states) && scopes == old(scopes)
      ensures statusLog == old(statusLog) + [StatusWrite(id, status, lastErr)]
      ensures r.Fail? <==> dbErr.Some?
      ensures dbErr.Some? ==> r == Fail("SetStatusByID: " + dbErr.value)
      ensures messages == AfterStatus(old(messages), StatusWrite(id, status, lastErr), dbErr, now)
    {
      statusLog := statusLog + [StatusWrite(id, status, lastErr)];
      if dbErr.Some? {
        return Fail("SetStatusByID: " + dbErr.value);
      }
      if id in messages && messages[id].status != Deleted {
        messages := messages[id := WithStatus(messages[id], status, lastErr, now)];
      }
      r := Pass;
    }

    method MarkSending(id: string, now: Time, dbErr: Option<string>) returns (r: Outcome)
      requires Opened()
      modifies this
      ensures Opened()
      ensures order == old(order) && migrations == old(migrations) && refs == old(refs)
      ensures states == old(states) && scopes == old(scopes)
      ensures statusLog == old(statusLog) + [StatusWrite(id, Sending, "")]
      ensures r.Fail? <==> dbErr.Some?
      ensures dbErr.Some? ==> r == Fail("SetStatusByID: " + dbErr.value)
      ensures messages == AfterStatus(old(messages), StatusWrite(id, Sending, ""), dbErr, now)
    {
      r := SetStatusByID(id, Sending, "", now, dbErr);
    }

    /** Queues every draft or failed message whose tags text contains `tag`, clearing its last
        error, and reports how many rows changed. */
    method QueueByTag(tag: string, now: Time, dbErr: Option<string>) returns (r: Result<nat>)
      requires Opened()
      modifies this
      ensures Opened()
      ensures order == old(order) && migrations == old(migrations) && refs == old(refs)
      ensures states == old(states) && scopes == old(scopes) && statusLog == old(statusLog)
      ensures dbErr.Some? ==> r == Err("QueueByTag: " + dbErr.value) && messages == old(messages)
      ensures dbErr.None? ==>
                && r == Ok(|set id | id in old(messages) && Requeueable(old(messages)[id], tag)|)
                && messages == map id | id in old(messages) ::
                     if Requeueable(old(messages)[id], tag) then Requeued(old(messages)[id], now) else old(messages)[id]
    {
      if dbErr.Some? {
        return Err("QueueByTag: " + dbErr.value);
      }
      var n := |set id | id in messages && Requeueable(messages[id], tag)|;
      messages := map id | id in messages ::
        if Requeueable(messages[id], tag) then Requeued(messages[id], now) else messages[id];
      r := Ok(n);
    }

    /** Soft delete: marks the message deleted and reports whether a row changed; the update
        time is left as it was. */
    method DeleteByID(id: string, dbErr: Option<string>) returns (r: Result<nat>)
      requires Opened()
      modifies this
      ensures Opened()
      ensures order == old(order) && migrations == old(migrations) && refs == old(refs)
      ensures states == old(states) && scopes == old(scopes) && statusLog == old(statusLog)
      ensures dbErr.Some? ==> r == Err(dbErr.value) && messages == old(messages)
      ensures dbErr.None? && id in old(messages) && old(messages)[id].status != Deleted ==>
                r == Ok(1) && messages == old(messages)[id := old(messages)[id].(status := Deleted)]
      ensures dbErr.None? && (id !in old(messages) || old(messages)[id].status == Deleted) ==>
                r == Ok(0) && messages == old(messages)
    {
      if dbErr.Some? {
        return Err(dbErr.value);
      }
      if id in messages && messages[id].status != Deleted {
        messages := messages[id := messages[id].(status := Deleted)];
        return Ok(1);
      }
      r := Ok(0);
    }

    /** The outbox: queued messages (those whose tags text contains `tag` when the trimmed tag
        is not empty), oldest update first, at most `limit` (25 when `limit` <= 0). */
    method ListQueued(tag: string, limit: int, dbErr: Option<string>) returns (r: Result<seq<Message>>)
      requires Opened()
      ensures dbErr.Some? ==> r == Err("ListQueued: " + dbErr.value)
      ensures dbErr.None? ==> r.Ok?
      ensures r.Ok? ==>
                var q := Query(Rows(), QueuedWithTag(tag), UpdatedAsc, limit);
                |r.value| == |q| && forall i | 0 <= i < |q| :: r.value[i] == MessageOf(q[i])
    {
      if dbErr.Some? {
        return Err("ListQueued: " + dbErr.value);
      }
      var q := Query(RowsOf(order, messages), QueuedWithTag(tag), UpdatedAsc, limit);
      var out := Messages(q);
      r := Ok(out);
    }

    /** Summaries of the messages in any of the given statuses (draft, queued and failed when none
        are given), most recently updated first, at most `limit` (25 when `limit` <= 0). */
    method ListByStatus(statuses: seq<Status>, limit: int, dbErr: Option<string>) returns (r: Result<seq<Summary>>)
      requires Opened()
      ensures dbErr.Some? ==> r == Err("ListByStatus: " + dbErr.value)
      ensures dbErr.None? ==> r.Ok?
      ensures r.Ok? ==>
                var wanted := if |statuses| == 0 then [Draft, Queued, Failed] else statuses;
                var q := Query(Rows(), StatusIn(wanted), UpdatedDesc, limit);
                |r.value| == |q| && forall i | 0 <= i < |q| :: r.value[i] == SummaryOf(q[i])
    {
      if dbErr.Some? {
        return Err("ListByStatus: " + dbErr.value);
      }
      var wanted := if |statuses| == 0 then [Draft, Queued, Failed] else statuses;
      var q := Query(RowsOf(order, messages), StatusIn(wanted), UpdatedDesc, limit);
      var out := Summaries(q);
      r := Ok(out);
    }

    /** Summaries of all messages (deleted ones only when asked), newest first, at most `limit`
        (25 when `limit` <= 0). */
    method ListMessages(limit: int, includeDeleted: bool, dbErr: Option<string>) returns (r: Result<seq<Summary>>)
      requires Opened()
      ensures dbErr.Some? ==> r == Err("ListMessages: " + dbErr.value)
      ensures dbErr.None? ==> r.Ok?
      ensures r.Ok? ==>
                var q := Query(Rows(), VisibleOrAll(includeDeleted), CreatedDesc, limit);
                |r.value| == |q| && forall i | 0 <= i < |q| :: r.value[i] == SummaryOf(q[i])
    {
      if dbErr.Some? {
        return Err("ListMessages: " + dbErr.value);
      }
      var q := Query(RowsOf(order, messages), VisibleOrAll(includeDeleted), CreatedDesc, limit);
      var out := Summaries(q);
      r := Ok(out);
    }

    /** Links a message to a backend's identifier under a scope; an existing link for the same
        (backend, external id, scope) is repointed. */
    method UpsertExternalRef(messageId: string, backend: string, externalId: string, scope: string,
                             metaJson: string, now: Time, dbErr: Option<string>) returns (r: Outcome)
      requires Opened()
      modifies this
      ensures Opened()
      ensures messages == old(messages) && order == old(order) && migrations == old(migrations)
      ensures states == old(states) && scopes == old(scopes) && statusLog == old(statusLog)
      ensures messageId == "" || backend == "" || externalId == "" ==>
                r == Fail("UpsertExternalRef: messageID/backend/externalID required")
      ensures messageId != "" && backend != "" && externalId != "" && SchemaV3 !in migrations ==>
                r == Fail("UpsertExternalRef: " + NoRefsTable)
      ensures messageId != "" && backend != "" && externalId != "" && SchemaV3 in migrations && dbErr.Some? ==>
                r == Fail("UpsertExternalRef: " + dbErr.value)
      ensures r.Pass? <==> messageId != "" && backend != "" && externalId != "" && SchemaV3 in migrations && dbErr.None?
      ensures refs == RefsAfterUpsert(old(refs), SchemaV3 in migrations, messageId, backend, externalId, scope, metaJson, now, dbErr)
    {
      if messageId == "" || backend == "" || externalId == "" {
        return Fail("UpsertExternalRef: messageID/backend/externalID required");
      }
      if SchemaV3 !in migrations {
        return Fail("UpsertExternalRef: " + NoRefsTable);
      }
      if dbErr.Some? {
        return Fail("UpsertExternalRef: " + dbErr.value);
      }
      var meta := if metaJson == "" then "{}" else metaJson;
      refs := UpsertRef(refs, RefKey(backend, externalId, scope), messageId, meta, now);
      r := Pass;
    }

    /** The message linked to (backend, external id, scope); a missing link is `false`, not an
        error. */
    method GetMessageIDByExternalRef(backend: string, externalId: string, scope: string, dbErr: Option<string>)
      returns (r: Result<(string, bool)>)
      requires Opened()
      ensures SchemaV3 !in migrations ==> r == Err("GetMessageIDByExternalRef: " + NoRefsTable)
      ensures SchemaV3 in migrations && dbErr.Some? ==> r == Err("GetMessageIDByExternalRef: " + dbErr.value)
      ensures r.Ok? <==> SchemaV3 in migrations && dbErr.None?
      ensures r.Ok? ==> r.value.1 == (RefKey(backend, externalId, scope) in refs)
      ensures r.Ok? && r.value.1 ==> r.value.0 == refs[RefKey(backend, externalId, scope)].messageId
      ensures r.Ok? && !r.value.1 ==> r.value.0 == ""
    {
      if SchemaV3 !in migrations {
        return Err("GetMessageIDByExternalRef: " + NoRefsTable);
      }
      if dbErr.Some? {
        return Err("GetMessageIDByExternalRef: " + dbErr.value);
      }
      r := Ok(LookupRef(refs, RefKey(backend, externalId, scope)));
    }

    /** Records a backend's folder and state for a message, replacing the previous record. */
    method UpsertBackendState(messageId: string, backend: string, folder: string, state: string,
                              extraJson: string, now: Time, dbErr: Option<string>) returns (r: Outcome)
      requires Opened()
      modifies this
      ensures Opened()
      ensures messages == old(messages) && order == old(order) && migrations == old(migrations)
      ensures refs == old(refs) && scopes == old(scopes) && statusLog == old(statusLog)
      ensures messageId == "" || backend == "" ==> r == Fail("UpsertBackendState: messageID/backend required")
      ensures messageId != "" && backend != "" && SchemaV3 !in migrations ==>
                r == Fail("UpsertBackendState: " + NoStateTable)
      ensures messageId != "" && backend != "" && SchemaV3 in migrations && dbErr.Some? ==>
                r == Fail("UpsertBackendState: " + dbErr.value)
      ensures r.Fail? ==> states == old(states)
      ensures r.Pass? <==> messageId != "" && backend != "" && SchemaV3 in migrations && dbErr.None?
      ensures r.Pass? ==>
                states == UpsertState(old(states), StateKey(messageId, backend), folder, state,
                                      if extraJson == "" then "{}" else extraJson, now)
    {
      if messageId == "" || backend == "" {
        return Fail("UpsertBackendState: messageID/backend required");
      }
      if SchemaV3 !in migrations {
        return Fail("UpsertBackendState: " + NoStateTable);
      }
      if dbErr.Some? {
        return Fail("UpsertBackendState: " + dbErr.value);
      }
      var extra := if extraJson == "" then "{}" else extraJson;
      states := UpsertState(states, StateKey(messageId, backend), folder, state, extra, now);
      r := Pass;
    }

    /** `INSERT OR IGNORE` into scopes: creating an existing scope changes nothing. */
    method CreateScope(scope: string, note: string, now: Time, dbErr: Option<string>) returns (r: Outcome)
      requires Opened()
      modifies this
      ensures Opened()
      ensures messages == old(messages) && order == old(order) && migrations == old(migrations)
      ensures refs == old(refs) && states == old(states) && statusLog == old(statusLog)
      ensures dbErr.Some? ==> r == Fail("CreateScope: " + dbErr.value) && scopes == old(scopes)
      ensures dbErr.None? ==> r == Pass
      ensures dbErr.None? && scope in old(scopes) ==> scopes == old(scopes)
      ensures dbErr.None? && scope !in old(scopes) ==> scopes == old(scopes)[scope := ScopeRow(now, note)]
    {
      if dbErr.Some? {
        return Fail("CreateScope: " + dbErr.value);
      }
      if scope !in scopes {
        scopes := scopes[scope := ScopeRow(now, note)];
      }
      r := Pass;
    }

    method ScopeExists(scope: string, dbErr: Option<string>) returns (r: Result<bool>)
      requires Opened()
      ensures dbErr.Some? ==> r == Err("ScopeExists: " + dbErr.value)
      ensures dbErr.None? ==> r == Ok(scope in scopes)
    {
      if dbErr.Some? {
        return Err("ScopeExists: " + dbErr.value);
      }
      r := Ok(scope in scopes);
    }

    /** Every scope once, in ascending code-point order, with its creation time and note. */
    method ListScopes(dbErr: Option<string>) returns (r: Result<seq<ScopeEntry>>)
      requires Opened()
      ensures dbErr.Some? ==> r == Err("ListScopes: " + dbErr.value)
      ensures dbErr.None? ==> r.Ok?
      ensures r.Ok? ==> ScopesAscending(r.value) && ScopesOf(r.value) == scopes.Keys
      ensures r.Ok? ==> forall e | e in r.value :: e.scope in scopes && scopes[e.scope] == ScopeRow(e.createdAt, e.note)
    {
      if dbErr.Some? {
        return Err("ListScopes: " + dbErr.value);
      }
      var rest := scopes.Keys;
      var out: seq<ScopeEntry> := [];
      while rest != {}
        invariant rest <= scopes.Keys
        invariant ScopesAscending(out) && ScopesOf(out) == scopes.Keys - rest
        invariant forall e | e in out :: e.scope in scopes && scopes[e.scope] == ScopeRow(e.createdAt, e.note)
        decreases rest
      {
        var s :| s in rest;
        var e := ScopeEntry(s, scopes[s].createdAt, scopes[s].note);
        out := InsertScope(e, out);
        rest := rest - {s};
      }
      r := Ok(out);
    }

    /** Records a PAT message id: a reference under the empty scope (its failure ignored), then
        the message's meta_json with the id set. */
    method SetPatMIDByID(id: string, patMID: string, now: Time, refErr: Option<string>, dbErr: Option<string>)
      returns (r: Outcome)
      requires Opened()
      modifies this
      ensures Opened()
      ensures order == old(order) && migrations == old(migrations) && states == old(states)
      ensures scopes == old(scopes) && statusLog == old(statusLog)
      ensures refs == RefsAfterUpsert(old(refs), SchemaV3 in migrations, id, PatBackend, patMID, "", "{}", now, refErr)
      ensures dbErr.Some? ==> r == Fail("SetPatMIDByID select meta_json: " + dbErr.value)
      ensures dbErr.None? && id !in old(messages) ==> r == Fail("SetPatMIDByID select meta_json: " + NoRows)
      ensures dbErr.None? && id in old(messages) && old(messages)[id].meta.MetaGarbage? ==>
                r == Fail("SetPatMIDByID unmarshal meta_json: " + WithPatMID(old(messages)[id], patMID).error)
      ensures r.Fail? ==> messages == old(messages)
      ensures r.Pass? <==> dbErr.None? && id in old(messages) && !old(messages)[id].meta.MetaGarbage?
      ensures r.Pass? ==> messages == old(messages)[id := WithPatMID(old(messages)[id], patMID).value]
    {
      var _ := UpsertExternalRef(id, PatBackend, patMID, "", "{}", now, refErr);
      r := WritePatMIDMeta(id, patMID, dbErr);
    }

    /** SetPatMIDByID's second half: select meta_json, decode it, set the PAT message id, write
        it back. */
    method WritePatMIDMeta(id: string, patMID: string, dbErr: Option<string>) returns (r: Outcome)
      requires Opened()
      modifies this
      ensures Opened()
      ensures order == old(order) && migrations == old(migrations) && states == old(states)
      ensures refs == old(refs) && scopes == old(scopes) && statusLog == old(statusLog)
      ensures dbErr.Some? ==> r == Fail("SetPatMIDByID select meta_json: " + dbErr.value)
      ensures dbErr.None? && id !in old(messages) ==> r == Fail("SetPatMIDByID select meta_json: " + NoRows)
      ensures dbErr.None? && id in old(messages) && old(messages)[id].meta.MetaGarbage? ==>
                r == Fail("SetPatMIDByID unmarshal meta_json: " + WithPatMID(old(messages)[id], patMID).error)
      ensures r.Fail? ==> messages == old(messages)
      ensures r.Pass? <==> dbErr.None? && id in old(messages) && !old(messages)[id].meta.MetaGarbage?
      ensures r.Pass? ==> messages == old(messages)[id := WithPatMID(old(messages)[id], patMID).value]
    {
      if dbErr.Some? {
        return Fail("SetPatMIDByID select meta_json: " + dbErr.value);
      }
      if id !in messages {
        return Fail("SetPatMIDByID select meta_json: " + NoRows);
      }
      var updated := WithPatMID(messages[id], patMID);
      if updated.Err? {
        return Fail("SetPatMIDByID unmarshal meta_json: " + updated.error);
      }
      messages := messages[id := updated.value];
      r := Pass;
    }
  }

  /** The v3 backfill's scan: every row of the table, in rowid order, through one `INSERT OR
      IGNORE` each, into the newly created (empty) reference table. */
  method ScanBackfill(rows: seq<Row>, envCallsign: string, envStation: string, now: Time) returns (acc: map<RefKey, RefRow>)
    ensures acc == BackfillRefs(map[], rows, envCallsign, envStation, now)
  {
    acc := map[];
    var i := 0;
    while i < |rows|
      invariant 0 <= i <= |rows|
      invariant acc == BackfillRefs(map[], rows[..i], envCallsign, envStation, now)
    {
      assert rows[..i + 1][..i] == rows[..i];
      acc := BackfillOne(acc, rows[i], envCallsign, envStation, now);
      i := i + 1;
    }
    assert rows[..|rows|] == rows;
  }

  /** The messages rebuilt from the selected rows, in order. */
  method Messages(q: seq<Row>) returns (out: seq<Message>)
    ensures |out| == |q| && forall i | 0 <= i < |q| :: out[i] == MessageOf(q[i])
  {
    out := [];
    var i := 0;
    while i < |q|
      invariant 0 <= i <= |q|
      invariant |out| == i && forall j | 0 <= j < i :: out[j] == MessageOf(q[j])
    {
      out := out + [MessageOf(q[i])];
      i := i + 1;
    }
  }

  /** The summaries of the selected rows, in order. */
  method Summaries(q: seq<Row>) returns (out: seq<Summary>)
    ensures |out| == |q| && forall i | 0 <= i < |q| :: out[i] == SummaryOf(q[i])
  {
    out := [];
    var i := 0;
    while i < |q|
      invariant 0 <= i <= |q|
      invariant |out| == i && forall j | 0 <= j < i :: out[j] == SummaryOf(q[j])
    {
      out := out + [SummaryOf(q[i])];
      i := i + 1;
    }
  }

  /** In a valid store each listed row is the table's row for its own id, and ids are distinct. */
  lemma RowsFacts(order: seq<string>, messages: map<string, Row>)
    requires forall i | 0 <= i < |order| :: order[i] in messages
    requires forall id | id in messages :: messages[id].id == id
    requires forall i, j | 0 <= i < j < |order| :: order[i] != order[j]
    ensures DistinctIds(RowsOf(order, messages))
    ensures forall r | r in RowsOf(order, messages) :: r.id in messages && messages[r.id] == r
  {
    var rows := RowsOf(order, messages);
    forall i, j | 0 <= i < j < |rows| ensures rows[i].id != rows[j].id {
      assert rows[i].id == order[i] && rows[j].id == order[j];
    }
  }

  // ---------------------------------------------------------------- what the importers write

  /** Storage-engine failures for one imported message, by statement: the reference lookup, the message
      insert, the reference upsert and the backend state upsert. */
  datatype StoreFaults = StoreFaults(lookup: Option<string>, save: Option<string>, ref: Option<string>, state: Option<string>)

  /** `map` b keeps every entry of `a`. */
  predicate Extends<K, V(==)>(a: map<K, V>, b: map<K, V>) {
    forall x | x in a :: x in b && b[x] == a[x]
  }

  /** The tables an import writes, as values. */
  datatype Ledger = Ledger(messages: map<string, Row>, order: seq<string>, refs: map<RefKey, RefRow>,
                           states: map<StateKey, StateRow>)

  ghost function LedgerOf(st: MessageStore): Ledger
    reads st
  {
    Ledger(st.messages, st.order, st.refs, st.states)
  }

  /** An empty JSON document is stored as `{}`. */
  function StoredJson(j: string): string {
    if j == "" then "{}" else j
  }

  lemma ExtendsRefl<K, V>(a: map<K, V>)
    ensures Extends(a, a)
  {
  }

  lemma ExtendsTrans<K, V>(a: map<K, V>, b: map<K, V>, c: map<K, V>)
    requires Extends(a, b) && Extends(b, c)
    ensures Extends(a, c)
  {
  }
}
