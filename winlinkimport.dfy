/** The Winlink Express importer: every message the registry lists is looked up by its Winlink
    id in the callsign's scope; a known one has its backend state refreshed, an unknown one is
    read from its MIME file and becomes a new canonical message linked to that id. The
    Winlink Express side is only read. */
module WinlinkImport {
  import opened Wrappers
  import opened Text
  import opened Core
  import opened Identity
  import opened StoreSchema
  import opened Store
  import opened Registry

  const StoreNil := "ImportFromWinlinkExpress: store is nil"
  const NoSubject := "(no subject)"
  const WinlinkBackend := "winlink"

  // ---------------------------------------------------------------- folders and paths

  /** `mapWinlinkFolderToStatus`: the coarse canonical status of a message found in a Winlink
      Express folder, matched on the trimmed, lower-cased folder name. */
  function MapWinlinkFolderToStatus(folder: string): (s: Status)
    ensures var f := ToLower(TrimSpace(folder));
            && (s == Sent <==> f == "sent items" || f == "sent")
            && (s == Queued <==> f == "outbox")
            && (s == Draft <==> f != "sent items" && f != "sent" && f != "outbox")
  {
    var f := ToLower(TrimSpace(folder));
    if f == "sent items" || f == "sent" then Sent
    else if f == "outbox" then Queued
    else Draft
  }

  /** What follows the last '/' (all of `s` when there is none). */
  function AfterLastSlash(s: string): (r: string)
    ensures '/' !in r && |r| <= |s|
  {
    if s == [] || s[|s| - 1] == '/' then [] else AfterLastSlash(s[..|s| - 1]) + [s[|s| - 1]]
  }

  /** Go's `filepath.Base` on a slash-separated path: "." for the empty path, "/" for a path of
      slashes only, otherwise the last element once trailing slashes are dropped. */
  function BaseName(path: string): (b: string)
    ensures b != ""
    ensures b == "/" || '/' !in b
    ensures path == "" ==> b == "."
  {
    if path == "" then "."
    else
      var t := TrimRightChar(path, '/');
      if t == "" then "/" else AfterLastSlash(t)
  }

  /** A name appended to a directory is read back as the base name, with or without a trailing
      slash. */
  lemma BaseOfChild(dir: string, name: string, trailing: nat)
    requires name != "" && '/' !in name
    ensures BaseName(dir + "/" + name + seq(trailing, _ => '/')) == name
  {
    var p := dir + "/" + name;
    var slashes: string := seq(trailing, _ => '/');
    TrimSlashes(p, slashes);
    ChildAfterSlash(dir, name);
  }

  lemma {:induction false} TrimSlashes(p: string, slashes: string)
    requires p != [] && p[|p| - 1] != '/'
    requires forall i | 0 <= i < |slashes| :: slashes[i] == '/'
    ensures TrimRightChar(p + slashes, '/') == p
    decreases |slashes|
  {
    if slashes == [] {
      assert p + slashes == p;
    } else {
      var s := p + slashes;
      assert s[..|s| - 1] == p + slashes[..|slashes| - 1];
      TrimSlashes(p, slashes[..|slashes| - 1]);
    }
  }

  lemma {:induction false} ChildAfterSlash(dir: string, name: string)
    requires '/' !in name
    ensures AfterLastSlash(dir + "/" + name) == name
    decreases |name|
  {
    var s := dir + "/" + name;
    if name == [] {
      assert s[|s| - 1] == '/';
    } else {
      var n := |name| - 1;
      assert s[..|s| - 1] == dir + "/" + name[..n];
      assert s[|s| - 1] == name[n];
      ChildAfterSlash(dir, name[..n]);
      assert name[..n] + [name[n]] == name;
    }
  }

  /** The mailbox callsign of a Winlink Express root: its base name, trimmed and upper-cased. */
  function RootCallsign(root: string): string {
    ToUpper(TrimSpace(BaseName(root)))
  }

  // ---------------------------------------------------------------- one registry message

  /** The header fields the MIME reader extracts; a zero date when there is none or it is
      unreadable, an empty sender when the From header does not parse. */
  datatype ParsedHeaders = ParsedHeaders(subject: string, date: Time, fromCallsign: string, fromEmail: string,
                                         to: seq<Address>)

  datatype ImportReport = ImportReport(scanned: nat, created: nat, updated: nat, errors: nat)

  /** What the importer takes from outside: RELAYOPS_CALLSIGN and RELAYOPS_STATION, the
      registry's time layout, the MIME file of each message id under the root, the MIME reader
      (headers and body), the JSON encoding of the backend extra record (from the registry
      record and the MIME text, whose SHA-256 digest it holds), and, for the message at each
      position, the identifier generated for it, the storage failures it meets and the clock
      reading. */
  datatype Environment = Environment(
    envCallsign: string,
    envStation: string,
    parseTime: string -> Option<Time>,
    readMime: string -> Result<string>,
    parse: string -> (ParsedHeaders, string),
    encode: (RegistryRecord, string) -> string,
    newId: nat -> Uuid,
    fault: nat -> StoreFaults,
    now: nat -> Time)

  /** What became of one registry message. */
  datatype Fate =
    | LookupFailed                       // the reference lookup failed
    | MimeFailed                         // the MIME file could not be read
    | Updated(messageId: string)         // already linked: counted as updated
    | SaveFailed(m: Message)             // new: the message was not saved
    | Unlinked(m: Message)               // new: saved but not linked; counted as created and as an error
    | Created(m: Message)                // new: saved and linked

  /** The fates that saved a canonical message. */
  predicate Saved(f: Fate) {
    f.Unlinked? || f.Created?
  }

  function SavedIds(fates: seq<Fate>): set<string> {
    set k | 0 <= k < |fates| && Saved(fates[k]) :: fates[k].m.id
  }

  /** How many of these fates saved a message without linking it. */
  function UnlinkedCount(fates: seq<Fate>): (n: nat)
    ensures n <= |fates|
  {
    if fates == [] then 0
    else UnlinkedCount(fates[..|fates| - 1]) + (if fates[|fates| - 1].Unlinked? then 1 else 0)
  }

  /** The report's created, updated and error counts after one more message: a message saved
      counts as created, and also as an error when its link failed; a linked one counts as
      updated; anything else as an error. */
  function Tally(c: (nat, nat, nat), f: Fate): (d: (nat, nat, nat))
    ensures d.0 + d.1 + d.2 == c.0 + c.1 + c.2 + (if f.Unlinked? then 2 else 1)
  {
    match f
    case Created(_) => (c.0 + 1, c.1, c.2)
    case Unlinked(_) => (c.0 + 1, c.1, c.2 + 1)
    case Updated(_) => (c.0, c.1 + 1, c.2)
    case _ => (c.0, c.1, c.2 + 1)
  }

  /** The report's counts: every message adds to one of them, an unlinked one to two. */
  function Counts(fates: seq<Fate>): (c: (nat, nat, nat))
    ensures c.0 + c.1 + c.2 == |fates| + UnlinkedCount(fates)
  {
    if fates == [] then (0, 0, 0) else Tally(Counts(fates[..|fates| - 1]), fates[|fates| - 1])
  }

  function ReportOf(fates: seq<Fate>): ImportReport {
    var c := Counts(fates);
    ImportReport(|fates|, c.0, c.1, c.2)
  }

  /** The subject of a new message: the registry's, else the MIME header's, else "(no subject)". */
  function SubjectOf(rec: RegistryRecord, hdr: ParsedHeaders): (s: string)
    ensures s != ""
    ensures !AllSpace(rec.subject) ==> s == TrimSpace(rec.subject)
    ensures AllSpace(rec.subject) && !AllSpace(hdr.subject) ==> s == TrimSpace(hdr.subject)
    ensures AllSpace(rec.subject) && AllSpace(hdr.subject) ==> s == NoSubject
  {
    TrimSpaceEmpty(rec.subject);
    TrimSpaceEmpty(hdr.subject);
    var s := TrimSpace(rec.subject);
    if s != "" then s
    else
      var t := TrimSpace(hdr.subject);
      if t != "" then t else NoSubject
  }

  /** The creation time: the registry's, else the MIME Date header's, else the clock. */
  function CreatedOf(rec: RegistryRecord, hdr: ParsedHeaders, now: Time): Time {
    if !IsZero(rec.createdAt) then rec.createdAt
    else if !IsZero(hdr.date) then hdr.date
    else now
  }

  /** The canonical message created for a registry message not yet linked: a fresh id, the
      subject chosen above, the MIME body, created and updated at the creation time, sent at it
      when the registry state is "Sent", the Winlink session allowing any transport, the MIME
      sender (else the registry's) and the MIME recipients (else the registry's, else none). */
  function NewRecord(id: Uuid, rec: RegistryRecord, hdr: ParsedHeaders, body: string, now: Time): (m: Message)
    ensures m.id == id && m.subject == SubjectOf(rec, hdr) && m.body == body && m.tags == Slice([]) && m.lastError == ""
    ensures m.createdAt == m.updatedAt
    ensures !IsZero(rec.createdAt) ==> m.createdAt == rec.createdAt
    ensures IsZero(rec.createdAt) && !IsZero(hdr.date) ==> m.createdAt == hdr.date
    ensures IsZero(rec.createdAt) && IsZero(hdr.date) ==> m.createdAt == now
    ensures m.meta == DefaultMeta().(session := SessionWinlink, transport := TransportPolicy([ModeAny], []))
    ensures hdr.fromCallsign != "" ==> m.from == Address(hdr.fromCallsign, hdr.fromEmail)
    ensures hdr.fromCallsign == "" ==> m.from == Address(TrimSpace(rec.from), "")
    ensures hdr.to != [] ==> m.to == hdr.to
    ensures hdr.to == [] && !AllSpace(rec.to) ==> m.to == [Address(TrimSpace(rec.to), "")]
    ensures hdr.to == [] && AllSpace(rec.to) ==> m.to == []
    ensures rec.state == "Sent" ==> m.status == Sent && m.sentAt == Some(m.createdAt)
    ensures rec.state != "Sent" ==> m.status == MapWinlinkFolderToStatus(rec.folder) && m.sentAt == None
  {
    TrimSpaceEmpty(rec.to);
    var created := CreatedOf(rec, hdr, now);
    var from := if hdr.fromCallsign != "" then Address(hdr.fromCallsign, hdr.fromEmail)
                else Address(TrimSpace(rec.from), "");
    var regTo := TrimSpace(rec.to);
    var to := if hdr.to != [] then hdr.to else if regTo != "" then [Address(regTo, "")] else [];
    var sent := rec.state == "Sent";
    Message(id, SubjectOf(rec, hdr), body, to, from, Slice([]), created, created,
            DefaultMeta().(session := SessionWinlink, transport := TransportPolicy([ModeAny], [])),
            if sent then Sent else MapWinlinkFolderToStatus(rec.folder), if sent then Some(created) else None, "")
  }

  /** The record created for the registry message at position `k` from its MIME text. */
  function RecordFor(rec: RegistryRecord, k: nat, raw: string, env: Environment): Message {
    var (hdr, body) := env.parse(raw);
    NewRecord(env.newId(k), rec, hdr, body, env.now(k))
  }

  // ---------------------------------------------------------------- the reconcile loop, as values

  /** The backend state upsert, whose outcome the importer ignores: written unless the id is
      empty or the write fails. */
  function WriteState(l: Ledger, id: string, rec: RegistryRecord, extra: string, faults: StoreFaults, now: Time): Ledger {
    if id == "" || faults.state.Some? then l
    else l.(states := UpsertState(l.states, StateKey(id, WinlinkBackend), rec.folder, rec.state, StoredJson(extra), now))
  }

  /** A saved message is linked, then its backend state written; a failed link does not stop
      the state write. */
  function Link(l: Ledger, m: Message, key: RefKey, rec: RegistryRecord, extra: string, faults: StoreFaults,
                now: Time): (Fate, Ledger)
  {
    var unlinked := key.externalId == "" || faults.ref.Some?;
    var linked := if unlinked then l else l.(refs := UpsertRef(l.refs, key, m.id, "{}", now));
    (if unlinked then Unlinked(m) else Created(m), WriteState(linked, m.id, rec, extra, faults, now))
  }

  /** A new message: saved (unless the insert fails or the id is taken), then linked. */
  function Admit(l: Ledger, m: Message, key: RefKey, rec: RegistryRecord, extra: string, faults: StoreFaults,
                 now: Time): (Fate, Ledger)
  {
    if faults.save.Some? || m.id in l.messages then (SaveFailed(m), l)
    else Link(l.(messages := l.messages[m.id := RowOf(m)], order := l.order + [m.id]), m, key, rec, extra, faults, now)
  }

  /** One registry message, against the ledger as the earlier ones left it. */
  function Visit(l: Ledger, v3: bool, rec: RegistryRecord, k: nat, scope: string, env: Environment): (Fate, Ledger) {
    var faults := env.fault(k);
    if !v3 || faults.lookup.Some? then (LookupFailed, l)
    else
      var raw := env.readMime(rec.id);
      if raw.Err? then (MimeFailed, l)
      else
        var key := RefKey(WinlinkBackend, rec.id, scope);
        var extra := env.encode(rec, raw.value);
        if key in l.refs then
          var id := l.refs[key].messageId;
          (Updated(id), WriteState(l, id, rec, extra, faults, env.now(k)))
        else Admit(l, RecordFor(rec, k, raw.value, env), key, rec, extra, faults, env.now(k))
  }

  /** The registry's messages in file order, the one at position `k` meeting `env`'s faults
      for `k`. */
  function ImportAll(l: Ledger, v3: bool, recs: seq<RegistryRecord>, scope: string, env: Environment)
    : (r: (seq<Fate>, Ledger))
    ensures |r.0| == |recs|
  {
    if recs == [] then ([], l)
    else
      var n := |recs| - 1;
      var p := ImportAll(l, v3, recs[..n], scope, env);
      var s := Visit(p.1, v3, recs[n], n, scope, env);
      (p.0 + [s.0], s.1)
  }

  /** The scope of a root: its callsign qualified by the station. */
  function ScopeOf(root: string, env: Environment): string {
    IdentityScope(RootCallsign(root), env.envCallsign, env.envStation)
  }

  // ---------------------------------------------------------------- the reconcile loop

  /** The new-message half of one iteration: save, then link. */
  method ImportNew(st: MessageStore, m: Message, key: RefKey, rec: RegistryRecord, extra: string,
                   faults: StoreFaults, now: Time) returns (f: Fate)
    requires st.Opened() && SchemaV3 in st.migrations && key.backend == WinlinkBackend && m.id != ""
    modifies st
    ensures st.Opened()
    ensures st.migrations == old(st.migrations) && st.scopes == old(st.scopes) && st.statusLog == old(st.statusLog)
    ensures (f, LedgerOf(st)) == Admit(old(LedgerOf(st)), m, key, rec, extra, faults, now)
  {
    var saved := st.SaveMessage(Some(m), faults.save);
    if saved.Fail? {
      return SaveFailed(m);
    }
    f := LinkNew(st, m, key, rec, extra, faults, now);
  }

  /** A saved message's reference and backend state writes. */
  method LinkNew(st: MessageStore, m: Message, key: RefKey, rec: RegistryRecord, extra: string,
                 faults: StoreFaults, now: Time) returns (f: Fate)
    requires st.Opened() && SchemaV3 in st.migrations && key.backend == WinlinkBackend && m.id != ""
    modifies st
    ensures st.Opened()
    ensures st.migrations == old(st.migrations) && st.scopes == old(st.scopes) && st.statusLog == old(st.statusLog)
    ensures (f, LedgerOf(st)) == Link(old(LedgerOf(st)), m, key, rec, extra, faults, now)
  {
    var linked := st.UpsertExternalRef(m.id, WinlinkBackend, key.externalId, key.scope, "{}", now, faults.ref);
    f := if linked.Fail? then Unlinked(m) else Created(m);
    var _ := st.UpsertBackendState(m.id, WinlinkBackend, rec.folder, rec.state, extra, now, faults.state);
  }

  /** One iteration of the loop in `ImportFromWinlinkExpress`. */
  method ImportOne(st: MessageStore, rec: RegistryRecord, k: nat, scope: string, env: Environment) returns (f: Fate)
    requires st.Opened()
    modifies st
    ensures st.Opened()
    ensures st.migrations == old(st.migrations) && st.scopes == old(st.scopes) && st.statusLog == old(st.statusLog)
    ensures (f, LedgerOf(st)) == Visit(old(LedgerOf(st)), SchemaV3 in st.migrations, rec, k, scope, env)
  {
    var faults := env.fault(k);
    var looked := st.GetMessageIDByExternalRef(WinlinkBackend, rec.id, scope, faults.lookup);
    if looked.Err? {
      return LookupFailed;
    }
    var (messageId, found) := looked.value;
    var raw := env.readMime(rec.id);
    if raw.Err? {
      return MimeFailed;
    }
    var (hdr, body) := env.parse(raw.value);
    var now := env.now(k);
    var extra := env.encode(rec, raw.value);
    if found {
      var _ := st.UpsertBackendState(messageId, WinlinkBackend, rec.folder, rec.state, extra, now, faults.state);
      return Updated(messageId);
    }
    var m := NewRecord(env.newId(k), rec, hdr, body, now);
    f := ImportNew(st, m, RefKey(WinlinkBackend, rec.id, scope), rec, extra, faults, now);
  }

  /** Imports a Winlink Express callsign directory into the ledger, read-only on the Winlink
      side: the store is required and the registry must be readable; then every message the
      registry lists is visited in file order under the scope the root's callsign names, and
      the report counts them. */
  method ImportFromWinlinkExpress(st: MessageStore?, root: string, registry: Result<seq<string>>, env: Environment)
    returns (r: Result<ImportReport>, ghost fates: seq<Fate>)
    requires st != null ==> st.Opened()
    modifies st
    ensures st == null ==> r == Err(StoreNil)
    ensures st != null && registry.Err? ==> r == Err(registry.error)
    ensures r.Ok? <==> st != null && registry.Ok?
    ensures st != null ==> st.Opened() && st.migrations == old(st.migrations) && st.scopes == old(st.scopes)
                           && st.statusLog == old(st.statusLog)
    ensures st != null && r.Err? ==> LedgerOf(st) == old(LedgerOf(st))
    ensures r.Ok? ==>
              var out := ImportAll(old(LedgerOf(st)), SchemaV3 in st.migrations, Records(registry.value, env.parseTime),
                                   ScopeOf(root, env), env);
              fates == out.0 && LedgerOf(st) == out.1 && r.value == ReportOf(fates)
  {
    fates := [];
    if st == null {
      return Err(StoreNil), fates;
    }
    if registry.Err? {
      return Err(registry.error), fates;
    }
    var recs := ReadRegistry(registry.value, env.parseTime);
    var call := ToUpper(TrimSpace(BaseName(root)));
    var scope := IdentityScope(call, env.envCallsign, env.envStation);
    ghost var l0 := LedgerOf(st);
    ghost var v3 := SchemaV3 in st.migrations;
    var counts := (0, 0, 0);
    var i := 0;
    while i < |recs|
      invariant i <= |recs|
      invariant st.Opened() && st.migrations == old(st.migrations) && st.scopes == old(st.scopes)
      invariant st.statusLog == old(st.statusLog) && v3 == (SchemaV3 in st.migrations)
      invariant (fates, LedgerOf(st)) == ImportAll(l0, v3, recs[..i], scope, env)
      invariant counts == Counts(fates)
    {
      fates, counts := ImportNext(st, recs, i, scope, env, l0, fates, counts);
      i := i + 1;
    }
    assert recs[..|recs|] == recs;
    r := Ok(ImportReport(|recs|, counts.0, counts.1, counts.2));
  }

  /** The loop step of `ImportFromWinlinkExpress`: message `i` extends the fates, the ledger and
      the counts. */
  method ImportNext(st: MessageStore, recs: seq<RegistryRecord>, i: nat, scope: string, env: Environment,
                    ghost l0: Ledger, ghost fates0: seq<Fate>, counts0: (nat, nat, nat))
    returns (ghost fates: seq<Fate>, counts: (nat, nat, nat))
    requires i < |recs| && st.Opened()
    requires (fates0, LedgerOf(st)) == ImportAll(l0, SchemaV3 in st.migrations, recs[..i], scope, env)
    requires counts0 == Counts(fates0)
    modifies st
    ensures st.Opened()
    ensures st.migrations == old(st.migrations) && st.scopes == old(st.scopes) && st.statusLog == old(st.statusLog)
    ensures (fates, LedgerOf(st)) == ImportAll(l0, SchemaV3 in st.migrations, recs[..i + 1], scope, env)
    ensures counts == Counts(fates)
  {
    ghost var v3 := SchemaV3 in st.migrations;
    ImportAllStep(l0, v3, recs, i, scope, env);
    var f := ImportOne(st, recs[i], i, scope, env);
    assert (fates0 + [f])[..i] == fates0;
    fates := fates0 + [f];
    counts := Tally(counts0, f);
  }

  /** One more message extends `ImportAll` by one visit. */
  lemma ImportAllStep(l0: Ledger, v3: bool, recs: seq<RegistryRecord>, i: nat, scope: string, env: Environment)
    requires i < |recs|
    ensures var p := ImportAll(l0, v3, recs[..i], scope, env);
            var s := Visit(p.1, v3, recs[i], i, scope, env);
            ImportAll(l0, v3, recs[..i + 1], scope, env) == (p.0 + [s.0], s.1)
  {
    assert recs[..i + 1][..i] == recs[..i];
  }

  // ---------------------------------------------------------------- what an import promises

  /** What the message at position `k` may have become: each fate names the step that decided
      it and the failures that led there, and a new message is the record built from its MIME
      text, linked unless the reference write failed. */
  predicate FateFits(f: Fate, rec: RegistryRecord, k: nat, v3: bool, env: Environment) {
    var faults := env.fault(k);
    var raw := env.readMime(rec.id);
    var looked := v3 && faults.lookup.None?;
    match f
    case LookupFailed => !looked
    case MimeFailed => looked && raw.Err?
    case Updated(_) => looked && raw.Ok?
    case SaveFailed(m) => looked && raw.Ok? && m == RecordFor(rec, k, raw.value, env)
    case Unlinked(m) => looked && raw.Ok? && m == RecordFor(rec, k, raw.value, env)
                        && faults.save.None? && (rec.id == "" || faults.ref.Some?)
    case Created(m) => looked && raw.Ok? && m == RecordFor(rec, k, raw.value, env)
                       && faults.save.None? && rec.id != "" && faults.ref.None?
  }

  /** A message that ended updated or created is linked: the ledger maps its Winlink id in this
      scope to the canonical message. */
  predicate Linked(f: Fate, refs: map<RefKey, RefRow>, id: string, scope: string) {
    var key := RefKey(WinlinkBackend, id, scope);
    && (f.Updated? ==> key in refs && refs[key].messageId == f.messageId)
    && (f.Created? ==> key in refs && refs[key].messageId == f.m.id)
  }

  lemma VisitFits(l: Ledger, v3: bool, rec: RegistryRecord, k: nat, scope: string, env: Environment)
    ensures FateFits(Visit(l, v3, rec, k, scope, env).0, rec, k, v3, env)
  {
  }

  /** Every message's fate fits it. */
  lemma {:induction false} ImportFates(l: Ledger, v3: bool, recs: seq<RegistryRecord>, scope: string, env: Environment)
    ensures var fates := ImportAll(l, v3, recs, scope, env).0;
            forall k | 0 <= k < |recs| :: FateFits(fates[k], recs[k], k, v3, env)
  {
    if recs != [] {
      var n := |recs| - 1;
      var p := ImportAll(l, v3, recs[..n], scope, env);
      ImportFates(l, v3, recs[..n], scope, env);
      VisitFits(p.1, v3, recs[n], n, scope, env);
    }
  }

  /** One new message: the ledger only gains, the message under an id it did not hold, and a
      created message is linked under its Winlink id. */
  lemma AdmitGrows(l: Ledger, m: Message, key: RefKey, rec: RegistryRecord, extra: string, faults: StoreFaults,
                   now: Time)
    requires key.backend == WinlinkBackend && key !in l.refs
    ensures var r := Admit(l, m, key, rec, extra, faults, now);
            && Extends(l.messages, r.1.messages) && Extends(l.refs, r.1.refs)
            && r.1.messages.Keys == l.messages.Keys + (if Saved(r.0) then {m.id} else {})
            && (Saved(r.0) ==> r.0.m == m && m.id !in l.messages && r.1.messages[m.id] == RowOf(m))
            && Linked(r.0, r.1.refs, key.externalId, key.scope)
  {
  }

  /** A linked message: only the backend state may change. */
  lemma UpdateKeeps(l: Ledger, key: RefKey, rec: RegistryRecord, extra: string, faults: StoreFaults, now: Time)
    requires key in l.refs && key.backend == WinlinkBackend
    ensures var r := WriteState(l, l.refs[key].messageId, rec, extra, faults, now);
            && r.messages == l.messages && r.order == l.order && r.refs == l.refs
            && Linked(Updated(l.refs[key].messageId), r.refs, key.externalId, key.scope)
  {
  }

  /** One message: the ledger only gains, a saved message under an id it did not hold, and a
      message that ends updated or created is linked. */
  lemma VisitGrows(l: Ledger, v3: bool, rec: RegistryRecord, k: nat, scope: string, env: Environment)
    ensures var r := Visit(l, v3, rec, k, scope, env);
            && Extends(l.messages, r.1.messages) && Extends(l.refs, r.1.refs)
            && r.1.messages.Keys == l.messages.Keys + (if Saved(r.0) then {r.0.m.id} else {})
            && (Saved(r.0) ==> r.0.m.id !in l.messages && r.1.messages[r.0.m.id] == RowOf(r.0.m))
            && Linked(r.0, r.1.refs, rec.id, scope)
  {
    ExtendsRefl(l.messages);
    ExtendsRefl(l.refs);
    var faults := env.fault(k);
    var raw := env.readMime(rec.id);
    if v3 && faults.lookup.None? && raw.Ok? {
      var key := RefKey(WinlinkBackend, rec.id, scope);
      var extra := env.encode(rec, raw.value);
      if key in l.refs {
        UpdateKeeps(l, key, rec, extra, faults, env.now(k));
      } else {
        AdmitGrows(l, RecordFor(rec, k, raw.value, env), key, rec, extra, faults, env.now(k));
      }
    }
  }

  lemma LinkedExtends(f: Fate, a: map<RefKey, RefRow>, b: map<RefKey, RefRow>, id: string, scope: string)
    requires Linked(f, a, id, scope) && Extends(a, b)
    ensures Linked(f, b, id, scope)
  {
  }

  lemma SavedIdsSnoc(fates: seq<Fate>, f: Fate)
    ensures SavedIds(fates + [f]) == SavedIds(fates) + (if Saved(f) then {f.m.id} else {})
  {
    var s := fates + [f];
    assert forall k | 0 <= k < |fates| :: s[k] == fates[k];
    assert s[|fates|] == f;
  }

  /** `ImportAll` on a non-empty registry: the last message visits the ledger the others left. */
  lemma ImportAllLast(l: Ledger, v3: bool, recs: seq<RegistryRecord>, scope: string, env: Environment)
    requires recs != []
    ensures var n := |recs| - 1;
            var p := ImportAll(l, v3, recs[..n], scope, env);
            var r := Visit(p.1, v3, recs[n], n, scope, env);
            ImportAll(l, v3, recs, scope, env) == (p.0 + [r.0], r.1)
  {
  }

  /** An import only adds to the ledger: every message and reference it held stays as it was,
      and the messages it gains are exactly the ones the fates saved. */
  lemma {:induction false} ImportGrows(l: Ledger, v3: bool, recs: seq<RegistryRecord>, scope: string, env: Environment)
    ensures var out := ImportAll(l, v3, recs, scope, env);
            && Extends(l.messages, out.1.messages) && Extends(l.refs, out.1.refs)
            && out.1.messages.Keys == l.messages.Keys + SavedIds(out.0)
  {
    if recs == [] {
      ExtendsRefl(l.messages);
      ExtendsRefl(l.refs);
    } else {
      var n := |recs| - 1;
      var p := ImportAll(l, v3, recs[..n], scope, env);
      ImportGrows(l, v3, recs[..n], scope, env);
      var r := Visit(p.1, v3, recs[n], n, scope, env);
      ImportAllLast(l, v3, recs, scope, env);
      VisitGrows(p.1, v3, recs[n], n, scope, env);
      ExtendsTrans(l.messages, p.1.messages, r.1.messages);
      ExtendsTrans(l.refs, p.1.refs, r.1.refs);
      SavedIdsSnoc(p.0, r.0);
    }
  }

  /** Every message that ended updated or created is linked in the ledger afterwards. */
  lemma {:induction false} ImportLinks(l: Ledger, v3: bool, recs: seq<RegistryRecord>, scope: string, env: Environment)
    ensures var out := ImportAll(l, v3, recs, scope, env);
            forall k | 0 <= k < |recs| :: Linked(out.0[k], out.1.refs, recs[k].id, scope)
  {
    if recs != [] {
      var n := |recs| - 1;
      var p := ImportAll(l, v3, recs[..n], scope, env);
      ImportLinks(l, v3, recs[..n], scope, env);
      var r := Visit(p.1, v3, recs[n], n, scope, env);
      ImportAllLast(l, v3, recs, scope, env);
      VisitGrows(p.1, v3, recs[n], n, scope, env);
      LinkedSnoc(p.0, r.0, p.1.refs, r.1.refs, recs, scope);
    }
  }

  lemma LinkedSnoc(fates: seq<Fate>, f: Fate, refs0: map<RefKey, RefRow>, refs1: map<RefKey, RefRow>,
                   recs: seq<RegistryRecord>, scope: string)
    requires |recs| == |fates| + 1 && Extends(refs0, refs1)
    requires forall k | 0 <= k < |fates| :: Linked(fates[k], refs0, recs[..|fates|][k].id, scope)
    requires Linked(f, refs1, recs[|fates|].id, scope)
    ensures forall k | 0 <= k < |recs| :: Linked((fates + [f])[k], refs1, recs[k].id, scope)
  {
    forall k | 0 <= k < |recs|
      ensures Linked((fates + [f])[k], refs1, recs[k].id, scope)
    {
      if k < |fates| {
        assert (fates + [f])[k] == fates[k] && recs[..|fates|][k] == recs[k];
        LinkedExtends(fates[k], refs0, refs1, recs[k].id, scope);
      } else {
        assert (fates + [f])[k] == f;
      }
    }
  }

  /** A message whose Winlink id is linked leaves the messages alone. */
  lemma VisitLinked(l: Ledger, v3: bool, rec: RegistryRecord, k: nat, scope: string, env: Environment)
    requires RefKey(WinlinkBackend, rec.id, scope) in l.refs
    ensures var r := Visit(l, v3, rec, k, scope, env);
            r.1.messages == l.messages && r.1.order == l.order && !Saved(r.0)
  {
    var faults := env.fault(k);
    var raw := env.readMime(rec.id);
    if v3 && faults.lookup.None? && raw.Ok? {
      UpdateKeeps(l, RefKey(WinlinkBackend, rec.id, scope), rec, env.encode(rec, raw.value), faults, env.now(k));
    }
  }

  lemma NoneSavedSnoc(fates: seq<Fate>, f: Fate)
    requires forall k | 0 <= k < |fates| :: !Saved(fates[k])
    requires !Saved(f)
    ensures forall k | 0 <= k < |fates| + 1 :: !Saved((fates + [f])[k])
  {
    forall k | 0 <= k < |fates| + 1
      ensures !Saved((fates + [f])[k])
    {
      if k < |fates| {
        assert (fates + [f])[k] == fates[k];
      } else {
        assert (fates + [f])[k] == f;
      }
    }
  }

  /** Registry messages whose Winlink ids are all linked in this scope never create a message. */
  lemma {:induction false} ImportLinkedSavesNothing(l: Ledger, v3: bool, recs: seq<RegistryRecord>, scope: string,
                                                    env: Environment)
    requires forall k | 0 <= k < |recs| :: RefKey(WinlinkBackend, recs[k].id, scope) in l.refs
    ensures var out := ImportAll(l, v3, recs, scope, env);
            && out.1.messages == l.messages && out.1.order == l.order
            && forall k | 0 <= k < |recs| :: !Saved(out.0[k])
  {
    if recs != [] {
      var n := |recs| - 1;
      var p := ImportAll(l, v3, recs[..n], scope, env);
      assert forall k | 0 <= k < n :: recs[..n][k] == recs[k];
      ImportLinkedSavesNothing(l, v3, recs[..n], scope, env);
      ImportGrows(l, v3, recs[..n], scope, env);
      var r := Visit(p.1, v3, recs[n], n, scope, env);
      ImportAllLast(l, v3, recs, scope, env);
      assert RefKey(WinlinkBackend, recs[n].id, scope) in p.1.refs;
      VisitLinked(p.1, v3, recs[n], n, scope, env);
      NoneSavedSnoc(p.0, r.0);
    }
  }

  /** Importing the same registry again, once every message ended updated or created, creates
      no message, whatever fails the second time. */
  lemma Reimport(l: Ledger, v3: bool, recs: seq<RegistryRecord>, scope: string, env: Environment, env2: Environment)
    requires var fates := ImportAll(l, v3, recs, scope, env).0;
             forall k | 0 <= k < |recs| :: fates[k].Updated? || fates[k].Created?
    ensures var l1 := ImportAll(l, v3, recs, scope, env).1;
            var again := ImportAll(l1, v3, recs, scope, env2);
            && again.1.messages == l1.messages && again.1.order == l1.order
            && forall k | 0 <= k < |recs| :: !Saved(again.0[k])
  {
    ImportLinks(l, v3, recs, scope, env);
    var l1 := ImportAll(l, v3, recs, scope, env).1;
    ImportLinkedSavesNothing(l1, v3, recs, scope, env2);
  }

  /** A created or unlinked fate holds the record built from its message's MIME text. */
  lemma SavedRecord(l: Ledger, v3: bool, recs: seq<RegistryRecord>, scope: string, env: Environment, k: nat)
    requires k < |recs| && Saved(ImportAll(l, v3, recs, scope, env).0[k])
    ensures var raw := env.readMime(recs[k].id);
            raw.Ok? && ImportAll(l, v3, recs, scope, env).0[k].m == RecordFor(recs[k], k, raw.value, env)
  {
    ImportFates(l, v3, recs, scope, env);
    var f := ImportAll(l, v3, recs, scope, env).0[k];
    assert FateFits(f, recs[k], k, v3, env);
  }

  /** A message saved by an import keeps the registry's subject, when it has one, and the
      registry's "Sent" state as a sent status dated at its creation. */
  lemma SavedFromRegistry(l: Ledger, v3: bool, recs: seq<RegistryRecord>, scope: string, env: Environment, k: nat)
    requires k < |recs| && Saved(ImportAll(l, v3, recs, scope, env).0[k])
    ensures var m := ImportAll(l, v3, recs, scope, env).0[k].m;
            && (!AllSpace(recs[k].subject) ==> m.subject == TrimSpace(recs[k].subject))
            && (recs[k].state == "Sent" ==> m.status == Sent && m.sentAt == Some(m.createdAt))
            && (!IsZero(recs[k].createdAt) ==> m.createdAt == recs[k].createdAt)
            && m.meta.session == SessionWinlink && m.id == env.newId(k)
  {
    SavedRecord(l, v3, recs, scope, env, k);
  }
}
