/** The tables of the message store as values, and the meaning of the SELECT statements that
    read them: WHERE filters, ORDER BY and LIMIT. */
module StoreSchema {
  import opened Wrappers
  import opened Core
  import opened Text

  const SchemaV1: nat := 1
  const SchemaV2: nat := 2
  const SchemaV3: nat := 3

  /** The limit used when a caller passes zero or a negative one. */
  const DefaultLimit: nat := 25

  /** The meta_json column: empty text, a decodable document, or text that does not decode. */
  datatype MetaColumn = MetaEmpty | MetaJson(meta: MessageMeta) | MetaGarbage(raw: string)

  /** Decoding meta_json into a zero MessageMeta with the decoder's error ignored. */
  function DecodeMetaLenient(c: MetaColumn): MessageMeta {
    match c
    case MetaJson(m) => m
    case _ => DefaultMeta()
  }

  /** One row of the messages table. updated_at may hold the empty text in rows written before
      the status columns existed; that is `None` here. */
  datatype Row = Row(
    id: string,
    subject: string,
    body: string,
    createdAt: Time,
    updatedAt: Option<Time>,
    status: Status,
    sentAt: Option<Time>,
    lastError: string,
    from: Address,
    to: seq<Address>,
    tags: StringSlice,
    meta: MetaColumn)

  /** What the list and outbox commands read back: `MessageSummary`. */
  datatype Summary = Summary(
    id: string, subject: string, createdAt: Time, tags: StringSlice, meta: MessageMeta, status: Status)

  /** The row that SaveMessage inserts: sent_at is always NULL, whatever the message says. */
  function RowOf(m: Message): (r: Row)
    ensures r.id == m.id && r.status == m.status && r.sentAt == None
    ensures r.updatedAt == Some(m.updatedAt) && r.meta == MetaJson(m.meta)
  {
    Row(m.id, m.subject, m.body, m.createdAt, Some(m.updatedAt), m.status, None, m.lastError,
        m.from, m.to, m.tags, MetaJson(m.meta))
  }

  /** The message ListQueued rebuilds from a row; an empty updated_at reads as the zero time. */
  function MessageOf(r: Row): (m: Message)
    ensures m.id == r.id && m.status == r.status && m.lastError == r.lastError
  {
    Message(r.id, r.subject, r.body, r.to, r.from, r.tags, r.createdAt, r.updatedAt.GetOr(0),
            DecodeMetaLenient(r.meta), r.status, r.sentAt, r.lastError)
  }

  function SummaryOf(r: Row): (s: Summary)
    ensures s.id == r.id && s.status == r.status
  {
    Summary(r.id, r.subject, r.createdAt, r.tags, DecodeMetaLenient(r.meta), r.status)
  }

  /** A message saved and read back is the message, except that sent_at is dropped. */
  lemma SaveThenReadBack(m: Message)
    ensures MessageOf(RowOf(m)) == m.(sentAt := None)
  {
  }

  // ---------------------------------------------------------------- tags_json and LIKE

  const Hex := "0123456789abcdef"

  /** How `json.Marshal` writes one character inside a JSON string (HTML escaping on, as
      `json.Marshal` always has it, and `\b` and `\f` written short, as Go 1.22 and later do). */
  function EscapeChar(c: char): string {
    if c == '"' || c == '\\' then ['\\', c]
    else if c == '\n' then "\\n"
    else if c == '\r' then "\\r"
    else if c == '\t' then "\\t"
    else if c == '\U{8}' then "\\b"
    else if c == '\U{C}' then "\\f"
    else if c < ' ' then "\\u00" + [Hex[c as int / 16], Hex[c as int % 16]]
    else if c == '<' then "\\u003c"
    else if c == '>' then "\\u003e"
    else if c == '&' then "\\u0026"
    else if c == '\U{2028}' then "\\u2028"
    else if c == '\U{2029}' then "\\u2029"
    else [c]
  }

  /** A character JSON writes as itself. */
  predicate Plain(c: char) {
    EscapeChar(c) == [c]
  }

  /** The characters of a Go string as `json.Marshal` writes them between the quotes. */
  function Escape(s: string): string
    decreases |s|
  {
    if s == [] then "" else EscapeChar(s[0]) + Escape(s[1..])
  }

  /** Text made of plain characters is written as it is. */
  lemma {:induction false} EscapePlain(s: string)
    requires forall i | 0 <= i < |s| :: Plain(s[i])
    ensures Escape(s) == s
    decreases |s|
  {
    if s != [] {
      EscapePlain(s[1..]);
      assert s == [s[0]] + s[1..];
    }
  }

  function Quoted(tags: seq<string>): (q: seq<string>)
    ensures |q| == |tags| && forall i | 0 <= i < |tags| :: q[i] == "\"" + Escape(tags[i]) + "\""
  {
    seq(|tags|, i requires 0 <= i < |tags| => "\"" + Escape(tags[i]) + "\"")
  }

  /** The tags_json text `json.Marshal` makes of the tag slice: `null` for a `nil` slice, else an
      array of escaped strings. */
  function TagsJson(tags: StringSlice): string {
    match tags
    case NilSlice => "null"
    case Slice(elems) => "[" + Join(Quoted(elems), ",") + "]"
  }

  /** `tags_json LIKE '%' || tag || '%'`, read as a substring test on the stored text. */
  predicate TagLike(tags: StringSlice, tag: string) {
    Contains(TagsJson(tags), tag)
  }

  lemma {:induction false} JoinHasPart(parts: seq<string>, sep: string, k: nat) returns (pre: string, post: string)
    requires k < |parts|
    ensures Join(parts, sep) == pre + parts[k] + post
    decreases k
  {
    if |parts| == 1 {
      pre, post := "", "";
    } else if k == 0 {
      pre, post := "", sep + Join(parts[1..], sep);
    } else {
      var p, q := JoinHasPart(parts[1..], sep, k - 1);
      pre, post := parts[0] + sep + p, q;
    }
  }

  /** Every tag in the list that JSON writes as it is matches: the substring test never misses
      such a tag. */
  lemma TagMemberMatches(tags: StringSlice, t: string)
    requires t in tags.Elems()
    requires forall i | 0 <= i < |t| :: Plain(t[i])
    ensures TagLike(tags, t)
  {
    var k :| 0 <= k < |tags.elems| && tags.elems[k] == t;
    ArrayHasTag(tags.elems, k);
  }

  /** The array text holds the k-th tag, escaped, between its quotes. */
  lemma ArrayHasTag(elems: seq<string>, k: nat)
    requires k < |elems| && forall i | 0 <= i < |elems[k]| :: Plain(elems[k][i])
    ensures Contains("[" + Join(Quoted(elems), ",") + "]", elems[k])
  {
    var q := Quoted(elems);
    QuotedPlain(elems, k);
    var pre, post := JoinHasPart(q, ",", k);
    QuotedFound(pre, q[k], post, elems[k]);
  }

  lemma QuotedPlain(elems: seq<string>, k: nat)
    requires k < |elems| && forall i | 0 <= i < |elems[k]| :: Plain(elems[k][i])
    ensures Quoted(elems)[k] == "\"" + elems[k] + "\""
  {
    EscapePlain(elems[k]);
  }

  lemma QuotedFound(pre: string, quoted: string, post: string, t: string)
    requires quoted == "\"" + t + "\""
    ensures Contains("[" + (pre + quoted + post) + "]", t)
  {
    var s := "[" + (pre + quoted + post) + "]";
    var at := |pre| + 2;
    assert s[at..at + |t|] == t;
    ContainsAt(s, t, at);
  }

  /** The converse fails: a tag that is only part of a stored tag matches too. */
  lemma TagLikeMatchesPartOfTag()
    ensures TagLike(Slice(["abc"]), "ab") && "ab" !in ["abc"]
  {
    var s := TagsJson(Slice(["abc"]));
    assert Escape("abc") == "abc" by { EscapePlain("abc"); }
    assert s == "[\"abc\"]";
    assert s[2..4] == "ab";
    ContainsAt(s, "ab", 2);
  }

  /** A message saved without tags stores `null`, so any tag that is part of that word matches it. */
  lemma UntaggedMatchesNull()
    ensures TagLike(NilSlice, "u") && TagLike(NilSlice, "ul") && TagLike(NilSlice, "null")
  {
    assert "null"[1..2] == "u" && "null"[1..3] == "ul" && "null"[0..4] == "null";
    ContainsAt("null", "u", 1);
    ContainsAt("null", "ul", 1);
    ContainsAt("null", "null", 0);
  }

  /** A tag JSON escapes is stored escaped, so the substring test misses it. */
  lemma EscapedTagMissed()
    ensures "R&D" in Slice(["R&D"]).Elems() && !TagLike(Slice(["R&D"]), "R&D")
  {
    var s := TagsJson(Slice(["R&D"]));
    assert Escape("R&D") == "R\\u0026D";
    assert s == "[\"R\\u0026D\"]";
    assert '&' !in s;
    if TagLike(Slice(["R&D"]), "R&D") {
      ContainsHasChars(s, "R&D", '&');
    }
  }

  // ---------------------------------------------------------------- WHERE

  datatype Where =
    | QueuedWithTag(tag: string)        // ListQueued
    | StatusIn(statuses: seq<Status>)   // ListByStatus
    | VisibleOrAll(includeDeleted: bool) // ListMessages

  predicate Matches(w: Where, r: Row) {
    match w
    case QueuedWithTag(tag) => r.status == Queued && (TrimSpace(tag) == "" || TagLike(r.tags, tag))
    case StatusIn(statuses) => r.status in statuses
    case VisibleOrAll(includeDeleted) => includeDeleted || r.status != Deleted
  }

  predicate DistinctIds(rows: seq<Row>) {
    forall i, j | 0 <= i < j < |rows| :: rows[i].id != rows[j].id
  }

  lemma DistinctCons(a: Row, rest: seq<Row>)
    requires DistinctIds(rest) && forall r | r in rest :: r.id != a.id
    ensures DistinctIds([a] + rest)
  {
    var s := [a] + rest;
    forall i, j | 0 <= i < j < |s| ensures s[i].id != s[j].id {
      if i > 0 {
        assert s[i] == rest[i - 1] && s[j] == rest[j - 1];
      } else {
        assert s[j] in rest;
      }
    }
  }

  function Filter(w: Where, rows: seq<Row>): (out: seq<Row>)
    ensures forall r | r in out :: r in rows && Matches(w, r)
    ensures forall r | r in rows && Matches(w, r) :: r in out
    ensures DistinctIds(rows) ==> DistinctIds(out)
    ensures |out| <= |rows|
  {
    if rows == [] then []
    else
      var rest := Filter(w, rows[1..]);
      if Matches(w, rows[0]) then
        assert DistinctIds(rows) ==> DistinctIds([rows[0]] + rest) by {
          if DistinctIds(rows) {
            forall r | r in rest ensures r.id != rows[0].id {
              var j :| 0 <= j < |rows[1..]| && rows[1..][j] == r;
              assert rows[j + 1] == r;
            }
            DistinctCons(rows[0], rest);
          }
        }
        [rows[0]] + rest
      else rest
  }

  // ---------------------------------------------------------------- ORDER BY

  datatype SortKey = UpdatedAsc | UpdatedDesc | CreatedDesc

  /** The sort key as a number: the empty updated_at text sorts before every timestamp. */
  function KeyOf(k: SortKey, r: Row): int {
    var updated := match r.updatedAt case None => -1 case Some(t) => t;
    match k
    case UpdatedAsc => updated
    case UpdatedDesc => -updated
    case CreatedDesc => -(r.createdAt as int)
  }

  predicate SortedBy(k: SortKey, rows: seq<Row>) {
    forall i, j | 0 <= i < j < |rows| :: KeyOf(k, rows[i]) <= KeyOf(k, rows[j])
  }

  lemma SortedCons(k: SortKey, a: Row, rest: seq<Row>)
    requires SortedBy(k, rest) && forall r | r in rest :: KeyOf(k, a) <= KeyOf(k, r)
    ensures SortedBy(k, [a] + rest)
  {
    var s := [a] + rest;
    forall i, j | 0 <= i < j < |s| ensures KeyOf(k, s[i]) <= KeyOf(k, s[j]) {
      if i > 0 {
        assert s[i] == rest[i - 1] && s[j] == rest[j - 1];
      } else {
        assert s[j] in rest;
      }
    }
  }

  /** Places `x` after every row whose key is smaller, and before the first row whose key is not. */
  function Insert(k: SortKey, x: Row, rows: seq<Row>): seq<Row> {
    if rows == [] || KeyOf(k, x) <= KeyOf(k, rows[0]) then [x] + rows
    else [rows[0]] + Insert(k, x, rows[1..])
  }

  /** ORDER BY as a stable insertion sort: rows with equal keys keep their storage order. */
  function SortBy(k: SortKey, rows: seq<Row>): seq<Row> {
    if rows == [] then [] else Insert(k, rows[0], SortBy(k, rows[1..]))
  }

  lemma {:induction false} InsertElems(k: SortKey, x: Row, rows: seq<Row>)
    ensures var out := Insert(k, x, rows);
            && multiset(out) == multiset(rows) + multiset{x}
            && (forall r | r in out :: r == x || r in rows)
  {
    if rows != [] && KeyOf(k, x) > KeyOf(k, rows[0]) {
      assert rows == [rows[0]] + rows[1..];
      InsertElems(k, x, rows[1..]);
    }
  }

  lemma SortedTail(k: SortKey, rows: seq<Row>)
    requires rows != [] && SortedBy(k, rows)
    ensures SortedBy(k, rows[1..])
    ensures forall r | r in rows[1..] :: KeyOf(k, rows[0]) <= KeyOf(k, r)
  {
    var tail := rows[1..];
    forall i, j | 0 <= i < j < |tail| ensures KeyOf(k, tail[i]) <= KeyOf(k, tail[j]) {
      assert tail[i] == rows[i + 1] && tail[j] == rows[j + 1];
    }
    forall r | r in tail ensures KeyOf(k, rows[0]) <= KeyOf(k, r) {
      var j :| 0 <= j < |tail| && tail[j] == r;
      assert rows[j + 1] == r;
    }
  }

  lemma DistinctTail(rows: seq<Row>)
    requires rows != [] && DistinctIds(rows)
    ensures DistinctIds(rows[1..])
    ensures forall r | r in rows[1..] :: r.id != rows[0].id
  {
    var tail := rows[1..];
    forall i, j | 0 <= i < j < |tail| ensures tail[i].id != tail[j].id {
      assert tail[i] == rows[i + 1] && tail[j] == rows[j + 1];
    }
    forall r | r in tail ensures r.id != rows[0].id {
      var j :| 0 <= j < |tail| && tail[j] == r;
      assert rows[j + 1] == r;
    }
  }

  lemma {:induction false} InsertSorted(k: SortKey, x: Row, rows: seq<Row>)
    requires SortedBy(k, rows)
    ensures SortedBy(k, Insert(k, x, rows))
  {
    if rows == [] || KeyOf(k, x) <= KeyOf(k, rows[0]) {
      if rows != [] {
        SortedTail(k, rows);
      }
      SortedCons(k, x, rows);
    } else {
      SortedTail(k, rows);
      InsertSorted(k, x, rows[1..]);
      InsertElems(k, x, rows[1..]);
      SortedCons(k, rows[0], Insert(k, x, rows[1..]));
    }
  }

  lemma {:induction false} InsertDistinct(k: SortKey, x: Row, rows: seq<Row>)
    requires DistinctIds(rows) && forall r | r in rows :: r.id != x.id
    ensures DistinctIds(Insert(k, x, rows))
  {
    if rows == [] || KeyOf(k, x) <= KeyOf(k, rows[0]) {
      DistinctCons(x, rows);
    } else {
      DistinctTail(rows);
      assert forall r | r in rows[1..] :: r in rows;
      InsertDistinct(k, x, rows[1..]);
      InsertElems(k, x, rows[1..]);
      DistinctCons(rows[0], Insert(k, x, rows[1..]));
    }
  }

  /** The sort yields the same rows, sorted by key, and keeps ids distinct. */
  lemma {:induction false} SortFacts(k: SortKey, rows: seq<Row>)
    ensures var out := SortBy(k, rows);
            && SortedBy(k, out)
            && multiset(out) == multiset(rows)
            && (DistinctIds(rows) ==> DistinctIds(out))
  {
    if rows != [] {
      var tail := rows[1..];
      assert rows == [rows[0]] + tail;
      SortFacts(k, tail);
      var rest := SortBy(k, tail);
      InsertElems(k, rows[0], rest);
      InsertSorted(k, rows[0], rest);
      if DistinctIds(rows) {
        DistinctTail(rows);
        forall r | r in rest ensures r.id != rows[0].id {
          assert r in multiset(tail);
        }
        InsertDistinct(k, rows[0], rest);
      }
    }
  }

  // ---------------------------------------------------------------- LIMIT and the queries

  function EffectiveLimit(limit: int): (n: nat)
    ensures n > 0
    ensures limit > 0 ==> n == limit
    ensures limit <= 0 ==> n == DefaultLimit
  {
    if limit <= 0 then DefaultLimit else limit
  }

  function Take(rows: seq<Row>, n: nat): seq<Row> {
    if n < |rows| then rows[..n] else rows
  }

  /** `SELECT ... WHERE w ORDER BY k LIMIT limit` over the table's rows in storage order. */
  function Query(rows: seq<Row>, w: Where, k: SortKey, limit: int): seq<Row> {
    Take(SortBy(k, Filter(w, rows)), EffectiveLimit(limit))
  }

  function Min(a: nat, b: nat): nat {
    if a < b then a else b
  }

  /** A SELECT returns matching rows of the table only, sorted by key, with distinct ids when the
      table's ids are distinct. */
  lemma {:induction false} QuerySound(rows: seq<Row>, w: Where, k: SortKey, limit: int)
    ensures var out := Query(rows, w, k, limit);
            && (forall r | r in out :: r in rows && Matches(w, r))
            && SortedBy(k, out)
            && (DistinctIds(rows) ==> DistinctIds(out))
  {
    var f := Filter(w, rows);
    var sorted := SortBy(k, f);
    var out := Query(rows, w, k, limit);
    SortFacts(k, f);
    forall r | r in out ensures r in rows && Matches(w, r) {
      TakeIn(sorted, EffectiveLimit(limit), r);
      assert r in multiset(f);
    }
    TakeSorted(k, sorted, EffectiveLimit(limit));
  }

  lemma TakeIn(rows: seq<Row>, n: nat, r: Row)
    requires r in Take(rows, n)
    ensures r in multiset(rows)
  {
    if n < |rows| {
      var i :| 0 <= i < n && rows[..n][i] == r;
      assert rows[i] == r;
    }
  }

  lemma TakeSorted(k: SortKey, rows: seq<Row>, n: nat)
    requires SortedBy(k, rows)
    ensures SortedBy(k, Take(rows, n)) && (DistinctIds(rows) ==> DistinctIds(Take(rows, n)))
  {
  }

  /** A SELECT returns as many rows as match, up to the limit, and leaves out no matching row that
      sorts strictly before one it returns. */
  lemma {:induction false} QueryComplete(rows: seq<Row>, w: Where, k: SortKey, limit: int)
    ensures var out := Query(rows, w, k, limit);
            && |out| == Min(EffectiveLimit(limit), |Filter(w, rows)|)
            && (forall r, q | r in rows && Matches(w, r) && r !in out && q in out :: KeyOf(k, q) <= KeyOf(k, r))
  {
    var f := Filter(w, rows);
    var sorted := SortBy(k, f);
    var out := Query(rows, w, k, limit);
    SortFacts(k, f);
    assert |sorted| == |f| by {
      assert |multiset(sorted)| == |multiset(f)|;
    }
    assert out == sorted[..|out|];
    forall r, q | r in rows && Matches(w, r) && r !in out && q in out
      ensures KeyOf(k, q) <= KeyOf(k, r)
    {
      assert r in multiset(sorted);
      PrefixFirst(k, sorted, |out|, r, q);
    }
  }

  /** In a sorted sequence, a row of a prefix sorts no later than a row outside it. */
  lemma PrefixFirst(k: SortKey, sorted: seq<Row>, n: nat, r: Row, q: Row)
    requires SortedBy(k, sorted) && n <= |sorted|
    requires r in sorted && r !in sorted[..n] && q in sorted[..n]
    ensures KeyOf(k, q) <= KeyOf(k, r)
  {
    var j :| 0 <= j < |sorted| && sorted[j] == r;
    var i :| 0 <= i < n && sorted[..n][i] == q;
    assert sorted[i] == q;
  }

  // ---------------------------------------------------------------- scopes ORDER BY scope

  /** SQLite's BINARY collation on UTF-8 text: code-point order, a proper prefix first. */
  predicate Before(a: string, b: string)
    decreases |a|
  {
    |b| > 0 && (|a| == 0 || a[0] < b[0] || (a[0] == b[0] && Before(a[1..], b[1..])))
  }

  lemma {:induction false} BeforeTotal(a: string, b: string)
    requires a != b
    ensures Before(a, b) || Before(b, a)
    decreases |a|
  {
    if |a| > 0 && |b| > 0 && a[0] == b[0] {
      assert a == [a[0]] + a[1..] && b == [b[0]] + b[1..];
      BeforeTotal(a[1..], b[1..]);
    }
  }

  lemma {:induction false} BeforeIrreflexive(a: string)
    ensures !Before(a, a)
    decreases |a|
  {
    if |a| > 0 {
      BeforeIrreflexive(a[1..]);
    }
  }
}
