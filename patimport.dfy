/** The PAT mailbox importer: the folder table, the parser for the text `pat extract` prints,
    and the reconcile loop that creates canonical messages for unseen PAT messages and
    refreshes the backend state of known ones. */
module PatImport {
  import opened Wrappers
  import opened Core
  import opened Text
  import opened Identity
  import opened StoreSchema
  import opened Store

  // ---------------------------------------------------------------- folders

  /** `mapPatFolder`: a mailbox folder's PAT name, its backend state and the canonical status a
      message found there starts with. */
  function MapPatFolder(key: string): (r: (string, string, Status))
    ensures r.2 == Queued <==> key == "out"
    ensures r.2 == Sent <==> key == "sent"
    ensures r.2 == Draft <==> key != "out" && key != "sent"
    ensures r.1 == "" <==> key !in {"in", "out", "sent", "archive"}
    ensures key !in {"in", "out", "sent", "archive"} ==> r.0 == key
  {
    if key == "in" then ("InBox", "Received", Draft)
    else if key == "out" then ("Outbox", "Queued", Queued)
    else if key == "sent" then ("Sent", "Sent", Sent)
    else if key == "archive" then ("Archive", "Archived", Draft)
    else (key, "", Draft)
  }

  // ---------------------------------------------------------------- the extract dump

  /** The header fields the dump parser collects. */
  datatype PatHeader = PatHeader(mid: string, date: Time, from: string, to: seq<Address>, subject: string)

  const NoHeader := PatHeader("", 0, "", [], "")

  /** The two layouts a `Date:` value is tried in, in order: Go's default time format and
      RFC 3339. Each gives the instant it denotes, or None when the text does not fit it. */
  datatype DateLayouts = DateLayouts(goDefault: string -> Option<Time>, rfc3339: string -> Option<Time>)

  /** A line ends the header block when, without its trailing carriage returns, it is blank. */
  predicate EndsHeader(line: string) {
    TrimSpace(TrimRightChar(line, '\r')) == ""
  }

  /** The address a `To:` value names: an email when it contains '@', else a callsign. */
  function AddressOf(val: string): Address {
    if '@' in val then Address("", val) else Address(val, "")
  }

  /** A header line with its carriage returns already removed, applied to the header collected
      so far. A line without a colon and an unknown key change nothing; keys are compared
      case-insensitively and values trimmed, split at the first colon only; a date neither
      layout accepts leaves the date as it was; an empty `To:` adds nothing. */
  function HeaderField(h: PatHeader, line: string, layouts: DateLayouts): PatHeader {
    match KeyValue(line)
    case None => h
    case Some(kv) => SetField(h, kv.0, kv.1, layouts)
  }

  /** The header after one recognised `key: value` pair. */
  function SetField(h: PatHeader, key: string, val: string, layouts: DateLayouts): PatHeader {
    if key == "mid" then h.(mid := val)
    else if key == "date" then
      (match layouts.goDefault(val)
       case Some(t) => h.(date := t)
       case None =>
         match layouts.rfc3339(val)
         case Some(t) => h.(date := t)
         case None => h)
    else if key == "from" then h.(from := val)
    else if key == "to" then (if val == "" then h else h.(to := h.to + [AddressOf(val)]))
    else if key == "subject" then h.(subject := val)
    else h
  }

  /** A header line's lower-cased, trimmed key and trimmed value, split at the first colon. */
  function KeyValue(line: string): Option<(string, string)> {
    match Cut(line, ':')
    case None => None
    case Some(kv) => Some((ToLower(TrimSpace(kv.0)), TrimSpace(kv.1)))
  }

  /** One line of the header block applied to the header collected so far. */
  function HeaderStep(h: PatHeader, line: string, layouts: DateLayouts): PatHeader {
    HeaderField(h, TrimRightChar(line, '\r'), layouts)
  }

  /** The header the lines give, applied in order. */
  function HeaderOf(lines: seq<string>, layouts: DateLayouts): PatHeader
    decreases |lines|
  {
    if lines == [] then NoHeader
    else HeaderStep(HeaderOf(lines[..|lines| - 1], layouts), lines[|lines| - 1], layouts)
  }

  /** The first line at or after `i` that ends the header block, or `|lines|`. */
  function BlankFrom(lines: seq<string>, i: nat): (e: nat)
    requires i <= |lines|
    ensures i <= e <= |lines|
    ensures forall k | i <= k < e :: !EndsHeader(lines[k])
    ensures e < |lines| ==> EndsHeader(lines[e])
    decreases |lines| - i
  {
    if i < |lines| && !EndsHeader(lines[i]) then BlankFrom(lines, i + 1) else i
  }

  /** Any index with no blank line before it and a blank line (or the end) at it is the one
      `BlankFrom` finds. */
  lemma {:induction false} BlankFromUnique(lines: seq<string>, i: nat, e: nat)
    requires i <= e <= |lines|
    requires forall k | i <= k < e :: !EndsHeader(lines[k])
    requires e < |lines| ==> EndsHeader(lines[e])
    ensures BlankFrom(lines, i) == e
    decreases e - i
  {
    if i < e {
      BlankFromUnique(lines, i + 1, e);
    }
  }

  /** Where the body starts: after the first blank line, or at the end when there is none. */
  function BodyStart(lines: seq<string>): (b: nat)
    ensures b <= |lines|
  {
    var e := BlankFrom(lines, 0);
    if e < |lines| then e + 1 else |lines|
  }

  /** `parsePatDump` as a value: the header from the lines before the first blank line, and the
      lines after it joined with line feeds, with trailing line feeds removed. */
  function DumpOf(s: string, layouts: DateLayouts): (PatHeader, string) {
    var lines := Split(s, '\n');
    (HeaderOf(lines[..BlankFrom(lines, 0)], layouts),
     TrimRightChar(Join(lines[BodyStart(lines)..], "\n"), '\n'))
  }

  /** The `switch` on one header line's key inside `parsePatDump`. */
  method ApplyHeaderLine(h0: PatHeader, line: string, layouts: DateLayouts) returns (h: PatHeader)
    ensures h == HeaderField(h0, line, layouts)
  {
    h := h0;
    var parts := KeyValue(line);
    if parts.None? {
      return;
    }
    var (key, val) := parts.value;
    if key == "mid" {
      h := h.(mid := val);
    } else if key == "date" {
      var t := layouts.goDefault(val);
      if t.Some? {
        h := h.(date := t.value);
      } else {
        t := layouts.rfc3339(val);
        if t.Some? {
          h := h.(date := t.value);
        }
      }
    } else if key == "from" {
      h := h.(from := val);
    } else if key == "to" {
      if val != "" {
        h := h.(to := h.to + [AddressOf(val)]);
      }
    } else if key == "subject" {
      h := h.(subject := val);
    }
  }

  /** `parsePatDump`: walks the lines, updating the header, until the first blank line; the
      rest is the body. */
  method ParsePatDump(s: string, layouts: DateLayouts) returns (h: PatHeader, body: string)
    ensures (h, body) == DumpOf(s, layouts)
  {
    var lines := Split(s, '\n');
    h := NoHeader;
    var i := 0;
    while i < |lines|
      invariant i <= BlankFrom(lines, 0) && BlankFrom(lines, i) == BlankFrom(lines, 0)
      invariant h == HeaderOf(lines[..i], layouts)
    {
      var line := TrimRightChar(lines[i], '\r');
      if TrimSpace(line) == "" {
        i := i + 1;
        break;
      }
      h := ApplyHeaderLine(h, line, layouts);
      assert lines[..i + 1][..i] == lines[..i];
      i := i + 1;
    }
    body := TrimRightChar(Join(lines[i..], "\n"), '\n');
  }

  // ---------------------------------------------------------------- dump properties

  /** Without a blank line the whole dump is header and the body is empty. */
  lemma NoBlankNoBody(s: string, layouts: DateLayouts)
    requires forall k | 0 <= k < |Split(s, '\n')| :: !EndsHeader(Split(s, '\n')[k])
    ensures DumpOf(s, layouts).1 == ""
    ensures DumpOf(s, layouts).0 == HeaderOf(Split(s, '\n'), layouts)
  {
    var lines := Split(s, '\n');
    BlankFromUnique(lines, 0, |lines|);
    assert lines[..|lines|] == lines;
  }

  /** A recipient as the parser builds one: a non-empty email containing '@', or a non-empty
      callsign without one. */
  predicate WellFormedRecipient(a: Address) {
    || (a.callsign == "" && a.email != "" && '@' in a.email)
    || (a.email == "" && a.callsign != "" && '@' !in a.callsign)
  }

  predicate AllWellFormed(to: seq<Address>) {
    forall k | 0 <= k < |to| :: WellFormedRecipient(to[k])
  }

  lemma SetFieldKeepsRecipients(h: PatHeader, key: string, val: string, layouts: DateLayouts)
    requires AllWellFormed(h.to)
    ensures AllWellFormed(SetField(h, key, val, layouts).to)
  {
    if key == "to" && val != "" {
      var to := h.to + [AddressOf(val)];
      assert WellFormedRecipient(AddressOf(val));
      assert forall k | 0 <= k < |to| :: to[k] == if k < |h.to| then h.to[k] else AddressOf(val);
    }
  }

  lemma FieldKeepsRecipients(h: PatHeader, line: string, layouts: DateLayouts)
    requires AllWellFormed(h.to)
    ensures AllWellFormed(HeaderField(h, line, layouts).to)
  {
    var kv := KeyValue(line);
    if kv.Some? {
      SetFieldKeepsRecipients(h, kv.value.0, kv.value.1, layouts);
    }
  }

  /** Every recipient the header collects is well formed. */
  lemma {:induction false} RecipientsShape(lines: seq<string>, layouts: DateLayouts)
    ensures AllWellFormed(HeaderOf(lines, layouts).to)
    decreases |lines|
  {
    if lines != [] {
      RecipientsShape(lines[..|lines| - 1], layouts);
      FieldKeepsRecipients(HeaderOf(lines[..|lines| - 1], layouts), TrimRightChar(lines[|lines| - 1], '\r'), layouts);
    }
  }

  /** Trailing carriage returns stay when something else ends the text. */
  lemma TrimRightCharNoop(s: string, c: char)
    requires s == "" || s[|s| - 1] != c
    ensures TrimRightChar(s, c) == s
  {
  }

  lemma TrimSpaceAfterBlank(v: string)
    requires Trimmed(v)
    ensures TrimSpace(" " + v) == v
  {
    var s := " " + v;
    assert LeftEdge(s, 1) == 1;
    assert RightEdge(s, 1, |s|) == |s|;
    assert s[1..] == v;
  }

  /** A header line as PAT writes one. */
  function FieldLine(name: string, val: string): string {
    name + ": " + val
  }

  /** A `Name: value` line with a non-empty name is no blank line and loses nothing to the
      carriage-return trim. */
  lemma KeyLineShape(name: string, val: string)
    requires name != "" && !IsSpace(name[0]) && Trimmed(val)
    ensures !EndsHeader(FieldLine(name, val)) && TrimRightChar(FieldLine(name, val), '\r') == FieldLine(name, val)
  {
    var line := FieldLine(name, val);
    assert line[|line| - 1] != '\r' by {
      if val == "" {
        assert line[|line| - 1] == ' ';
      } else {
        assert line[|line| - 1] == val[|val| - 1];
      }
    }
    TrimRightCharNoop(line, '\r');
    TrimSpaceEmpty(line);
    assert line[0] == name[0];
  }

  lemma ColonSpace(name: string, val: string)
    ensures name + ": " + val == name + [':'] + (" " + val)
  {
    var l, r := name + ": " + val, name + [':'] + (" " + val);
    forall i | 0 <= i < |l| ensures l[i] == r[i] {
      if i < |name| {
        assert l[i] == name[i] == r[i];
      } else if i >= |name| + 2 {
        assert l[i] == val[i - |name| - 2] == r[i];
      }
    }
  }

  /** ... and, with a colon-free trimmed name, splits into that name, lower-cased, and the
      trimmed value. */
  lemma KeyLineCut(name: string, val: string)
    requires name != "" && Trimmed(name) && ':' !in name && Trimmed(val)
    ensures KeyValue(FieldLine(name, val)) == Some((ToLower(name), val))
  {
    var line := FieldLine(name, val);
    assert Cut(line, ':') == Some((name, " " + val)) by {
      ColonSpace(name, val);
      CutAfterFree(name, ':', " " + val);
    }
    assert TrimSpace(name) == name by {
      TrimSpaceOfTrimmed(name);
    }
    assert TrimSpace(" " + val) == val by {
      TrimSpaceAfterBlank(val);
    }
  }

  lemma KeyLineValue(name: string, key: string, val: string)
    requires name != "" && Trimmed(name) && ':' !in name && Trimmed(val) && ToLower(name) == key
    ensures !EndsHeader(FieldLine(name, val)) && KeyValue(TrimRightChar(FieldLine(name, val), '\r')) == Some((key, val))
  {
    KeyLineShape(name, val);
    KeyLineCut(name, val);
  }

  lemma MidKey(val: string)
    requires Trimmed(val)
    ensures !EndsHeader(FieldLine("Mid", val))
    ensures KeyValue(TrimRightChar(FieldLine("Mid", val), '\r')) == Some(("mid", val))
  {
    KeyLineValue("Mid", "mid", val);
  }

  lemma MidLine(h: PatHeader, mid: string, layouts: DateLayouts)
    requires Trimmed(mid)
    ensures HeaderStep(h, FieldLine("Mid", mid), layouts) == h.(mid := mid)
  {
    MidKey(mid);
  }

  lemma FromKey(val: string)
    requires Trimmed(val)
    ensures !EndsHeader(FieldLine("From", val))
    ensures KeyValue(TrimRightChar(FieldLine("From", val), '\r')) == Some(("from", val))
  {
    KeyLineValue("From", "from", val);
  }

  lemma FromLine(h: PatHeader, from: string, layouts: DateLayouts)
    requires Trimmed(from)
    ensures HeaderStep(h, FieldLine("From", from), layouts) == h.(from := from)
  {
    FromKey(from);
  }

  lemma ToKey(val: string)
    requires Trimmed(val)
    ensures !EndsHeader(FieldLine("To", val))
    ensures KeyValue(TrimRightChar(FieldLine("To", val), '\r')) == Some(("to", val))
  {
    KeyLineValue("To", "to", val);
  }

  lemma ToLine(h: PatHeader, to: string, layouts: DateLayouts)
    requires Trimmed(to) && to != ""
    ensures HeaderStep(h, FieldLine("To", to), layouts) == h.(to := h.to + [AddressOf(to)])
  {
    ToKey(to);
  }

  lemma SubjectKey(val: string)
    requires Trimmed(val)
    ensures !EndsHeader(FieldLine("Subject", val))
    ensures KeyValue(TrimRightChar(FieldLine("Subject", val), '\r')) == Some(("subject", val))
  {
    KeyLineValue("Subject", "subject", val);
  }

  lemma SubjectLine(h: PatHeader, subject: string, layouts: DateLayouts)
    requires Trimmed(subject)
    ensures HeaderStep(h, FieldLine("Subject", subject), layouts) == h.(subject := subject)
  {
    SubjectKey(subject);
  }

  lemma HeaderOfSnoc(lines: seq<string>, k: nat, layouts: DateLayouts)
    requires k < |lines|
    ensures HeaderOf(lines[..k + 1], layouts) == HeaderStep(HeaderOf(lines[..k], layouts), lines[k], layouts)
  {
    assert lines[..k + 1][..k] == lines[..k];
  }

  /** The text of a dump with `Mid:`, `From:`, `To:` and `Subject:` lines, a blank line and a
      body. */
  function DumpText(mid: string, from: string, to: string, subject: string, body: string): string {
    Join([FieldLine("Mid", mid), FieldLine("From", from), FieldLine("To", to), FieldLine("Subject", subject), ""] + Split(body, '\n'), "\n")
  }

  lemma DumpLines(mid: string, from: string, to: string, subject: string, body: string)
    requires '\n' !in mid && '\n' !in from && '\n' !in to && '\n' !in subject
    ensures var lines := Split(DumpText(mid, from, to, subject, body), '\n');
            && |lines| >= 5
            && lines[0] == FieldLine("Mid", mid) && lines[1] == FieldLine("From", from)
            && lines[2] == FieldLine("To", to) && lines[3] == FieldLine("Subject", subject)
            && lines[4] == "" && lines[5..] == Split(body, '\n')
  {
    var parts := [FieldLine("Mid", mid), FieldLine("From", from), FieldLine("To", to), FieldLine("Subject", subject), ""] + Split(body, '\n');
    forall k | 0 <= k < |parts| ensures '\n' !in parts[k] {
      if k >= 5 {
        assert parts[k] == Split(body, '\n')[k - 5];
      }
    }
    SplitJoin(parts, '\n');
    assert parts[5..] == Split(body, '\n');
  }

  lemma EmptyEndsHeader()
    ensures EndsHeader("")
  {
    assert TrimRightChar("", '\r') == "";
  }

  /** In such a dump the first blank line is the fifth. */
  lemma DumpBlankLine(lines: seq<string>, mid: string, from: string, to: string, subject: string)
    requires |lines| >= 5
    requires lines[0] == FieldLine("Mid", mid) && lines[1] == FieldLine("From", from)
    requires lines[2] == FieldLine("To", to) && lines[3] == FieldLine("Subject", subject)
    requires lines[4] == ""
    requires Trimmed(mid) && Trimmed(from) && Trimmed(to) && Trimmed(subject)
    ensures BlankFrom(lines, 0) == 4
  {
    EmptyEndsHeader();
    assert BlankFrom(lines, 4) == 4;
    SubjectKey(subject);
    assert BlankFrom(lines, 3) == 4;
    ToKey(to);
    assert BlankFrom(lines, 2) == 4;
    FromKey(from);
    assert BlankFrom(lines, 1) == 4;
    MidKey(mid);
  }

  /** A dump written with trimmed one-line `Mid:`, `From:`, `To:` and `Subject:` values, a blank
      line and a body without a trailing line feed parses back to those values and that body;
      a value may itself contain colons. */
  lemma DumpRoundTrip(mid: string, from: string, to: string, subject: string, body: string, layouts: DateLayouts)
    requires Trimmed(mid) && Trimmed(from) && Trimmed(to) && Trimmed(subject)
    requires '\n' !in mid && '\n' !in from && '\n' !in to && '\n' !in subject && to != ""
    requires body == "" || body[|body| - 1] != '\n'
    ensures DumpOf(DumpText(mid, from, to, subject, body), layouts)
         == (PatHeader(mid, 0, from, [AddressOf(to)], subject), body)
  {
    var lines := Split(DumpText(mid, from, to, subject, body), '\n');
    DumpLines(mid, from, to, subject, body);
    DumpBlankLine(lines, mid, from, to, subject);
    HeaderLinesRead(lines, mid, from, to, subject, layouts);
    JoinSplit(body, '\n');
    TrimRightCharNoop(body, '\n');
  }

  lemma HeaderLinesRead(lines: seq<string>, mid: string, from: string, to: string, subject: string, layouts: DateLayouts)
    requires |lines| >= 4
    requires lines[0] == FieldLine("Mid", mid) && lines[1] == FieldLine("From", from)
    requires lines[2] == FieldLine("To", to) && lines[3] == FieldLine("Subject", subject)
    requires Trimmed(mid) && Trimmed(from) && Trimmed(to) && Trimmed(subject) && to != ""
    ensures HeaderOf(lines[..4], layouts) == PatHeader(mid, 0, from, [AddressOf(to)], subject)
  {
    FirstTwoRead(lines, mid, from, layouts);
    LastTwoRead(lines, NoHeader.(mid := mid, from := from), to, subject, layouts);
  }

  lemma FirstTwoRead(lines: seq<string>, mid: string, from: string, layouts: DateLayouts)
    requires |lines| >= 2
    requires lines[0] == FieldLine("Mid", mid) && lines[1] == FieldLine("From", from)
    requires Trimmed(mid) && Trimmed(from)
    ensures HeaderOf(lines[..2], layouts) == NoHeader.(mid := mid, from := from)
  {
    assert lines[..0] == [];
    HeaderOfSnoc(lines, 0, layouts);
    MidLine(NoHeader, mid, layouts);
    HeaderOfSnoc(lines, 1, layouts);
    FromLine(NoHeader.(mid := mid), from, layouts);
  }

  lemma LastTwoRead(lines: seq<string>, h: PatHeader, to: string, subject: string, layouts: DateLayouts)
    requires |lines| >= 4 && HeaderOf(lines[..2], layouts) == h
    requires lines[2] == FieldLine("To", to) && lines[3] == FieldLine("Subject", subject)
    requires Trimmed(to) && Trimmed(subject) && to != ""
    ensures HeaderOf(lines[..4], layouts) == h.(to := h.to + [AddressOf(to)], subject := subject)
  {
    HeaderOfSnoc(lines, 2, layouts);
    ToLine(h, to, layouts);
    HeaderOfSnoc(lines, 3, layouts);
    SubjectLine(h.(to := h.to + [AddressOf(to)]), subject, layouts);
  }


  // ---------------------------------------------------------------- the reconcile loop

  const StoreNil := "ImportFromMailbox: store is nil"
  const CallsignRequired := "ImportFromMailbox: callsign is required (set RELAYOPS_CALLSIGN or pass -callsign)"
  const MboxRequired := "ImportFromMailbox: mbox path is required"
  const ScopeRequired := "ImportFromMailbox: scope is required"
  const NoSubject := "(no subject)"

  datatype ImportReport = ImportReport(scanned: nat, created: nat, updated: nat, errors: nat)

  /** A `.b2f` file the mailbox glob found: the name of its folder and its own name. */
  datatype MailboxFile = MailboxFile(folder: string, name: string)

  /** The extra record stored with the backend state before it is encoded: the id the dump
      reports, the folder, the scope, the dump text (whose SHA-256 digest is stored), the header
      date and the raw subject. */
  datatype PatExtra = PatExtra(mid: string, folder: string, scope: string, text: string, rawDate: Time, rawSubject: string)

  /** What the importer takes from outside: RELAYOPS_CALLSIGN, the `pat extract` command (by
      binary, mailbox, callsign and message id), the date layouts, the JSON encoding of the
      extra record, and, for the file at each position, the identifier generated for it, the
      storage failures it meets and the clock reading. */
  datatype Environment = Environment(
    envCallsign: string,
    extract: (string, string, string, string) -> Result<string>,
    layouts: DateLayouts,
    encode: PatExtra -> string,
    newId: nat -> Uuid,
    fault: nat -> StoreFaults,
    now: nat -> Time)

  /** What became of one file. */
  datatype Fate =
    | NoMid                              // the file name is the bare extension
    | LookupFailed                       // the reference lookup failed
    | ExtractFailed                      // `pat extract` failed
    | Refreshed(messageId: string)       // already linked: its backend state was refreshed
    | RefreshFailed(messageId: string)   // already linked: the backend state write failed
    | SaveFailed(m: Message)             // new: the message was not saved
    | RefFailed(m: Message)              // new: saved, but not linked
    | StateFailed(m: Message)            // new: saved and linked, but no backend state
    | Created(m: Message)                // new: saved, linked and its backend state recorded

  /** The fates that saved a canonical message. */
  predicate Saved(f: Fate) {
    f.RefFailed? || f.StateFailed? || f.Created?
  }

  function SavedIds(fates: seq<Fate>): set<string> {
    set k | 0 <= k < |fates| && Saved(fates[k]) :: fates[k].m.id
  }

  /** The report's created, updated and error counts after one more file: a created message
      counts as created, a refreshed one as updated, anything else as an error. */
  function Tally(c: (nat, nat, nat), f: Fate): (d: (nat, nat, nat))
    ensures d.0 + d.1 + d.2 == c.0 + c.1 + c.2 + 1
  {
    match f
    case Created(_) => (c.0 + 1, c.1, c.2)
    case Refreshed(_) => (c.0, c.1 + 1, c.2)
    case _ => (c.0, c.1, c.2 + 1)
  }

  /** The report's counts for these fates: every file adds to exactly one of them. */
  function Counts(fates: seq<Fate>): (c: (nat, nat, nat))
    ensures c.0 + c.1 + c.2 == |fates|
  {
    if fates == [] then (0, 0, 0) else Tally(Counts(fates[..|fates| - 1]), fates[|fates| - 1])
  }

  /** Go's `filepath.Ext` on a base name: from the final dot on, empty when there is no dot. */
  function Ext(name: string): (e: string)
    ensures e == "" <==> '.' !in name
    ensures e != "" ==> e[0] == '.' && '.' !in e[1..] && HasSuffix(name, e)
  {
    if name == [] then ""
    else if name[|name| - 1] == '.' then "."
    else
      var init := name[..|name| - 1];
      var e := Ext(init);
      assert name == init + [name[|name| - 1]];
      if e == "" then "" else
        assert (e + [name[|name| - 1]])[1..] == e[1..] + [name[|name| - 1]];
        assert name[|name| - |e| - 1..] == init[|init| - |e|..] + [name[|name| - 1]];
        e + [name[|name| - 1]]
  }

  /** The PAT message id a file name carries: the name without its extension. */
  function MidOf(name: string): string {
    TrimSuffix(name, Ext(name))
  }

  /** The file PAT keeps a message in is read back as that message's id. */
  lemma MidOfB2F(mid: string)
    ensures MidOf(mid + ".b2f") == mid
  {
    var n := mid + ".b2f";
    assert n[..|n| - 1] == mid + ".b2";
    assert (mid + ".b2")[..|mid| + 2] == mid + ".b";
    assert (mid + ".b")[..|mid| + 1] == mid + ".";
    assert Ext(mid + ".") == ".";
    assert Ext(mid + ".b") == ".b";
    assert Ext(mid + ".b2") == ".b2";
    assert Ext(n) == ".b2f";
    assert n[..|n| - 4] == mid;
  }

  /** The PAT binary in effect: `pat` when none is given. */
  function PatBinary(patBinary: string): (bin: string)
    ensures !AllSpace(patBinary) ==> bin == patBinary
    ensures AllSpace(patBinary) ==> bin == "pat"
  {
    TrimSpaceEmpty(patBinary);
    if TrimSpace(patBinary) == "" then "pat" else patBinary
  }

  /** The canonical message created for a PAT message not yet in the ledger: a fresh id, the
      trimmed subject or "(no subject)", the dump's body, sender and recipients, created at the
      header date or now when there is none, updated now, with the folder's status, an empty
      (non-nil) tag list and default metadata. */
  function NewRecord(id: Uuid, hdr: PatHeader, body: string, status: Status, now: Time): (m: Message)
    ensures m.id == id && m.status == status && m.body == body && m.to == hdr.to && m.tags == Slice([])
    ensures m.from == Address(hdr.from, "") && m.meta == DefaultMeta() && m.lastError == "" && m.sentAt == None
    ensures m.subject != ""
    ensures !AllSpace(hdr.subject) ==> m.subject == TrimSpace(hdr.subject)
    ensures AllSpace(hdr.subject) ==> m.subject == NoSubject
    ensures !IsZero(hdr.date) ==> m.createdAt == hdr.date
    ensures IsZero(hdr.date) ==> m.createdAt == now
    ensures m.updatedAt == now
  {
    TrimSpaceEmpty(hdr.subject);
    var subj := TrimSpace(hdr.subject);
    Message(id, if subj == "" then NoSubject else subj, body, hdr.to, Address(hdr.from, ""), Slice([]),
            if IsZero(hdr.date) then now else hdr.date, now, DefaultMeta(), status, None, "")
  }

  /** The record created for file `k` from the text `pat extract` printed for it. */
  function RecordFor(file: MailboxFile, k: nat, text: string, env: Environment): Message {
    var dump := DumpOf(text, env.layouts);
    NewRecord(env.newId(k), dump.0, dump.1, MapPatFolder(ToLower(file.folder)).2, env.now(k))
  }

  /** The encoded extra record for file `k`. */
  function ExtraFor(file: MailboxFile, scope: string, text: string, env: Environment): string {
    var hdr := DumpOf(text, env.layouts).0;
    env.encode(PatExtra(hdr.mid, MapPatFolder(ToLower(file.folder)).0, scope, text, hdr.date, hdr.subject))
  }

  /** A linked message: its backend state is written, unless the id is empty or the write fails. */
  function Refresh(l: Ledger, id: string, folder: string, state: string, extra: string, faults: StoreFaults,
                   now: Time): (Fate, Ledger)
  {
    if id == "" || faults.state.Some? then (RefreshFailed(id), l)
    else (Refreshed(id), l.(states := UpsertState(l.states, StateKey(id, PatBackend), folder, state, StoredJson(extra), now)))
  }

  /** A new message: saved (unless the insert fails or the id is taken), then linked, then its
      backend state written, stopping at the first failure. */
  function Admit(l: Ledger, m: Message, key: RefKey, folder: string, state: string, extra: string,
                 faults: StoreFaults, now: Time): (Fate, Ledger)
  {
    if faults.save.Some? || m.id in l.messages then (SaveFailed(m), l)
    else
      var saved := l.(messages := l.messages[m.id := RowOf(m)], order := l.order + [m.id]);
      if faults.ref.Some? then (RefFailed(m), saved)
      else
        var linked := saved.(refs := UpsertRef(l.refs, key, m.id, "{}", now));
        if faults.state.Some? then (StateFailed(m), linked)
        else (Created(m), linked.(states := UpsertState(l.states, StateKey(m.id, PatBackend), folder, state, StoredJson(extra), now)))
  }

  /** One file of the mailbox, against the ledger as the earlier files left it. */
  function Visit(l: Ledger, v3: bool, file: MailboxFile, k: nat, bin: string, mbox: string, call: string,
                 scope: string, env: Environment): (Fate, Ledger)
  {
    var mid := MidOf(file.name);
    var faults := env.fault(k);
    if mid == "" then (NoMid, l)
    else if !v3 || faults.lookup.Some? then (LookupFailed, l)
    else
      var x := env.extract(bin, mbox, call, mid);
      if x.Err? then (ExtractFailed, l)
      else
        var (folder, state, _) := MapPatFolder(ToLower(file.folder));
        Settle(l, RefKey(PatBackend, mid, scope), folder, state, RecordFor(file, k, x.value, env),
               ExtraFor(file, scope, x.value, env), faults, env.now(k))
  }

  /** A file whose dump was read: refreshed when its PAT id is linked, admitted as `m` otherwise. */
  function Settle(l: Ledger, key: RefKey, folder: string, state: string, m: Message, extra: string,
                  faults: StoreFaults, now: Time): (Fate, Ledger)
  {
    if key in l.refs then Refresh(l, l.refs[key].messageId, folder, state, extra, faults, now)
    else Admit(l, m, key, folder, state, extra, faults, now)
  }

  /** The files in glob order, the file at position `k` meeting `env`'s faults for `k`. */
  function ImportAll(l: Ledger, v3: bool, files: seq<MailboxFile>, bin: string, mbox: string, call: string,
                     scope: string, env: Environment): (r: (seq<Fate>, Ledger))
    ensures |r.0| == |files|
  {
    if files == [] then ([], l)
    else
      var n := |files| - 1;
      var p := ImportAll(l, v3, files[..n], bin, mbox, call, scope, env);
      var s := Visit(p.1, v3, files[n], n, bin, mbox, call, scope, env);
      (p.0 + [s.0], s.1)
  }

  function ReportOf(fates: seq<Fate>): ImportReport {
    var c := Counts(fates);
    ImportReport(|fates|, c.0, c.1, c.2)
  }

  /** The new-message half of one iteration: save, link, write the backend state. */
  method ImportNew(st: MessageStore, m: Message, key: RefKey, folder: string, state: string, extra: string,
                   faults: StoreFaults, now: Time) returns (f: Fate)
    requires st.Opened() && SchemaV3 in st.migrations && key.backend == PatBackend && key.externalId != "" && m.id != ""
    modifies st
    ensures st.Opened()
    ensures st.migrations == old(st.migrations) && st.scopes == old(st.scopes) && st.statusLog == old(st.statusLog)
    ensures (f, LedgerOf(st)) == Admit(old(LedgerOf(st)), m, key, folder, state, extra, faults, now)
  {
    var saved := st.SaveMessage(Some(m), faults.save);
    if saved.Fail? {
      return SaveFailed(m);
    }
    var linked := st.UpsertExternalRef(m.id, PatBackend, key.externalId, key.scope, "{}", now, faults.ref);
    if linked.Fail? {
      return RefFailed(m);
    }
    var recorded := st.UpsertBackendState(m.id, PatBackend, folder, state, extra, now, faults.state);
    if recorded.Fail? {
      return StateFailed(m);
    }
    f := Created(m);
  }

  /** One iteration of the loop in `ImportFromMailbox`. */
  method ImportOne(st: MessageStore, file: MailboxFile, k: nat, bin: string, mbox: string, call: string,
                   scope: string, env: Environment) returns (f: Fate)
    requires st.Opened()
    modifies st
    ensures st.Opened()
    ensures st.migrations == old(st.migrations) && st.scopes == old(st.scopes) && st.statusLog == old(st.statusLog)
    ensures (f, LedgerOf(st)) == Visit(old(LedgerOf(st)), SchemaV3 in st.migrations, file, k, bin, mbox, call, scope, env)
  {
    var mid := MidOf(file.name);
    if mid == "" {
      return NoMid;
    }
    var (folder, state, status) := MapPatFolder(ToLower(file.folder));
    var faults := env.fault(k);
    var looked := st.GetMessageIDByExternalRef(PatBackend, mid, scope, faults.lookup);
    if looked.Err? {
      return LookupFailed;
    }
    var (messageId, found) := looked.value;
    var x := env.extract(bin, mbox, call, mid);
    if x.Err? {
      return ExtractFailed;
    }
    VisitReads(old(LedgerOf(st)), SchemaV3 in st.migrations, file, k, bin, mbox, call, scope, env, x.value);
    var hdr, body := ParsePatDump(x.value, env.layouts);
    var extra := env.encode(PatExtra(hdr.mid, folder, scope, x.value, hdr.date, hdr.subject));
    var now := env.now(k);
    if found {
      var u := st.UpsertBackendState(messageId, PatBackend, folder, state, extra, now, faults.state);
      f := if u.Pass? then Refreshed(messageId) else RefreshFailed(messageId);
      return;
    }
    var m := NewRecord(env.newId(k), hdr, body, status, now);
    f := ImportNew(st, m, RefKey(PatBackend, mid, scope), folder, state, extra, faults, now);
  }

  /** Imports the PAT mailbox for one callsign into the ledger, read-only on the PAT side: the
      store, a callsign (the argument or RELAYOPS_CALLSIGN), the mailbox path and the scope are
      required, in that order; then every file the glob found is visited in order and the report
      counts them. */
  method ImportFromMailbox(st: MessageStore?, patBinary: string, mbox: string, callsign: string, scope: string,
                           files: seq<MailboxFile>, env: Environment) returns (r: Result<ImportReport>, ghost fates: seq<Fate>)
    requires st != null ==> st.Opened()
    modifies st
    ensures st == null ==> r == Err(StoreNil)
    ensures st != null && EffectiveCallsign(callsign, env.envCallsign) == "" ==> r == Err(CallsignRequired)
    ensures st != null && EffectiveCallsign(callsign, env.envCallsign) != "" && AllSpace(mbox) ==> r == Err(MboxRequired)
    ensures st != null && EffectiveCallsign(callsign, env.envCallsign) != "" && !AllSpace(mbox) && AllSpace(scope) ==>
              r == Err(ScopeRequired)
    ensures r.Ok? <==> st != null && EffectiveCallsign(callsign, env.envCallsign) != "" && !AllSpace(mbox) && !AllSpace(scope)
    ensures st != null ==> st.Opened() && st.migrations == old(st.migrations) && st.scopes == old(st.scopes)
                           && st.statusLog == old(st.statusLog)
    ensures st != null && r.Err? ==> LedgerOf(st) == old(LedgerOf(st))
    ensures r.Ok? ==>
              var out := ImportAll(old(LedgerOf(st)), SchemaV3 in st.migrations, files, PatBinary(patBinary), mbox,
                                   EffectiveCallsign(callsign, env.envCallsign), scope, env);
              fates == out.0 && LedgerOf(st) == out.1 && r.value == ReportOf(fates)
  {
    fates := [];
    if st == null {
      return Err(StoreNil), fates;
    }
    var bin := PatBinary(patBinary);
    var call := EffectiveCallsign(callsign, env.envCallsign);
    if call == "" {
      return Err(CallsignRequired), fates;
    }
    TrimSpaceEmpty(mbox);
    if TrimSpace(mbox) == "" {
      return Err(MboxRequired), fates;
    }
    TrimSpaceEmpty(scope);
    if TrimSpace(scope) == "" {
      return Err(ScopeRequired), fates;
    }
    var counts;
    fates, counts := ImportFiles(st, files, bin, mbox, call, scope, env);
    r := Ok(ImportReport(|files|, counts.0, counts.1, counts.2));
  }

  /** A file whose dump was read is settled with the record and the extra built from that dump. */
  lemma VisitReads(l: Ledger, v3: bool, file: MailboxFile, k: nat, bin: string, mbox: string, call: string,
                   scope: string, env: Environment, text: string)
    requires MidOf(file.name) != "" && v3 && env.fault(k).lookup.None?
    requires env.extract(bin, mbox, call, MidOf(file.name)) == Ok(text)
    ensures Visit(l, v3, file, k, bin, mbox, call, scope, env)
         == Settle(l, RefKey(PatBackend, MidOf(file.name), scope), MapPatFolder(ToLower(file.folder)).0,
                   MapPatFolder(ToLower(file.folder)).1, RecordFor(file, k, text, env), ExtraFor(file, scope, text, env),
                   env.fault(k), env.now(k))
  {
  }

  /** The loop of `ImportFromMailbox`: every file in glob order, tallied as it goes (the result is
      stated on the prefix of length `|files|`, the form the loop counts in). */
  method ImportFiles(st: MessageStore, files: seq<MailboxFile>, bin: string, mbox: string, call: string,
                     scope: string, env: Environment) returns (ghost fates: seq<Fate>, counts: (nat, nat, nat))
    requires st.Opened()
    modifies st
    ensures st.Opened() && st.migrations == old(st.migrations) && st.scopes == old(st.scopes)
    ensures st.statusLog == old(st.statusLog)
    ensures (fates, LedgerOf(st)) == ImportAll(old(LedgerOf(st)), SchemaV3 in st.migrations, files, bin, mbox, call, scope, env)
    ensures counts == Counts(fates)
  {
    fates := [];
    counts := (0, 0, 0);
    var i := 0;
    while i < |files|
      invariant i <= |files|
      invariant st.Opened() && st.migrations == old(st.migrations) && st.scopes == old(st.scopes)
      invariant st.statusLog == old(st.statusLog)
      invariant (fates, LedgerOf(st)) == ImportAll(old(LedgerOf(st)), SchemaV3 in st.migrations, files[..i], bin, mbox, call, scope, env)
      invariant counts == Counts(fates)
    {
      fates, counts := ImportNext(st, files, i, bin, mbox, call, scope, env, old(LedgerOf(st)), SchemaV3 in st.migrations, fates, counts);
      i := i + 1;
    }
    ImportAllDone(old(LedgerOf(st)), SchemaV3 in st.migrations, files, i, bin, mbox, call, scope, env, fates, LedgerOf(st));
  }

  /** The loop step of `ImportFromMailbox`: file `i` extends the fates, the ledger and the counts. */
  method ImportNext(st: MessageStore, files: seq<MailboxFile>, i: nat, bin: string, mbox: string, call: string,
                    scope: string, env: Environment, ghost l0: Ledger, ghost v3: bool, ghost fates0: seq<Fate>,
                    counts0: (nat, nat, nat))
    returns (ghost fates: seq<Fate>, counts: (nat, nat, nat))
    requires i < |files| && st.Opened() && v3 == (SchemaV3 in st.migrations)
    requires (fates0, LedgerOf(st)) == ImportAll(l0, v3, files[..i], bin, mbox, call, scope, env)
    requires counts0 == Counts(fates0)
    modifies st
    ensures st.Opened()
    ensures st.migrations == old(st.migrations) && st.scopes == old(st.scopes) && st.statusLog == old(st.statusLog)
    ensures (fates, LedgerOf(st)) == ImportAll(l0, v3, files[..i + 1], bin, mbox, call, scope, env)
    ensures counts == Counts(fates)
  {
    ImportAllStep(l0, v3, files, i, bin, mbox, call, scope, env);
    var f := ImportOne(st, files[i], i, bin, mbox, call, scope, env);
    assert (fates0 + [f])[..i] == fates0;
    fates := fates0 + [f];
    counts := Tally(counts0, f);
  }

  /** The loop has visited every file once its index reaches the end of the mailbox. */
  lemma ImportAllDone(l0: Ledger, v3: bool, files: seq<MailboxFile>, i: nat, bin: string, mbox: string, call: string,
                      scope: string, env: Environment, fates: seq<Fate>, l: Ledger)
    requires i == |files|
    requires (fates, l) == ImportAll(l0, v3, files[..i], bin, mbox, call, scope, env)
    ensures (fates, l) == ImportAll(l0, v3, files, bin, mbox, call, scope, env)
  {
    assert files[..i] == files;
  }

  /** One more file extends `ImportAll` by one visit. */
  lemma ImportAllStep(l0: Ledger, v3: bool, files: seq<MailboxFile>, i: nat, bin: string, mbox: string, call: string,
                      scope: string, env: Environment)
    requires i < |files|
    ensures var p := ImportAll(l0, v3, files[..i], bin, mbox, call, scope, env);
            var s := Visit(p.1, v3, files[i], i, bin, mbox, call, scope, env);
            ImportAll(l0, v3, files[..i + 1], bin, mbox, call, scope, env) == (p.0 + [s.0], s.1)
  {
    assert files[..i + 1][..i] == files[..i];
  }


  // ---------------------------------------------------------------- what an import promises

  /** What the file at position `k` may have become: each fate names the step that decided it
      and the failures that led there; a new message is the record built from the dump, and it
      counts as created only when its insert, its reference and its backend state all succeeded. */
  predicate FateFits(f: Fate, file: MailboxFile, k: nat, bin: string, mbox: string, call: string, v3: bool,
                     env: Environment)
  {
    var mid := MidOf(file.name);
    var x := env.extract(bin, mbox, call, mid);
    var faults := env.fault(k);
    var looked := mid != "" && v3 && faults.lookup.None?;
    match f
    case NoMid => mid == ""
    case LookupFailed => mid != "" && (!v3 || faults.lookup.Some?)
    case ExtractFailed => looked && x.Err?
    case _ => looked && x.Ok? && Settled(f, RecordFor(file, k, x.value, env), faults)
  }

  /** What a file whose dump was read may have become, `m` being the record built from it. */
  predicate Settled(f: Fate, m: Message, faults: StoreFaults) {
    match f
    case Refreshed(id) => id != "" && faults.state.None?
    case RefreshFailed(id) => id == "" || faults.state.Some?
    case SaveFailed(n) => n == m
    case RefFailed(n) => n == m && faults.save.None? && faults.ref.Some?
    case StateFailed(n) => n == m && faults.save.None? && faults.ref.None? && faults.state.Some?
    case Created(n) => n == m && faults.save.None? && faults.ref.None? && faults.state.None?
    case _ => false
  }

  /** A file that ended refreshed or created is linked: the ledger maps its PAT id in this scope
      to the message. */
  predicate Linked(f: Fate, refs: map<RefKey, RefRow>, mid: string, scope: string) {
    var key := RefKey(PatBackend, mid, scope);
    && (f.Refreshed? ==> key in refs && refs[key].messageId == f.messageId)
    && (f.Created? ==> key in refs && refs[key].messageId == f.m.id)
  }

  lemma VisitFits(l: Ledger, v3: bool, file: MailboxFile, k: nat, bin: string, mbox: string, call: string,
                  scope: string, env: Environment)
    ensures FateFits(Visit(l, v3, file, k, bin, mbox, call, scope, env).0, file, k, bin, mbox, call, v3, env)
  {
    var mid := MidOf(file.name);
    var faults := env.fault(k);
    var x := env.extract(bin, mbox, call, mid);
    if mid != "" && v3 && faults.lookup.None? && x.Ok? {
      VisitReads(l, v3, file, k, bin, mbox, call, scope, env, x.value);
      SettleFits(l, RefKey(PatBackend, mid, scope), MapPatFolder(ToLower(file.folder)).0,
                 MapPatFolder(ToLower(file.folder)).1, RecordFor(file, k, x.value, env),
                 ExtraFor(file, scope, x.value, env), faults, env.now(k));
    }
  }

  lemma SettleFits(l: Ledger, key: RefKey, folder: string, state: string, m: Message, extra: string,
                   faults: StoreFaults, now: Time)
    ensures Settled(Settle(l, key, folder, state, m, extra, faults, now).0, m, faults)
  {
  }

  /** Every file's fate fits it. */
  lemma {:induction false} ImportFates(l: Ledger, v3: bool, files: seq<MailboxFile>, bin: string, mbox: string,
                                       call: string, scope: string, env: Environment)
    ensures var fates := ImportAll(l, v3, files, bin, mbox, call, scope, env).0;
            forall k | 0 <= k < |files| :: FateFits(fates[k], files[k], k, bin, mbox, call, v3, env)
  {
    if files != [] {
      var n := |files| - 1;
      var p := ImportAll(l, v3, files[..n], bin, mbox, call, scope, env);
      ImportFates(l, v3, files[..n], bin, mbox, call, scope, env);
      VisitFits(p.1, v3, files[n], n, bin, mbox, call, scope, env);
    }
  }

  /** One new message: the ledger only gains, the message under an id it did not hold, and a
      created message is linked under its PAT id. */
  lemma AdmitGrows(l: Ledger, m: Message, key: RefKey, folder: string, state: string, extra: string,
                   faults: StoreFaults, now: Time)
    requires key.backend == PatBackend && key !in l.refs
    ensures var r := Admit(l, m, key, folder, state, extra, faults, now);
            && Extends(l.messages, r.1.messages) && Extends(l.refs, r.1.refs)
            && r.1.messages.Keys == l.messages.Keys + (if Saved(r.0) then {m.id} else {})
            && (Saved(r.0) ==> r.0.m == m && m.id !in l.messages && r.1.messages[m.id] == RowOf(m))
            && Linked(r.0, r.1.refs, key.externalId, key.scope)
  {
  }

  /** A linked file: only the backend state changes. */
  lemma RefreshGrows(l: Ledger, key: RefKey, folder: string, state: string, extra: string, faults: StoreFaults,
                     now: Time)
    requires key in l.refs && key.backend == PatBackend
    ensures var r := Refresh(l, l.refs[key].messageId, folder, state, extra, faults, now);
            && r.1.messages == l.messages && r.1.order == l.order && r.1.refs == l.refs && !Saved(r.0)
            && Linked(r.0, r.1.refs, key.externalId, key.scope)
  {
  }

  /** One file: the ledger only gains, a saved message under an id it did not hold, and a file
      that ends refreshed or created is linked. */
  lemma VisitGrows(l: Ledger, v3: bool, file: MailboxFile, k: nat, bin: string, mbox: string, call: string,
                   scope: string, env: Environment)
    ensures var r := Visit(l, v3, file, k, bin, mbox, call, scope, env);
            && Extends(l.messages, r.1.messages) && Extends(l.refs, r.1.refs)
            && r.1.messages.Keys == l.messages.Keys + (if Saved(r.0) then {r.0.m.id} else {})
            && (Saved(r.0) ==> r.0.m.id !in l.messages && r.1.messages[r.0.m.id] == RowOf(r.0.m))
            && Linked(r.0, r.1.refs, MidOf(file.name), scope)
  {
    ExtendsRefl(l.messages);
    ExtendsRefl(l.refs);
    var mid := MidOf(file.name);
    var faults := env.fault(k);
    var x := env.extract(bin, mbox, call, mid);
    if mid != "" && v3 && faults.lookup.None? && x.Ok? {
      VisitReads(l, v3, file, k, bin, mbox, call, scope, env, x.value);
      SettleGrows(l, RefKey(PatBackend, mid, scope), MapPatFolder(ToLower(file.folder)).0,
                  MapPatFolder(ToLower(file.folder)).1, RecordFor(file, k, x.value, env),
                  ExtraFor(file, scope, x.value, env), faults, env.now(k));
    }
  }

  /** A file whose dump was read: the ledger only gains, and a refreshed or created file is linked. */
  lemma SettleGrows(l: Ledger, key: RefKey, folder: string, state: string, m: Message, extra: string,
                    faults: StoreFaults, now: Time)
    requires key.backend == PatBackend
    ensures var r := Settle(l, key, folder, state, m, extra, faults, now);
            && Extends(l.messages, r.1.messages) && Extends(l.refs, r.1.refs)
            && r.1.messages.Keys == l.messages.Keys + (if Saved(r.0) then {r.0.m.id} else {})
            && (Saved(r.0) ==> r.0.m.id !in l.messages && r.1.messages[r.0.m.id] == RowOf(r.0.m))
            && Linked(r.0, r.1.refs, key.externalId, key.scope)
  {
    if key in l.refs {
      RefreshGrows(l, key, folder, state, extra, faults, now);
    } else {
      AdmitGrows(l, m, key, folder, state, extra, faults, now);
    }
  }

  lemma LinkedExtends(f: Fate, a: map<RefKey, RefRow>, b: map<RefKey, RefRow>, mid: string, scope: string)
    requires Linked(f, a, mid, scope) && Extends(a, b)
    ensures Linked(f, b, mid, scope)
  {
  }

  lemma SavedIdsSnoc(fates: seq<Fate>, f: Fate)
    ensures SavedIds(fates + [f]) == SavedIds(fates) + (if Saved(f) then {f.m.id} else {})
  {
    var s := fates + [f];
    assert forall k | 0 <= k < |fates| :: s[k] == fates[k];
    assert s[|fates|] == f;
  }

  /** `ImportAll` on a non-empty mailbox: the last file visits the ledger the others left. */
  lemma ImportAllLast(l: Ledger, v3: bool, files: seq<MailboxFile>, bin: string, mbox: string, call: string,
                      scope: string, env: Environment)
    requires files != []
    ensures var n := |files| - 1;
            var p := ImportAll(l, v3, files[..n], bin, mbox, call, scope, env);
            var r := Visit(p.1, v3, files[n], n, bin, mbox, call, scope, env);
            ImportAll(l, v3, files, bin, mbox, call, scope, env) == (p.0 + [r.0], r.1)
  {
  }

  /** An import only adds to the ledger: every message and reference it held stays as it was,
      and the messages it gains are exactly the ones the fates saved. */
  lemma {:induction false} ImportGrows(l: Ledger, v3: bool, files: seq<MailboxFile>, bin: string, mbox: string,
                                       call: string, scope: string, env: Environment)
    ensures var out := ImportAll(l, v3, files, bin, mbox, call, scope, env);
            && Extends(l.messages, out.1.messages) && Extends(l.refs, out.1.refs)
            && out.1.messages.Keys == l.messages.Keys + SavedIds(out.0)
  {
    if files == [] {
      ExtendsRefl(l.messages);
      ExtendsRefl(l.refs);
    } else {
      var n := |files| - 1;
      var p := ImportAll(l, v3, files[..n], bin, mbox, call, scope, env);
      ImportGrows(l, v3, files[..n], bin, mbox, call, scope, env);
      var r := Visit(p.1, v3, files[n], n, bin, mbox, call, scope, env);
      ImportAllLast(l, v3, files, bin, mbox, call, scope, env);
      VisitGrows(p.1, v3, files[n], n, bin, mbox, call, scope, env);
      GrowsSnoc(l, p.0, p.1, r.0, r.1);
    }
  }

  /** The inductive step of `ImportGrows`, over the ledgers and fates themselves. */
  lemma GrowsSnoc(l: Ledger, fates: seq<Fate>, mid: Ledger, f: Fate, last: Ledger)
    requires Extends(l.messages, mid.messages) && Extends(l.refs, mid.refs)
    requires mid.messages.Keys == l.messages.Keys + SavedIds(fates)
    requires Extends(mid.messages, last.messages) && Extends(mid.refs, last.refs)
    requires last.messages.Keys == mid.messages.Keys + (if Saved(f) then {f.m.id} else {})
    ensures Extends(l.messages, last.messages) && Extends(l.refs, last.refs)
    ensures last.messages.Keys == l.messages.Keys + SavedIds(fates + [f])
  {
    ExtendsTrans(l.messages, mid.messages, last.messages);
    ExtendsTrans(l.refs, mid.refs, last.refs);
    SavedIdsSnoc(fates, f);
  }

  /** Every message an import saved is in the ledger afterwards as it was built. */
  lemma {:induction false} ImportSavedRows(l: Ledger, v3: bool, files: seq<MailboxFile>, bin: string, mbox: string,
                                           call: string, scope: string, env: Environment)
    ensures var out := ImportAll(l, v3, files, bin, mbox, call, scope, env);
            forall k | 0 <= k < |files| && Saved(out.0[k]) ::
              out.0[k].m.id in out.1.messages && out.1.messages[out.0[k].m.id] == RowOf(out.0[k].m)
  {
    if files != [] {
      var n := |files| - 1;
      var p := ImportAll(l, v3, files[..n], bin, mbox, call, scope, env);
      ImportSavedRows(l, v3, files[..n], bin, mbox, call, scope, env);
      var r := Visit(p.1, v3, files[n], n, bin, mbox, call, scope, env);
      ImportAllLast(l, v3, files, bin, mbox, call, scope, env);
      VisitGrows(p.1, v3, files[n], n, bin, mbox, call, scope, env);
      var fates := p.0 + [r.0];
      forall k | 0 <= k < |files| && Saved(fates[k])
        ensures fates[k].m.id in r.1.messages && r.1.messages[fates[k].m.id] == RowOf(fates[k].m)
      {
        if k < n {
          assert fates[k] == p.0[k];
        } else {
          assert fates[k] == r.0;
        }
      }
    }
  }

  /** Every file that ended refreshed or created is linked in the ledger afterwards. */
  lemma {:induction false} ImportLinks(l: Ledger, v3: bool, files: seq<MailboxFile>, bin: string, mbox: string,
                                       call: string, scope: string, env: Environment)
    ensures var out := ImportAll(l, v3, files, bin, mbox, call, scope, env);
            forall k | 0 <= k < |files| :: Linked(out.0[k], out.1.refs, MidOf(files[k].name), scope)
  {
    if files != [] {
      var n := |files| - 1;
      var p := ImportAll(l, v3, files[..n], bin, mbox, call, scope, env);
      ImportLinks(l, v3, files[..n], bin, mbox, call, scope, env);
      var r := Visit(p.1, v3, files[n], n, bin, mbox, call, scope, env);
      ImportAllLast(l, v3, files, bin, mbox, call, scope, env);
      VisitGrows(p.1, v3, files[n], n, bin, mbox, call, scope, env);
      LinkedSnoc(p.0, r.0, p.1.refs, r.1.refs, files, scope);
    }
  }

  lemma LinkedSnoc(fates: seq<Fate>, f: Fate, refs0: map<RefKey, RefRow>, refs1: map<RefKey, RefRow>,
                   files: seq<MailboxFile>, scope: string)
    requires |files| == |fates| + 1 && Extends(refs0, refs1)
    requires forall k | 0 <= k < |fates| :: Linked(fates[k], refs0, MidOf(files[..|fates|][k].name), scope)
    requires Linked(f, refs1, MidOf(files[|fates|].name), scope)
    ensures forall k | 0 <= k < |files| :: Linked((fates + [f])[k], refs1, MidOf(files[k].name), scope)
  {
    forall k | 0 <= k < |files|
      ensures Linked((fates + [f])[k], refs1, MidOf(files[k].name), scope)
    {
      if k < |fates| {
        assert (fates + [f])[k] == fates[k] && files[..|fates|][k] == files[k];
        LinkedExtends(fates[k], refs0, refs1, MidOf(files[k].name), scope);
      } else {
        assert (fates + [f])[k] == f;
      }
    }
  }

  /** A file whose PAT id is already linked in this scope never creates a message. */
  lemma {:induction false} ImportLinkedSavesNothing(l: Ledger, v3: bool, files: seq<MailboxFile>, bin: string,
                                                    mbox: string, call: string, scope: string, env: Environment)
    requires forall k | 0 <= k < |files| && MidOf(files[k].name) != "" ::
               RefKey(PatBackend, MidOf(files[k].name), scope) in l.refs
    ensures var out := ImportAll(l, v3, files, bin, mbox, call, scope, env);
            && out.1.messages == l.messages && out.1.order == l.order
            && forall k | 0 <= k < |files| :: !Saved(out.0[k])
  {
    if files != [] {
      var n := |files| - 1;
      var p := ImportAll(l, v3, files[..n], bin, mbox, call, scope, env);
      assert forall k | 0 <= k < n :: files[..n][k] == files[k];
      ImportLinkedSavesNothing(l, v3, files[..n], bin, mbox, call, scope, env);
      ImportGrows(l, v3, files[..n], bin, mbox, call, scope, env);
      var r := Visit(p.1, v3, files[n], n, bin, mbox, call, scope, env);
      ImportAllLast(l, v3, files, bin, mbox, call, scope, env);
      var mid := MidOf(files[n].name);
      if mid != "" {
        assert RefKey(PatBackend, mid, scope) in p.1.refs;
      }
      VisitLinked(p.1, v3, files[n], n, bin, mbox, call, scope, env);
      NoneSavedSnoc(p.0, r.0);
    }
  }

  /** A file whose PAT id is linked leaves the messages alone. */
  lemma VisitLinked(l: Ledger, v3: bool, file: MailboxFile, k: nat, bin: string, mbox: string, call: string,
                    scope: string, env: Environment)
    requires MidOf(file.name) != "" ==> RefKey(PatBackend, MidOf(file.name), scope) in l.refs
    ensures var r := Visit(l, v3, file, k, bin, mbox, call, scope, env);
            r.1.messages == l.messages && r.1.order == l.order && !Saved(r.0)
  {
    var mid := MidOf(file.name);
    var faults := env.fault(k);
    var x := env.extract(bin, mbox, call, mid);
    if mid != "" && v3 && faults.lookup.None? && x.Ok? {
      VisitReads(l, v3, file, k, bin, mbox, call, scope, env, x.value);
      SettleLinked(l, RefKey(PatBackend, mid, scope), MapPatFolder(ToLower(file.folder)).0,
                   MapPatFolder(ToLower(file.folder)).1, RecordFor(file, k, x.value, env),
                   ExtraFor(file, scope, x.value, env), faults, env.now(k));
    }
  }

  /** A linked file is only refreshed: no message is saved. */
  lemma SettleLinked(l: Ledger, key: RefKey, folder: string, state: string, m: Message, extra: string,
                     faults: StoreFaults, now: Time)
    requires key in l.refs
    ensures var r := Settle(l, key, folder, state, m, extra, faults, now);
            r.1.messages == l.messages && r.1.order == l.order && !Saved(r.0)
  {
  }

  lemma NoneSavedSnoc(fates: seq<Fate>, f: Fate)
    requires forall k | 0 <= k < |fates| :: !Saved(fates[k])
    requires !Saved(f)
    ensures forall k | 0 <= k < |fates| + 1 :: !Saved((fates + [f])[k])
  {
    forall k | 0 <= k < |fates| + 1
      ensures !Saved((fates + [f])[k])
    {
      if k < |fates| {
        assert (fates + [f])[k] == fates[k];
      } else {
        assert (fates + [f])[k] == f;
      }
    }
  }

  /** Importing the same mailbox again, once every file with an id ended refreshed or created,
      creates no message, whatever fails the second time. */
  lemma Reimport(l: Ledger, v3: bool, files: seq<MailboxFile>, bin: string, mbox: string, call: string,
                 scope: string, env: Environment, env2: Environment)
    requires var fates := ImportAll(l, v3, files, bin, mbox, call, scope, env).0;
             forall k | 0 <= k < |files| && MidOf(files[k].name) != "" :: fates[k].Refreshed? || fates[k].Created?
    ensures var l1 := ImportAll(l, v3, files, bin, mbox, call, scope, env).1;
            var again := ImportAll(l1, v3, files, bin, mbox, call, scope, env2);
            && again.1.messages == l1.messages && again.1.order == l1.order
            && forall k | 0 <= k < |files| :: !Saved(again.0[k])
  {
    ImportLinks(l, v3, files, bin, mbox, call, scope, env);
    var l1 := ImportAll(l, v3, files, bin, mbox, call, scope, env).1;
    ImportLinkedSavesNothing(l1, v3, files, bin, mbox, call, scope, env2);
  }

  /** The record built from text PAT printed in its usual header layout carries the printed
      subject (or "(no subject)"), sender, recipient and body, and is created at the clock
      reading since the layout has no date. */
  lemma RecordForDump(file: MailboxFile, k: nat, env: Environment,
                      mid: string, from: string, to: string, subject: string, body: string)
    requires Trimmed(mid) && Trimmed(from) && Trimmed(to) && Trimmed(subject)
    requires '\n' !in mid && '\n' !in from && '\n' !in to && '\n' !in subject && to != ""
    requires body == "" || body[|body| - 1] != '\n'
    ensures var m := RecordFor(file, k, DumpText(mid, from, to, subject, body), env);
            && m.subject == (if subject == "" then NoSubject else subject) && m.body == body
            && m.from == Address(from, "") && m.to == [AddressOf(to)] && m.createdAt == env.now(k)
            && m.id == env.newId(k)
  {
    DumpRoundTrip(mid, from, to, subject, body, env.layouts);
    TrimSpaceOfTrimmed(subject);
    TrimSpaceEmpty(subject);
  }

  /** A created fate holds the record built from what `pat extract` printed for its file. */
  lemma CreatedRecord(l: Ledger, v3: bool, files: seq<MailboxFile>, bin: string, mbox: string, call: string,
                      scope: string, env: Environment, k: nat)
    requires k < |files| && ImportAll(l, v3, files, bin, mbox, call, scope, env).0[k].Created?
    ensures var x := env.extract(bin, mbox, call, MidOf(files[k].name));
            x.Ok? && ImportAll(l, v3, files, bin, mbox, call, scope, env).0[k].m == RecordFor(files[k], k, x.value, env)
  {
    ImportFates(l, v3, files, bin, mbox, call, scope, env);
    var f := ImportAll(l, v3, files, bin, mbox, call, scope, env).0[k];
    assert FateFits(f, files[k], k, bin, mbox, call, v3, env);
  }

  /** A message PAT prints in its usual header layout that the import creates carries the
      printed subject (or "(no subject)"), sender, recipient and body. */
  lemma CreatedFromDump(l: Ledger, v3: bool, files: seq<MailboxFile>, bin: string, mbox: string, call: string,
                        scope: string, env: Environment, k: nat,
                        mid: string, from: string, to: string, subject: string, body: string)
    requires k < |files|
    requires env.extract(bin, mbox, call, MidOf(files[k].name)) == Ok(DumpText(mid, from, to, subject, body))
    requires Trimmed(mid) && Trimmed(from) && Trimmed(to) && Trimmed(subject)
    requires '\n' !in mid && '\n' !in from && '\n' !in to && '\n' !in subject && to != ""
    requires body == "" || body[|body| - 1] != '\n'
    requires ImportAll(l, v3, files, bin, mbox, call, scope, env).0[k].Created?
    ensures var m := ImportAll(l, v3, files, bin, mbox, call, scope, env).0[k].m;
            && m.subject == (if subject == "" then NoSubject else subject) && m.body == body
            && m.from == Address(from, "") && m.to == [AddressOf(to)] && m.createdAt == env.now(k)
            && m.id == env.newId(k)
  {
    CreatedRecord(l, v3, files, bin, mbox, call, scope, env, k);
    RecordForDump(files[k], k, env, mid, from, to, subject, body);
  }
}
