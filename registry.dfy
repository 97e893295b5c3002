/** Winlink Express's message registry, `Data/Registry.txt`: one message per line, its fields
    separated by the control character 0x01. */
module Registry {
  import opened Wrappers
  import opened Text
  import opened Core

  const FieldSep: char := '\U{1}'

  /** Rows with fewer fields are not message rows. */
  const MinFields := 9

  /** A registry row, best effort: the id, the creation time (zero when absent or unreadable),
      sender, recipient, message number, subject, folder, the state token found among the
      fields, the frequency and position read from the last fields, and every field as read. */
  datatype RegistryRecord = RegistryRecord(
    id: string,
    createdAt: Time,
    from: string,
    to: string,
    msgNum: string,
    subject: string,
    folder: string,
    state: string,
    freq: string,
    gps: string,
    rawFields: seq<string>)

  /** The state tokens the registry writes. */
  const StateTokens: set<string> := {"Sent", "Outbox", "Inbox", "Drafts", "Posted", "Received"}

  predicate IsStateToken(v: string) {
    v in StateTokens
  }

  /** No field after the one at `i` holds a state token. */
  predicate NoTokenAfter(fields: seq<string>, i: nat) {
    forall j | i < j < |fields| :: !IsStateToken(TrimSpace(fields[j]))
  }

  /** The last field whose trimmed text is a state token, or "" when none is. */
  function StateOf(fields: seq<string>): (s: string)
    ensures s == "" || IsStateToken(s)
  {
    if fields == [] then ""
    else
      var v := TrimSpace(fields[|fields| - 1]);
      if IsStateToken(v) then v else StateOf(fields[..|fields| - 1])
  }

  /** The state found is empty exactly when no field holds a token. */
  lemma {:induction false} StateOfEmpty(fields: seq<string>)
    ensures StateOf(fields) == "" <==> forall i | 0 <= i < |fields| :: !IsStateToken(TrimSpace(fields[i]))
  {
    if fields != [] {
      var n := |fields| - 1;
      var init := fields[..n];
      StateOfEmpty(init);
      if StateOf(fields) == "" {
        assert !IsStateToken(TrimSpace(fields[n])) && StateOf(init) == "";
        forall i | 0 <= i < |fields|
          ensures !IsStateToken(TrimSpace(fields[i]))
        {
          if i < n {
            assert init[i] == fields[i];
          }
        }
      } else if !IsStateToken(TrimSpace(fields[n])) {
        assert StateOf(init) != "";
        var i :| 0 <= i < n && IsStateToken(TrimSpace(init[i]));
        assert init[i] == fields[i];
      }
    }
  }

  /** A state found is the trimmed text of a field after which no field holds a token. */
  lemma {:induction false} StateOfLast(fields: seq<string>)
    requires StateOf(fields) != ""
    ensures exists i | 0 <= i < |fields| :: TrimSpace(fields[i]) == StateOf(fields) && NoTokenAfter(fields, i)
  {
    var n := |fields| - 1;
    var init := fields[..n];
    if IsStateToken(TrimSpace(fields[n])) {
      assert TrimSpace(fields[n]) == StateOf(fields) && NoTokenAfter(fields, n);
    } else {
      StateOfLast(init);
      var i :| 0 <= i < |init| && TrimSpace(init[i]) == StateOf(init) && NoTokenAfter(init, i);
      NoTokenAfterSnoc(fields, i);
      assert init[i] == fields[i];
    }
  }

  /** A field that holds no token keeps "no token after `i`" when appended. */
  lemma NoTokenAfterSnoc(fields: seq<string>, i: nat)
    requires i < |fields| - 1 && NoTokenAfter(fields[..|fields| - 1], i)
    requires !IsStateToken(TrimSpace(fields[|fields| - 1]))
    ensures NoTokenAfter(fields, i)
  {
    var init := fields[..|fields| - 1];
    forall j | i < j < |fields|
      ensures !IsStateToken(TrimSpace(fields[j]))
    {
      if j < |fields| - 1 {
        assert init[j] == fields[j];
      }
    }
  }

  /** The state scan of `ReadRegistry`: every field is looked at, and a token overwrites the
      one found before it. */
  method ScanState(fields: seq<string>) returns (state: string)
    ensures state == StateOf(fields)
  {
    state := "";
    for i := 0 to |fields|
      invariant state == StateOf(fields[..i])
    {
      var v := TrimSpace(fields[i]);
      if IsStateToken(v) {
        state := v;
      }
      assert fields[..i + 1][..i] == fields[..i];
    }
    assert fields[..|fields|] == fields;
  }

  /** The trimmed last field looks like a position when it mentions "GPS", "N," or "W". */
  predicate LooksLikePosition(v: string) {
    Contains(v, "GPS") || Contains(v, "N,") || Contains(v, "W")
  }

  /** The creation time in field 1, read with the `2006/01/02 15:04` layout when it is there. */
  function CreatedOf(ts: string, parseTime: string -> Option<Time>): Time {
    if ts != "" && parseTime(ts).Some? then parseTime(ts).value else 0
  }

  /** The record a message row's fields describe, each field trimmed. */
  function RowRecord(fields: seq<string>, parseTime: string -> Option<Time>): (rec: RegistryRecord)
    requires |fields| >= MinFields
    ensures rec.rawFields == fields && rec.state == StateOf(fields)
  {
    var last := TrimSpace(fields[|fields| - 1]);
    RegistryRecord(TrimSpace(fields[0]), CreatedOf(TrimSpace(fields[1]), parseTime),
                   TrimSpace(fields[2]), TrimSpace(fields[3]), TrimSpace(fields[6]), TrimSpace(fields[7]),
                   TrimSpace(fields[8]), StateOf(fields), TrimSpace(fields[|fields| - 2]),
                   if LooksLikePosition(last) then last else "", fields)
  }

  /** The record assembled from a row's trimmed fields and the values read from it is the
      record the row describes. */
  lemma RowRecordOfParts(fields: seq<string>, parseTime: string -> Option<Time>, created: Time,
                         state: string, freq: string, gps: string)
    requires |fields| >= MinFields
    requires created == CreatedOf(TrimSpace(fields[1]), parseTime) && state == StateOf(fields)
    requires freq == TrimSpace(fields[|fields| - 2])
    requires gps == (if LooksLikePosition(TrimSpace(fields[|fields| - 1])) then TrimSpace(fields[|fields| - 1]) else "")
    ensures RegistryRecord(TrimSpace(fields[0]), created, TrimSpace(fields[2]), TrimSpace(fields[3]),
                           TrimSpace(fields[6]), TrimSpace(fields[7]), TrimSpace(fields[8]), state, freq, gps,
                           fields) == RowRecord(fields, parseTime)
  {
  }

  /** One line of the registry as `ReadRegistry` reads it: blank lines, rows with fewer than
      nine fields and rows without an id give nothing. */
  function RecordOf(line: string, parseTime: string -> Option<Time>): (r: Option<RegistryRecord>)
    ensures r.Some? ==> r.value.id != "" && |r.value.rawFields| >= MinFields
    ensures r.Some? ==> r.value.rawFields == Split(line, FieldSep)
  {
    var fields := Split(line, FieldSep);
    if TrimSpace(line) == "" || |fields| < MinFields || TrimSpace(fields[0]) == "" then None
    else Some(RowRecord(fields, parseTime))
  }

  /** The body of the scanner loop: the record is filled in field by field and kept only when it
      has an id. */
  method ParseLine(line: string, parseTime: string -> Option<Time>) returns (r: Option<RegistryRecord>)
    ensures r == RecordOf(line, parseTime)
  {
    if TrimSpace(line) == "" {
      return None;
    }
    var fields := Split(line, FieldSep);
    if |fields| < MinFields {
      return None;
    }
    var created := 0;
    var ts := TrimSpace(fields[1]);
    if ts != "" {
      var t := parseTime(ts);
      if t.Some? {
        created := t.value;
      }
    }
    var state := ScanState(fields);
    var last := TrimSpace(fields[|fields| - 1]);
    var gps := "";
    if LooksLikePosition(last) {
      gps := last;
    }
    var freq := "";
    var maybeFreq := TrimSpace(fields[|fields| - 2]);
    if maybeFreq != "" {
      freq := maybeFreq;
    }
    var rec := RegistryRecord(TrimSpace(fields[0]), created, TrimSpace(fields[2]), TrimSpace(fields[3]),
                              TrimSpace(fields[6]), TrimSpace(fields[7]), TrimSpace(fields[8]), state, freq, gps,
                              fields);
    RowRecordOfParts(fields, parseTime, created, state, freq, gps);
    r := if rec.id != "" then Some(rec) else None;
  }

  /** The record a line contributes: one or none. */
  function Kept(line: string, parseTime: string -> Option<Time>): (out: seq<RegistryRecord>)
    ensures |out| <= 1
  {
    match RecordOf(line, parseTime)
    case Some(r) => [r]
    case None => []
  }

  /** The records of these lines, in line order. */
  function Records(lines: seq<string>, parseTime: string -> Option<Time>): (out: seq<RegistryRecord>)
    ensures |out| <= |lines|
  {
    if lines == [] then []
    else Records(lines[..|lines| - 1], parseTime) + Kept(lines[|lines| - 1], parseTime)
  }

  /** One more line read adds the record that line holds, if any. */
  lemma RecordsStep(lines: seq<string>, i: nat, parseTime: string -> Option<Time>)
    requires i < |lines|
    ensures Records(lines[..i + 1], parseTime) == Records(lines[..i], parseTime) + Kept(lines[i], parseTime)
  {
    assert lines[..i + 1][..i] == lines[..i];
  }

  /** `ReadRegistry` after the file is opened: the scanner's lines, each parsed, the records kept
      in file order. */
  method ReadRegistry(lines: seq<string>, parseTime: string -> Option<Time>) returns (out: seq<RegistryRecord>)
    ensures out == Records(lines, parseTime)
  {
    out := [];
    for i := 0 to |lines|
      invariant out == Records(lines[..i], parseTime)
    {
      var r := ParseLine(lines[i], parseTime);
      if r.Some? {
        out := out + [r.value];
      }
      RecordsStep(lines, i, parseTime);
    }
    assert lines[..|lines|] == lines;
  }

  /** A line read after others adds its own record, if any, after theirs. */
  lemma RecordsSnoc(lines: seq<string>, line: string, parseTime: string -> Option<Time>)
    ensures Records(lines + [line], parseTime) == Records(lines, parseTime) + Kept(line, parseTime)
  {
    assert (lines + [line])[..|lines|] == lines;
  }

  /** Reading two runs of lines gives the records of the first run, then those of the second. */
  lemma {:induction false} RecordsAppend(a: seq<string>, b: seq<string>, parseTime: string -> Option<Time>)
    ensures Records(a + b, parseTime) == Records(a, parseTime) + Records(b, parseTime)
  {
    if b == [] {
      assert a + b == a;
    } else {
      var init, last := b[..|b| - 1], b[|b| - 1];
      assert b == init + [last];
      assert a + b == (a + init) + [last];
      RecordsAppend(a, init, parseTime);
      RecordsSnoc(a + init, last, parseTime);
      RecordsSnoc(init, last, parseTime);
    }
  }

  /** Every record read comes from one of the lines. */
  lemma RecordsFromLines(lines: seq<string>, parseTime: string -> Option<Time>)
    ensures forall r | r in Records(lines, parseTime) :: exists i | 0 <= i < |lines| :: RecordOf(lines[i], parseTime) == Some(r)
  {
    forall r | r in Records(lines, parseTime)
      ensures exists i | 0 <= i < |lines| :: RecordOf(lines[i], parseTime) == Some(r)
    {
      RecordFromLine(lines, r, parseTime);
    }
  }

  lemma {:induction false} RecordFromLine(lines: seq<string>, r: RegistryRecord, parseTime: string -> Option<Time>)
    requires r in Records(lines, parseTime)
    ensures exists i | 0 <= i < |lines| :: RecordOf(lines[i], parseTime) == Some(r)
  {
    assert lines != [];
    var n := |lines| - 1;
    var init := lines[..n];
    if r in Records(init, parseTime) {
      RecordFromLine(init, r, parseTime);
      var i :| 0 <= i < |init| && RecordOf(init[i], parseTime) == Some(r);
      assert init[i] == lines[i];
    } else {
      KeptFrom(lines[n], r, parseTime);
    }
  }

  lemma KeptFrom(line: string, r: RegistryRecord, parseTime: string -> Option<Time>)
    requires r in Kept(line, parseTime)
    ensures RecordOf(line, parseTime) == Some(r)
  {
  }

  /** Lines none of which holds a record give no records. */
  lemma {:induction false} RecordsNone(lines: seq<string>, parseTime: string -> Option<Time>)
    requires forall i | 0 <= i < |lines| :: RecordOf(lines[i], parseTime).None?
    ensures Records(lines, parseTime) == []
  {
    if lines != [] {
      var n := |lines| - 1;
      var init := lines[..n];
      forall i | 0 <= i < n
        ensures RecordOf(init[i], parseTime).None?
      {
        assert init[i] == lines[i];
      }
      RecordsNone(init, parseTime);
      assert RecordOf(lines[n], parseTime).None?;
    }
  }

  /** The row text written for these fields. */
  function RowText(fields: seq<string>): string {
    Join(fields, [FieldSep])
  }

  /** Text with a character that is not white space is not blank. */
  lemma NotBlankPrefix(p: string, rest: string)
    requires !AllSpace(p)
    ensures !AllSpace(p + rest)
  {
    var i :| 0 <= i < |p| && !IsSpace(p[i]);
    assert (p + rest)[i] == p[i];
  }

  /** A row written from nine or more fields without the separator, the first holding an id,
      reads back as a record with those fields, each trimmed in its place. */
  lemma RowRoundTrip(fields: seq<string>, parseTime: string -> Option<Time>)
    requires |fields| >= MinFields && forall k | 0 <= k < |fields| :: FieldSep !in fields[k]
    requires TrimSpace(fields[0]) != ""
    ensures var r := RecordOf(RowText(fields), parseTime);
            && r.Some? && r.value.rawFields == fields && r.value.id == TrimSpace(fields[0])
            && r.value.from == TrimSpace(fields[2]) && r.value.to == TrimSpace(fields[3])
            && r.value.msgNum == TrimSpace(fields[6]) && r.value.subject == TrimSpace(fields[7])
            && r.value.folder == TrimSpace(fields[8]) && r.value.state == StateOf(fields)
            && r.value.freq == TrimSpace(fields[|fields| - 2])
  {
    var line := RowText(fields);
    SplitJoin(fields, FieldSep);
    TrimSpaceEmpty(fields[0]);
    assert line == fields[0] + [FieldSep] + Join(fields[1..], [FieldSep]);
    NotBlankPrefix(fields[0], [FieldSep] + Join(fields[1..], [FieldSep]));
    assert fields[0] + [FieldSep] + Join(fields[1..], [FieldSep]) == fields[0] + ([FieldSep] + Join(fields[1..], [FieldSep]));
    TrimSpaceEmpty(line);
  }
}
