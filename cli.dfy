/** The `relayops` command line: mode lists written as comma-separated text, the checks `compose`
    applies before it saves a message, the simulated transport, and the `send` loop. */
module Cli {
  import opened Wrappers
  import opened Core
  import opened Text
  import Sim
  import opened StoreSchema
  import opened Store
  import opened Dispatch

  // ---------------------------------------------------------------- comma-separated lists

  /** Each piece lower-cased, as `strings.ToLower` does it. */
  function Lowered(parts: seq<string>): (out: seq<string>)
    ensures |out| == |parts|
    decreases |parts|
  {
    if parts == [] then [] else Lowered(parts[..|parts| - 1]) + [ToLower(parts[|parts| - 1])]
  }

  /** The pieces that survive trimming: each one trimmed, the blank ones dropped, order kept. */
  function NonBlank(parts: seq<string>): (out: seq<string>)
    ensures |out| <= |parts|
    ensures forall k | 0 <= k < |out| :: out[k] != "" && Trimmed(out[k])
    decreases |parts|
  {
    if parts == [] then []
    else
      var t := TrimSpace(parts[|parts| - 1]);
      NonBlank(parts[..|parts| - 1]) + if t == "" then [] else [t]
  }

  /** What `parseModes` makes of a list: the lower-cased, trimmed, non-blank pieces between
      commas, or just "any" when there are none. */
  function ModesOf(csv: string): (modes: seq<Mode>)
    ensures |modes| >= 1
  {
    var kept := NonBlank(Lowered(Split(csv, ',')));
    if kept == [] then [ModeAny] else kept
  }

  /** `parseModes`. */
  method ParseModes(csv: string) returns (modes: seq<Mode>)
    ensures modes == ModesOf(csv)
  {
    var parts := Split(csv, ',');
    var out: seq<Mode> := [];
    var i := 0;
    while i < |parts|
      invariant 0 <= i <= |parts|
      invariant out == NonBlank(Lowered(parts[..i]))
    {
      assert parts[..i + 1][..i] == parts[..i];
      assert Lowered(parts[..i + 1])[..i] == Lowered(parts[..i]);
      var s := TrimSpace(ToLower(parts[i]));
      if s != "" {
        out := out + [s];
      }
      i := i + 1;
    }
    assert parts[..|parts|] == parts;
    if |out| == 0 {
      return [ModeAny];
    }
    return out;
  }

  /** `modesToString`: the modes joined with commas, "" for none. */
  method ModesToString(m: seq<Mode>) returns (s: string)
    ensures s == Join(m, ",")
    ensures s == "" <==> m == [] || (|m| == 1 && m[0] == "")
  {
    if |m| == 0 {
      return "";
    }
    var parts: seq<string> := [];
    var i := 0;
    while i < |m|
      invariant 0 <= i <= |m|
      invariant parts == m[..i]
    {
      parts := parts + [m[i]];
      i := i + 1;
    }
    assert parts == m;
    JoinEmpty(m, ",");
    return Join(parts, ",");
  }

  /** A join is empty only when there is nothing to join but empty text. */
  lemma {:induction false} JoinEmpty(parts: seq<string>, sep: string)
    requires sep != ""
    ensures Join(parts, sep) == "" <==> parts == [] || (|parts| == 1 && parts[0] == "")
  {
    if |parts| >= 2 {
      assert |Join(parts, sep)| >= |sep|;
    }
  }

  /** A mode as `parseModes` produces it: no comma, already lower case. */
  predicate ModeChars(s: string) {
    forall i | 0 <= i < |s| :: s[i] != ',' && ToLowerChar(s[i]) == s[i]
  }

  predicate CleanMode(x: Mode) {
    x != "" && Trimmed(x) && ModeChars(x)
  }

  lemma ToLowerFixed(s: string)
    requires ModeChars(s)
    ensures ToLower(s) == s
  {
  }

  lemma {:induction false} LoweredFixed(parts: seq<string>)
    requires forall k | 0 <= k < |parts| :: ModeChars(parts[k])
    ensures Lowered(parts) == parts
    decreases |parts|
  {
    if parts != [] {
      var init := parts[..|parts| - 1];
      LoweredFixed(init);
      ToLowerFixed(parts[|parts| - 1]);
      assert parts == init + [parts[|parts| - 1]];
    }
  }

  lemma {:induction false} NonBlankFixed(parts: seq<string>)
    requires forall k | 0 <= k < |parts| :: parts[k] != "" && Trimmed(parts[k])
    ensures NonBlank(parts) == parts
    decreases |parts|
  {
    if parts != [] {
      var init := parts[..|parts| - 1];
      NonBlankFixed(init);
      TrimSpaceOfTrimmed(parts[|parts| - 1]);
      assert parts == init + [parts[|parts| - 1]];
    }
  }

  /** Lower-casing a comma-free piece gives a piece that lower-casing leaves alone. */
  lemma ToLowerGivesModeChars(s: string)
    requires ',' !in s
    ensures ModeChars(ToLower(s))
  {
    var l := ToLower(s);
    forall i | 0 <= i < |l| ensures l[i] != ',' && ToLowerChar(l[i]) == l[i] {
      assert s[i] != ',';
    }
  }

  /** Trimming keeps the characters it does not drop. */
  lemma TrimSpaceKeepsModeChars(s: string)
    requires ModeChars(s)
    ensures ModeChars(TrimSpace(s))
  {
    TrimSpaceShape(s);
  }

  lemma {:induction false} NonBlankKeepsModeChars(parts: seq<string>)
    requires forall k | 0 <= k < |parts| :: ModeChars(parts[k])
    ensures forall k | 0 <= k < |NonBlank(parts)| :: ModeChars(NonBlank(parts)[k])
    decreases |parts|
  {
    if parts != [] {
      NonBlankKeepsModeChars(parts[..|parts| - 1]);
      TrimSpaceKeepsModeChars(parts[|parts| - 1]);
    }
  }

  lemma {:induction false} LoweredModeChars(parts: seq<string>)
    requires forall k | 0 <= k < |parts| :: ',' !in parts[k]
    ensures forall k | 0 <= k < |Lowered(parts)| :: ModeChars(Lowered(parts)[k])
    decreases |parts|
  {
    if parts != [] {
      LoweredModeChars(parts[..|parts| - 1]);
      ToLowerGivesModeChars(parts[|parts| - 1]);
    }
  }

  /** Every mode `parseModes` returns is non-empty, trimmed, lower-case and free of commas. */
  lemma ModesOfClean(csv: string)
    ensures forall k | 0 <= k < |ModesOf(csv)| :: CleanMode(ModesOf(csv)[k])
  {
    var parts := Split(csv, ',');
    var kept := NonBlank(Lowered(parts));
    if kept == [] {
      assert ModesOf(csv) == [ModeAny];
      AnyIsClean();
    } else {
      LoweredModeChars(parts);
      NonBlankKeepsModeChars(Lowered(parts));
      assert ModesOf(csv) == kept;
    }
  }

  lemma AnyIsClean()
    ensures CleanMode(ModeAny)
  {
    var s := ModeAny;
    assert |s| == 3 && s[0] == 'a' && s[1] == 'n' && s[2] == 'y';
    assert !IsSpace('a') && !IsSpace('y');
    assert forall i | 0 <= i < 3 :: s[i] != ',' && ToLowerChar(s[i]) == s[i];
  }

  /** Writing a list of clean modes with `modesToString` and reading it back with `parseModes`
      gives the same list. */
  lemma ModesRoundTrip(m: seq<Mode>)
    requires |m| >= 1 && forall k | 0 <= k < |m| :: CleanMode(m[k])
    ensures ModesOf(Join(m, ",")) == m
  {
    SplitJoin(m, ',');
    LoweredFixed(m);
    NonBlankFixed(m);
  }

  /** Parsing is a normal form: what `parseModes` produced, printed and parsed again, is what
      it produced. */
  lemma ModesCanonical(csv: string)
    ensures ModesOf(Join(ModesOf(csv), ",")) == ModesOf(csv)
  {
    ModesOfClean(csv);
    ModesRoundTrip(ModesOf(csv));
  }

  /** `sessionToString`: the empty session is shown as winlink. */
  function SessionToString(s: SessionMode): (r: string)
    ensures r != ""
    ensures s != "" ==> r == s
    ensures s == "" ==> r == SessionWinlink
  {
    if s == "" then SessionWinlink else s
  }

  // ---------------------------------------------------------------- compose

  const ComposeUsage := "compose requires -s (subject) and -b (body)"
  const InvalidSession := "Invalid -session. Valid: winlink, radio_only, post_office, p2p"

  /** The session flag as compose reads it: trimmed, then lower-cased. */
  function NormalSession(s: string): string {
    ToLower(TrimSpace(s))
  }

  predicate KnownSession(s: SessionMode) {
    s == SessionWinlink || s == SessionRadioOnly || s == SessionPostOffice || s == SessionP2P
  }

  /** The tags compose attaches: the trimmed, non-blank pieces of the comma-separated flag. */
  /** One more piece of the flag adds its trimmed text to the kept pieces, unless it is blank. */
  lemma NonBlankStep(parts: seq<string>, i: nat)
    requires i < |parts|
    ensures NonBlank(parts[..i + 1]) ==
              NonBlank(parts[..i]) + if TrimSpace(parts[i]) == "" then [] else [TrimSpace(parts[i])]
  {
    assert parts[..i + 1][..i] == parts[..i];
  }

  function TagsOf(csv: string): seq<string> {
    if AllSpace(csv) then [] else NonBlank(Split(csv, ','))
  }

  /** The tag loop of `runCompose`, appending to the new message's `nil` tag slice: the slice
      stays `nil` unless some piece is non-blank. */
  method ParseTags(csv: string) returns (tags: StringSlice)
    ensures tags == SliceOf(TagsOf(csv))
  {
    TrimSpaceEmpty(csv);
    tags := NilSlice;
    if TrimSpace(csv) == "" {
      return;
    }
    var parts := Split(csv, ',');
    var i := 0;
    while i < |parts|
      invariant 0 <= i <= |parts|
      invariant tags == SliceOf(NonBlank(parts[..i]))
    {
      var t := TrimSpace(parts[i]);
      NonBlankStep(parts, i);
      if t != "" {
        tags := Append(tags, t);
      }
      i := i + 1;
    }
    assert parts[..|parts|] == parts;
  }

  /** The checks and the message `runCompose` builds before saving it. A blank subject or body
      is refused first, then a session outside the four known ones; otherwise the message is a
      new draft whose allow and prefer lists are parsed only when given, whose session is the
      normalised flag and whose tags are the flag's pieces. */
  method Compose(id: Uuid, subject: string, body: string, tagCSV: string, allowed: string,
                 preferred: string, session: string, now: Time) returns (r: Result<Message>)
    ensures AllSpace(subject) || AllSpace(body) ==> r == Err(ComposeUsage)
    ensures !AllSpace(subject) && !AllSpace(body) && !KnownSession(NormalSession(session)) ==>
              r == Err(InvalidSession)
    ensures r.Ok? <==> !AllSpace(subject) && !AllSpace(body) && KnownSession(NormalSession(session))
    ensures r.Ok? ==>
              var m := r.value;
              && m.id == id && m.subject == subject && m.body == body
              && m.status == Draft && m.createdAt == now && m.sentAt == None && m.lastError == ""
              && m.meta.transport.allowed == (if AllSpace(allowed) then [] else ModesOf(allowed))
              && m.meta.transport.preferred == (if AllSpace(preferred) then [] else ModesOf(preferred))
              && m.meta.session == NormalSession(session)
              && m.tags == SliceOf(TagsOf(tagCSV))
              && m.meta.delivery == DefaultMeta().delivery && m.meta.priority == 0
  {
    TrimSpaceEmpty(subject);
    TrimSpaceEmpty(body);
    TrimSpaceEmpty(allowed);
    TrimSpaceEmpty(preferred);
    if TrimSpace(subject) == "" || TrimSpace(body) == "" {
      return Err(ComposeUsage);
    }
    var msg := NewMessage(id, subject, body, now);
    if TrimSpace(allowed) != "" {
      var modes := ParseModes(allowed);
      msg := msg.(meta := msg.meta.(transport := msg.meta.transport.(allowed := modes)));
    }
    if TrimSpace(preferred) != "" {
      var modes := ParseModes(preferred);
      msg := msg.(meta := msg.meta.(transport := msg.meta.transport.(preferred := modes)));
    }
    var sess := NormalSession(session);
    if !KnownSession(sess) {
      return Err(InvalidSession);
    }
    msg := msg.(meta := msg.meta.(session := sess));
    var tags := ParseTags(tagCSV);
    msg := msg.(tags := tags);
    return Ok(msg);
  }

  // ---------------------------------------------------------------- send

  /** `SimTransport.SendOne`: accept an empty allow-list or one holding "any"; refuse a
      radio_only session whose allow-list is exactly telnet; accept everything else. */
  function SimTransportSend(m: Message): (r: Outcome)
    ensures r.Fail? <==> m.meta.session == SessionRadioOnly && m.meta.transport.allowed == [ModeTelnet]
    ensures r.Fail? ==> r.error == Sim.TelnetOnlyError
  {
    var allowed := m.meta.transport.allowed;
    if |allowed| == 0 || ModeAny in allowed then Pass
    else if m.meta.session == SessionRadioOnly && ModeTelnet in allowed && |allowed| == 1 then
      Fail(Sim.TelnetOnlyError)
    else Pass
  }

  /** The transport the command line uses and the simulated sender agree on every message. */
  lemma SimTransportAgrees(m: Message)
    ensures SimTransportSend(m).Fail? <==> Sim.SendOne(m).Err?
    ensures SimTransportSend(m).Fail? ==> SimTransportSend(m).error == Sim.SendOne(m).error
  {
  }

  /** `runSend`: list the queued candidates and run the loop with the simulated transport.
      Unlike the engine, a failure to mark a message sending is only counted. */
  method RunSend(st: MessageStore, tag: string, limit: int, listErr: Option<string>,
                 fault: StatusWrite -> Option<string>, now: Time) returns (r: Result<SendResult>)
    requires st.Opened()
    modifies st
    ensures st.Opened()
    ensures r.Err? <==> listErr.Some?
    ensures listErr.Some? ==> r == Err("send: list queued failed: ListQueued: " + listErr.value)
                              && st.messages == old(st.messages) && st.statusLog == old(st.statusLog)
    ensures r.Ok? ==>
              var cands := Candidates(old(RowsOf(st.order, st.messages)), tag, limit);
              && r.value.sent + r.value.failed == |cands|
              && r.value.sent == CountDelivered(cands, fault, SimTransportSend)
              && st.statusLog == old(st.statusLog) + Plans(cands, fault, SimTransportSend, Cli)
              && st.messages == ApplyWrites(old(st.messages), Plans(cands, fault, SimTransportSend, Cli), fault, now)
    ensures st.order == old(st.order) && st.refs == old(st.refs)
  {
    var listed := st.ListQueued(tag, limit, listErr);
    if listed.Err? {
      return Err("send: list queued failed: " + listed.error);
    }
    assert listed.value == Candidates(RowsOf(st.order, st.messages), tag, limit);
    if |listed.value| == 0 {
      return Ok(SendResult(0, 0));
    }
    var res := DispatchAll(st, listed.value, fault, SimTransportSend, Cli, now);
    return Ok(res);
  }
}
