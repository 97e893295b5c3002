/** The B2F message file the PAT client sends: a block of header lines, a blank line, and the
    body, whose length in bytes the `Body:` header announces. The clock reading and the random
    bytes behind a message id are parameters. */
module B2F {
  import opened Wrappers
  import opened Core
  import opened Text
  import Diagnostics

  const MissingTo := "b2f: missing To"
  const MissingFrom := "b2f: missing From"

  // ---------------------------------------------------------------- recipient and sender

  /** What one address contributes as the recipient: its trimmed callsign; else its trimmed
      email, cut before the '@' when that is not the first character. */
  function Recipient(a: Address): (s: string)
    ensures s == "" <==> AllSpace(a.callsign) && AllSpace(a.email)
  {
    TrimSpaceEmpty(a.callsign);
    TrimSpaceEmpty(a.email);
    var c := TrimSpace(a.callsign);
    if c != "" then c
    else
      var e := TrimSpace(a.email);
      match IndexOf(e, '@')
      case Some(i) => if i > 0 then e[..i] else e
      case None => e
  }

  /** The recipient of the first address that yields one. */
  function FirstToOf(to: seq<Address>): (s: string)
    ensures s == "" <==> forall k | 0 <= k < |to| :: Recipient(to[k]) == ""
    decreases |to|
  {
    if to == [] then ""
    else if Recipient(to[0]) != "" then Recipient(to[0])
    else
      var s := FirstToOf(to[1..]);
      assert forall k | 1 <= k < |to| :: to[1..][k - 1] == to[k];
      s
  }

  /** The chosen recipient is the first address that yields one; the ones before it are blank. */
  lemma {:induction false} FirstToIsFirst(to: seq<Address>, k: nat)
    requires k < |to| && Recipient(to[k]) != ""
    requires forall j | 0 <= j < k :: Recipient(to[j]) == ""
    ensures FirstToOf(to) == Recipient(to[k])
    decreases k
  {
    if k > 0 {
      FirstToIsFirst(to[1..], k - 1);
    }
  }

  /** `firstTo`: scan the addresses in order. */
  method FirstTo(to: seq<Address>) returns (s: string)
    ensures s == FirstToOf(to)
  {
    var i := 0;
    while i < |to|
      invariant 0 <= i <= |to|
      invariant FirstToOf(to[i..]) == FirstToOf(to)
    {
      assert to[i..][1..] == to[i + 1..];
      var a := to[i];
      var c := TrimSpace(a.callsign);
      if c != "" {
        return c;
      }
      var e := TrimSpace(a.email);
      if e != "" {
        var at := IndexOf(e, '@');
        if at.Some? && at.value > 0 {
          return e[..at.value];
        }
        return e;
      }
      i := i + 1;
    }
    return "";
  }

  /** The sender: the trimmed From callsign, else the station's own callsign. */
  function SenderOf(m: Message, mycall: string): string {
    var f := TrimSpace(m.from.callsign);
    if f == "" then mycall else f
  }

  // ---------------------------------------------------------------- body and header text

  /** `normalizeLF`: CRLF, then any remaining CR, becomes LF. */
  function NormalizeLF(s: string): (r: string)
    ensures '\r' !in r
  {
    var t := ReplaceAll(s, "\r\n", "\n");
    ReplaceCharGone(t, '\r', "\n");
    ReplaceAll(t, "\r", "\n")
  }

  /** Text without carriage returns is already normalised. */
  lemma NormalizeLFOfClean(s: string)
    requires '\r' !in s
    ensures NormalizeLF(s) == s
  {
    ReplaceAbsent(s, "\r\n", "\n");
    ReplaceAbsent(s, "\r", "\n");
  }

  lemma NormalizeLFIdempotent(s: string)
    ensures NormalizeLF(NormalizeLF(s)) == NormalizeLF(s)
  {
    NormalizeLFOfClean(NormalizeLF(s));
  }

  /** `sanitizeHeader`: line breaks become spaces and the ends are trimmed. */
  function SanitizeHeader(s: string): (r: string)
    ensures '\r' !in r && '\n' !in r && Trimmed(r)
  {
    var t := ReplaceAll(s, "\r", " ");
    ReplaceCharGone(s, '\r', " ");
    ReplaceCharGone(t, '\n', " ");
    ReplaceKeepsAbsent(t, "\n", " ", '\r');
    var u := ReplaceAll(t, "\n", " ");
    TrimSpaceShape(u);
    TrimSpace(u)
  }

  /** The body as sent: normalised, and ending in a line feed. */
  function BodyOf(text: string): (b: string)
    ensures '\r' !in b && HasSuffix(b, "\n")
  {
    var b := NormalizeLF(text);
    if HasSuffix(b, "\n") then b else b + "\n"
  }

  /** The header lines in the order they are written. */
  function HeaderLines(mycall: string, mid: string, date: string, from: string, to: string,
                       subject: string, bodyLen: nat): seq<string>
  {
    [ "Mid: " + mid,
      "Body: " + DecimalString(bodyLen),
      "Content-Transfer-Encoding: 8bit",
      "Content-Type: text/plain; charset=ISO-8859-1",
      "Date: " + date,
      "From: " + ToUpper(from),
      "Mbo: " + ToUpper(mycall),
      "Subject: " + SanitizeHeader(subject),
      "To: " + ToUpper(to),
      "Type: Private" ]
  }

  /** Lines, each followed by a line feed. */
  function Terminated(lines: seq<string>): string
    decreases |lines|
  {
    if lines == [] then "" else lines[0] + "\n" + Terminated(lines[1..])
  }

  lemma {:induction false} TerminatedSnoc(lines: seq<string>, x: string)
    ensures Terminated(lines + [x]) == Terminated(lines) + (x + "\n")
    decreases |lines|
  {
    if lines != [] {
      assert (lines + [x])[1..] == lines[1..] + [x];
      TerminatedSnoc(lines[1..], x);
    }
  }

  /** The header text as `BuildB2F` accumulates it. */
  function HeaderText(mycall: string, mid: string, date: string, from: string, to: string,
                      subject: string, bodyLen: nat): string
  {
    var l := HeaderLines(mycall, mid, date, from, to, subject, bodyLen);
    "" + (l[0] + "\n") + (l[1] + "\n") + (l[2] + "\n") + (l[3] + "\n") + (l[4] + "\n")
       + (l[5] + "\n") + (l[6] + "\n") + (l[7] + "\n") + (l[8] + "\n") + (l[9] + "\n") + "\n"
  }

  lemma TerminatedStep(l: seq<string>, k: nat)
    requires k < |l|
    ensures Terminated(l[..k + 1]) == Terminated(l[..k]) + (l[k] + "\n")
  {
    assert l[..k + 1] == l[..k] + [l[k]];
    TerminatedSnoc(l[..k], l[k]);
  }

  /** The accumulated header is the header lines, each terminated, and one blank line. */
  lemma HeaderTextLines(mycall: string, mid: string, date: string, from: string, to: string,
                        subject: string, bodyLen: nat)
    ensures HeaderText(mycall, mid, date, from, to, subject, bodyLen)
         == Terminated(HeaderLines(mycall, mid, date, from, to, subject, bodyLen)) + "\n"
  {
    var l := HeaderLines(mycall, mid, date, from, to, subject, bodyLen);
    assert l[..0] == [] && l[..10] == l;
    TerminatedStep(l, 0);
    TerminatedStep(l, 1);
    TerminatedStep(l, 2);
    TerminatedStep(l, 3);
    TerminatedStep(l, 4);
    TerminatedStep(l, 5);
    TerminatedStep(l, 6);
    TerminatedStep(l, 7);
    TerminatedStep(l, 8);
    TerminatedStep(l, 9);
  }

  /** The whole file, for a message that has a recipient. */
  function B2FText(mycall: string, mid: string, date: string, m: Message): string {
    var body := BodyOf(m.body);
    HeaderText(mycall, mid, date, SenderOf(m, mycall), FirstToOf(m.to), m.subject, Utf8Len(body)) + body
  }

  /** `BuildB2F`, with the formatted UTC date passed in. A message with no usable recipient is
      refused, then one with neither a From callsign nor a station callsign; otherwise the
      header is accumulated line by line and the body appended. */
  method BuildB2F(mycall: string, mid: string, date: string, m: Message) returns (r: Result<string>)
    ensures FirstToOf(m.to) == "" ==> r == Err(MissingTo)
    ensures FirstToOf(m.to) != "" && AllSpace(SenderOf(m, mycall)) ==> r == Err(MissingFrom)
    ensures r.Ok? <==> FirstToOf(m.to) != "" && !AllSpace(SenderOf(m, mycall))
    ensures r.Ok? ==> r.value == B2FText(mycall, mid, date, m)
  {
    var to := FirstTo(m.to);
    if to == "" {
      return Err(MissingTo);
    }
    var from := TrimSpace(m.from.callsign);
    if from == "" {
      from := mycall;
    }
    TrimSpaceEmpty(from);
    if TrimSpace(from) == "" {
      return Err(MissingFrom);
    }
    var body := NormalizeLF(m.body);
    if !HasSuffix(body, "\n") {
      body := body + "\n";
    }
    var size := Utf8Len(body);
    var h := "";
    h := h + ("Mid: " + mid + "\n");
    h := h + ("Body: " + DecimalString(size) + "\n");
    h := h + ("Content-Transfer-Encoding: 8bit" + "\n");
    h := h + ("Content-Type: text/plain; charset=ISO-8859-1" + "\n");
    h := h + ("Date: " + date + "\n");
    h := h + ("From: " + ToUpper(from) + "\n");
    h := h + ("Mbo: " + ToUpper(mycall) + "\n");
    h := h + ("Subject: " + SanitizeHeader(m.subject) + "\n");
    h := h + ("To: " + ToUpper(to) + "\n");
    h := h + ("Type: Private" + "\n");
    h := h + "\n";
    return Ok(h + body);
  }

  // ---------------------------------------------------------------- reading the file back

  /** A reader's view of the file: the lines before the first empty line, and what follows it. */
  function ReadLines(t: string): Option<(seq<string>, string)>
    decreases |t|
  {
    match IndexOf(t, '\n')
    case None => None
    case Some(i) =>
      if i == 0 then Some(([], t[1..]))
      else
        match ReadLines(t[i + 1..])
        case None => None
        case Some(p) => Some(([t[..i]] + p.0, p.1))
  }

  /** Non-empty lines without line feeds, terminated and followed by a blank line, read back as
      themselves, and everything after the blank line is the rest. */
  lemma {:induction false} ReadTerminated(lines: seq<string>, rest: string)
    requires forall k | 0 <= k < |lines| :: lines[k] != "" && '\n' !in lines[k]
    ensures ReadLines(Terminated(lines) + "\n" + rest) == Some((lines, rest))
    decreases |lines|
  {
    var t := Terminated(lines) + "\n" + rest;
    if lines == [] {
      assert t == "\n" + rest;
      assert IndexOf(t, '\n') == Some(0);
      assert t[1..] == rest;
    } else {
      var p, tail := lines[0], Terminated(lines[1..]) + "\n" + rest;
      assert t == p + "\n" + tail;
      IndexAfterFree(p, '\n', tail);
      assert t[..|p|] == p && t[|p| + 1..] == tail;
      ReadTerminated(lines[1..], rest);
      assert [p] + lines[1..] == lines;
    }
  }

  predicate NoLF(s: string) {
    '\n' !in s
  }

  lemma TrimSpaceNoLF(s: string)
    requires NoLF(s)
    ensures NoLF(TrimSpace(s))
  {
    TrimSpaceShape(s);
  }

  lemma ToUpperNoLF(s: string)
    requires NoLF(s)
    ensures NoLF(ToUpper(s))
  {
    var u := ToUpper(s);
    forall i | 0 <= i < |u| ensures u[i] != '\n' {
      assert s[i] != '\n';
    }
  }

  lemma RecipientNoLF(a: Address)
    requires NoLF(a.callsign) && NoLF(a.email)
    ensures NoLF(Recipient(a))
  {
    TrimSpaceNoLF(a.callsign);
    TrimSpaceNoLF(a.email);
  }

  lemma {:induction false} FirstToNoLF(to: seq<Address>)
    requires forall k | 0 <= k < |to| :: NoLF(to[k].callsign) && NoLF(to[k].email)
    ensures NoLF(FirstToOf(to))
    decreases |to|
  {
    if to != [] {
      RecipientNoLF(to[0]);
      FirstToNoLF(to[1..]);
    }
  }

  lemma NoLFConcat(a: string, b: string)
    requires NoLF(a) && NoLF(b)
    ensures NoLF(a + b)
  {
    assert forall i | 0 <= i < |a + b| :: (a + b)[i] == if i < |a| then a[i] else b[i - |a|];
  }

  predicate CleanLine(x: string) {
    x != "" && NoLF(x)
  }

  lemma PrefixedClean(tag: string, v: string)
    requires tag != "" && NoLF(tag) && NoLF(v)
    ensures CleanLine(tag + v)
  {
    NoLFConcat(tag, v);
  }

  lemma DecimalNoLF(n: nat)
    ensures NoLF(DecimalString(n))
  {
    var d := DecimalString(n);
    forall i | 0 <= i < |d| ensures d[i] != '\n' {
      assert IsDigit(d[i]);
    }
  }

  lemma ShortLabelsNoLF()
    ensures NoLF("Mid: ") && NoLF("Body: ") && NoLF("Date: ") && NoLF("From: ") && NoLF("Mbo: ")
    ensures NoLF("Subject: ") && NoLF("To: ") && NoLF("Type: Private")
  {
  }

  lemma ContentLabelsNoLF()
    ensures NoLF("Content-Transfer-Encoding: 8bit")
    ensures NoLF("Content-Type: text/plain; charset=ISO-8859-1")
  {
  }

  /** Every header line is non-empty and, given fields without line feeds, has none. */
  lemma HeaderLinesClean(mycall: string, mid: string, date: string, from: string, to: string,
                         subject: string, bodyLen: nat)
    requires NoLF(mid) && NoLF(date) && NoLF(ToUpper(from)) && NoLF(ToUpper(mycall)) && NoLF(ToUpper(to))
    ensures var l := HeaderLines(mycall, mid, date, from, to, subject, bodyLen);
            forall k | 0 <= k < |l| :: l[k] != "" && '\n' !in l[k]
  {
    var l := HeaderLines(mycall, mid, date, from, to, subject, bodyLen);
    DecimalNoLF(bodyLen);
    ShortLabelsNoLF();
    ContentLabelsNoLF();
    PrefixedClean("Mid: ", mid);
    PrefixedClean("Body: ", DecimalString(bodyLen));
    PrefixedClean("Content-Transfer-Encoding: 8bit", "");
    PrefixedClean("Content-Type: text/plain; charset=ISO-8859-1", "");
    PrefixedClean("Date: ", date);
    PrefixedClean("From: ", ToUpper(from));
    PrefixedClean("Mbo: ", ToUpper(mycall));
    PrefixedClean("Subject: ", SanitizeHeader(subject));
    PrefixedClean("To: ", ToUpper(to));
    PrefixedClean("Type: Private", "");
    assert forall k | 0 <= k < |l| :: CleanLine(l[k]);
  }

  /** Reading a built file back: when the station callsign, the id, the date and the addresses
      carry no line feeds, a reader that stops at the first blank line sees exactly the header
      lines written, and the rest is the normalised body, whose length in bytes is the number
      the `Body:` line announces. */
  lemma B2FReadBack(mycall: string, mid: string, date: string, m: Message)
    requires FirstToOf(m.to) != ""
    requires NoLF(mycall) && NoLF(mid) && NoLF(date) && NoLF(m.from.callsign)
    requires forall k | 0 <= k < |m.to| :: NoLF(m.to[k].callsign) && NoLF(m.to[k].email)
    ensures var body := BodyOf(m.body);
            var lines := HeaderLines(mycall, mid, date, SenderOf(m, mycall), FirstToOf(m.to), m.subject, Utf8Len(body));
            && ReadLines(B2FText(mycall, mid, date, m)) == Some((lines, body))
            && lines[1] == "Body: " + DecimalString(Utf8Len(body))
            && DecimalValue(DecimalString(Utf8Len(body))) == Utf8Len(body)
  {
    var body := BodyOf(m.body);
    var from, to := SenderOf(m, mycall), FirstToOf(m.to);
    var lines := HeaderLines(mycall, mid, date, from, to, m.subject, Utf8Len(body));
    TrimSpaceNoLF(m.from.callsign);
    FirstToNoLF(m.to);
    ToUpperNoLF(from);
    ToUpperNoLF(mycall);
    ToUpperNoLF(to);
    HeaderLinesClean(mycall, mid, date, from, to, m.subject, Utf8Len(body));
    HeaderTextLines(mycall, mid, date, from, to, m.subject, Utf8Len(body));
    ReadTerminated(lines, body);
    DecimalRoundTrip(Utf8Len(body));
  }

  // ---------------------------------------------------------------- message ids

  type Byte = b: int | 0 <= b < 256

  /** The id alphabet "ABCDEFGHIJKLMNOPQRSTUVWXYZ0123456789", by position. */
  function MidChar(k: nat): (c: char)
    requires k < 36
    ensures 'A' <= c <= 'Z' || '0' <= c <= '9'
  {
    if k < 26 then ('A' as int + k) as char else ('0' as int + k - 26) as char
  }

  /** `NewMID`: the random bytes, read into a buffer, each replaced in place by the alphabet
      letter at its value modulo 36. */
  method NewMID(entropy: seq<Byte>) returns (mid: string)
    ensures |mid| == |entropy|
    ensures forall i | 0 <= i < |mid| :: mid[i] == MidChar(entropy[i] % 36)
  {
    var b := new Byte[|entropy|](i requires 0 <= i < |entropy| => entropy[i]);
    var i := 0;
    while i < b.Length
      invariant 0 <= i <= b.Length
      invariant forall j | 0 <= j < i :: b[j] == MidChar(entropy[j] % 36) as int
      invariant forall j | i <= j < b.Length :: b[j] == entropy[j]
    {
      b[i] := MidChar(b[i] % 36) as int;
      i := i + 1;
    }
    mid := seq(b.Length, j requires 0 <= j < b.Length reads b => b[j] as char);
  }

  /** An id is made of upper-case letters and digits only, so it has no surrounding space and
      no line feed. */
  lemma MidCharsAreCallsignChars(entropy: seq<Byte>, mid: string)
    requires |mid| == |entropy| && forall i | 0 <= i < |mid| :: mid[i] == MidChar(entropy[i] % 36)
    ensures forall i | 0 <= i < |mid| :: 'A' <= mid[i] <= 'Z' || '0' <= mid[i] <= '9'
    ensures NoLF(mid) && Trimmed(mid)
  {
    if mid != [] {
      assert !IsSpace(mid[0]) && !IsSpace(mid[|mid| - 1]);
    }
  }

  /** An id drawn from 3 to 16 random bytes passes the callsign check, so it can travel
      wherever a callsign can. */
  lemma MidPassesCallsignCheck(entropy: seq<Byte>, mid: string)
    requires |mid| == |entropy| && forall i | 0 <= i < |mid| :: mid[i] == MidChar(entropy[i] % 36)
    requires 3 <= |mid| <= 16
    ensures Diagnostics.ValidateCallsign(mid) == Pass
  {
    MidCharsAreCallsignChars(entropy, mid);
    TrimSpaceOfTrimmed(mid);
    assert forall i | 0 <= i < |mid| :: Diagnostics.CallsignChar(ToUpperChar(mid[i]));
  }
}
