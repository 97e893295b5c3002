/** The canonical message record and its metadata envelope. */
module Core {
  import opened Wrappers

  /** Seconds on a UTC clock at RFC 3339 precision; 0 stands for Go's zero `time.Time`. */
  type Time = nat

  predicate IsZero(t: Time) {
    t == 0
  }

  /** `uuid.NewString()` always yields the 36-character textual form. */
  type Uuid = s: string | |s| == 36 witness "00000000-0000-0000-0000-000000000000"

  datatype Status = Draft | Queued | Sending | Sent | Failed | Deleted

  /** Transport modes and session modes are open string types in the source. */
  type Mode = string
  type SessionMode = string

  const ModeAny: Mode := "any"
  const ModeTelnet: Mode := "telnet"
  const ModePacket: Mode := "packet"

  const SessionWinlink: SessionMode := "winlink"
  const SessionRadioOnly: SessionMode := "radio_only"
  const SessionPostOffice: SessionMode := "post_office"
  const SessionP2P: SessionMode := "p2p"

  datatype Address = Address(callsign: string, email: string)

  /** A Go `[]string`: `nil`, or a list that may be empty. JSON writes the first as `null` and an
      empty list as `[]`, so the two are told apart once stored. */
  datatype StringSlice = NilSlice | Slice(elems: seq<string>)
  {
    /** What `range` visits: nothing for `nil`. */
    function Elems(): seq<string> {
      if NilSlice? then [] else elems
    }
  }

  /** A `nil` slice after `append` of each of `xs` in turn: still `nil` when `xs` is empty. */
  function SliceOf(xs: seq<string>): (s: StringSlice)
    ensures s.Elems() == xs
    ensures s.NilSlice? <==> xs == []
  {
    if xs == [] then NilSlice else Slice(xs)
  }

  /** `append(s, t)`. */
  function Append(s: StringSlice, t: string): (r: StringSlice)
    ensures r.Slice? && r.Elems() == s.Elems() + [t]
  {
    Slice(s.Elems() + [t])
  }

  datatype Constraints = Constraints(maxAirTimeSeconds: int, maxAttachmentSize: int, plainTextOnly: bool)

  datatype TransportPolicy = TransportPolicy(allowed: seq<Mode>, preferred: seq<Mode>)

  datatype Delivery = Delivery(patMID: string)

  datatype MessageMeta = MessageMeta(
    preferredTransports: seq<string>,
    constraints: Constraints,
    automationProfile: string,
    priority: int,
    transport: TransportPolicy,
    session: SessionMode,
    delivery: Delivery)

  datatype Message = Message(
    id: string,
    subject: string,
    body: string,
    to: seq<Address>,
    from: Address,
    tags: StringSlice,
    createdAt: Time,
    updatedAt: Time,
    meta: MessageMeta,
    status: Status,
    sentAt: Option<Time>,
    lastError: string)

  /** The metadata of a new message: no preferences, zero constraints, an empty automation
      profile, priority 0, no transport lists, the empty session mode and no PAT message id.
      It coincides with the zero value that a failed JSON decode leaves behind. */
  function DefaultMeta(): (meta: MessageMeta)
    ensures meta.preferredTransports == [] && meta.automationProfile == "" && meta.priority == 0
    ensures meta.constraints == Constraints(0, 0, false)
    ensures meta.transport.allowed == [] && meta.session == "" && meta.delivery.patMID == ""
  {
    MessageMeta([], Constraints(0, 0, false), "", 0, TransportPolicy([], []), "", Delivery(""))
  }

  /** A freshly composed message: a new identifier, the subject and body as given, created now,
      draft, never sent, no error, default metadata, no addresses and a `nil` tag slice. */
  function NewMessage(id: Uuid, subject: string, body: string, now: Time): (m: Message)
    ensures m.id != "" && m.id == id
    ensures m.subject == subject && m.body == body
    ensures m.meta == DefaultMeta()
    ensures m.status == Draft && m.sentAt == None && m.lastError == ""
    ensures m.createdAt == now && m.updatedAt == now
    ensures m.to == [] && m.tags == NilSlice
  {
    Message(id, subject, body, [], Address("", ""), NilSlice, now, now, DefaultMeta(), Draft, None, "")
  }
}
