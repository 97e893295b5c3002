/** The dispatch engine: every queued candidate, oldest first, gets one attempt. The session policy
    is checked, the message is marked sending, the injected sender is called, and the message is
    marked sent or failed. The command line's send loop is the same loop with one difference,
    so both are modelled by one method with a `Driver` parameter. */
module Dispatch {
  import opened Wrappers
  import opened Core
  import opened StoreSchema
  import opened Store

  datatype SendResult = SendResult(sent: nat, failed: nat)

  /** The engine marks a message failed when marking it sending fails; the command line only
      counts it. */
  datatype Driver = Engine | Cli

  const PolicyError := "session p2p incompatible with telnet allow-list"

  /** `containsMode`: a linear scan for `x`. */
  method ContainsMode(list: seq<Mode>, x: Mode) returns (found: bool)
    ensures found <==> x in list
  {
    var i := 0;
    while i < |list|
      invariant 0 <= i <= |list|
      invariant x !in list[..i]
    {
      if list[i] == x {
        return true;
      }
      i := i + 1;
    }
    return false;
  }

  /** A p2p session must not allow telnet. */
  predicate PolicyRejects(m: Message) {
    m.meta.session == SessionP2P && ModeTelnet in m.meta.transport.allowed
  }

  /** What happens to one candidate. */
  datatype Verdict = Rejected | MarkFailed(error: string) | SendFailed(error: string) | Delivered

  /** The verdict for a candidate, given which status writes the storage engine refuses and
      what the sender answers. The sender is consulted only after the policy check passed and
      the message was marked sending. */
  function VerdictOf(m: Message, fault: StatusWrite -> Option<string>, send: Message -> Outcome): (v: Verdict)
    ensures v.Rejected? <==> PolicyRejects(m)
    ensures v.Delivered? <==> !PolicyRejects(m) && fault(StatusWrite(m.id, Sending, "")).None? && send(m).Pass?
    ensures v.MarkFailed? <==> !PolicyRejects(m) && fault(StatusWrite(m.id, Sending, "")).Some?
    ensures v.MarkFailed? ==> v.error == "SetStatusByID: " + fault(StatusWrite(m.id, Sending, "")).value
    ensures v.SendFailed? <==> !PolicyRejects(m) && fault(StatusWrite(m.id, Sending, "")).None? && send(m).Fail?
    ensures v.SendFailed? ==> v.error == send(m).error
  {
    if PolicyRejects(m) then Rejected
    else match fault(StatusWrite(m.id, Sending, ""))
      case Some(e) => MarkFailed("SetStatusByID: " + e)
      case None =>
        match send(m)
        case Fail(e) => SendFailed(e)
        case Pass => Delivered
  }

  /** The status writes the loop requests for one candidate, in order. */
  function PlanOf(m: Message, v: Verdict, driver: Driver): seq<StatusWrite> {
    match v
    case Rejected => [StatusWrite(m.id, Failed, PolicyError)]
    case MarkFailed(e) =>
      [StatusWrite(m.id, Sending, "")] + (if driver == Engine then [StatusWrite(m.id, Failed, e)] else [])
    case SendFailed(e) => [StatusWrite(m.id, Sending, ""), StatusWrite(m.id, Failed, e)]
    case Delivered => [StatusWrite(m.id, Sending, ""), StatusWrite(m.id, Sent, "")]
  }

  /** When marking a message sending fails, the command line leaves its row as it was, while the
      engine asks for it to be marked failed with the storage error. */
  lemma MarkFailureEffect(msgs: map<string, Row>, m: Message, e: string, fault: StatusWrite -> Option<string>, now: Time)
    requires fault(StatusWrite(m.id, Sending, "")).Some?
    ensures ApplyWrites(msgs, PlanOf(m, MarkFailed(e), Cli), fault, now) == msgs
    ensures var out := ApplyWrites(msgs, PlanOf(m, MarkFailed(e), Engine), fault, now);
            && out == AfterStatus(msgs, StatusWrite(m.id, Failed, e), fault(StatusWrite(m.id, Failed, e)), now)
            && (fault(StatusWrite(m.id, Failed, e)).None? && m.id in msgs && msgs[m.id].status != Deleted ==>
                  out[m.id].status == Failed && out[m.id].lastError == e)
  {
    ApplyOne(msgs, StatusWrite(m.id, Sending, ""), fault, now);
    ApplyTwo(msgs, StatusWrite(m.id, Sending, ""), StatusWrite(m.id, Failed, e), fault, now);
  }

  function Plans(cands: seq<Message>, fault: StatusWrite -> Option<string>, send: Message -> Outcome, driver: Driver): seq<StatusWrite>
    decreases |cands|
  {
    if cands == [] then []
    else
      var last := cands[|cands| - 1];
      Plans(cands[..|cands| - 1], fault, send, driver) + PlanOf(last, VerdictOf(last, fault, send), driver)
  }

  function CountDelivered(cands: seq<Message>, fault: StatusWrite -> Option<string>, send: Message -> Outcome): nat
    decreases |cands|
  {
    if cands == [] then 0
    else
      var last := cands[|cands| - 1];
      CountDelivered(cands[..|cands| - 1], fault, send) + if VerdictOf(last, fault, send).Delivered? then 1 else 0
  }

  /** The messages table after one SetStatusByID request, as that method states it. */
  function ApplyWrite(msgs: map<string, Row>, w: StatusWrite, fault: StatusWrite -> Option<string>, now: Time): (out: map<string, Row>)
    ensures out.Keys == msgs.Keys
  {
    AfterStatus(msgs, w, fault(w), now)
  }

  function ApplyWrites(msgs: map<string, Row>, ws: seq<StatusWrite>, fault: StatusWrite -> Option<string>, now: Time): (out: map<string, Row>)
    ensures out.Keys == msgs.Keys
    decreases |ws|
  {
    if ws == [] then msgs
    else ApplyWrite(ApplyWrites(msgs, ws[..|ws| - 1], fault, now), ws[|ws| - 1], fault, now)
  }

  /** The loop over the candidates: one attempt each, in order, with the status writes the
      verdict calls for and the counters they imply. */
  method DispatchAll(st: MessageStore, cands: seq<Message>, fault: StatusWrite -> Option<string>,
                     send: Message -> Outcome, driver: Driver, now: Time) returns (res: SendResult)
    requires st.Opened()
    modifies st
    ensures st.Opened()
    ensures res.sent + res.failed == |cands|
    ensures res.sent == CountDelivered(cands, fault, send)
    ensures st.statusLog == old(st.statusLog) + Plans(cands, fault, send, driver)
    ensures st.messages == ApplyWrites(old(st.messages), Plans(cands, fault, send, driver), fault, now)
    ensures st.order == old(st.order) && st.migrations == old(st.migrations) && st.refs == old(st.refs)
    ensures st.states == old(st.states) && st.scopes == old(st.scopes)
  {
    res := SendResult(0, 0);
    ghost var m0, log0 := st.messages, st.statusLog;
    var i := 0;
    while i < |cands|
      invariant 0 <= i <= |cands|
      invariant st.Opened()
      invariant res.sent + res.failed == i
      invariant res.sent == CountDelivered(cands[..i], fault, send)
      invariant st.statusLog == log0 + Plans(cands[..i], fault, send, driver)
      invariant st.messages == ApplyWrites(m0, Plans(cands[..i], fault, send, driver), fault, now)
      invariant st.order == old(st.order) && st.migrations == old(st.migrations) && st.refs == old(st.refs)
      invariant st.states == old(st.states) && st.scopes == old(st.scopes)
    {
      var delivered := DispatchNext(st, cands, i, fault, send, driver, now, m0, log0);
      if delivered {
        res := res.(sent := res.sent + 1);
      } else {
        res := res.(failed := res.failed + 1);
      }
      i := i + 1;
    }
    assert cands[..|cands|] == cands;
  }

  /** The loop body of `DispatchAll`: the i-th candidate extends the writes so far by its own plan. */
  method DispatchNext(st: MessageStore, cands: seq<Message>, i: nat, fault: StatusWrite -> Option<string>,
                      send: Message -> Outcome, driver: Driver, now: Time,
                      ghost m0: map<string, Row>, ghost log0: seq<StatusWrite>) returns (delivered: bool)
    requires i < |cands| && st.Opened()
    requires st.statusLog == log0 + Plans(cands[..i], fault, send, driver)
    requires st.messages == ApplyWrites(m0, Plans(cands[..i], fault, send, driver), fault, now)
    modifies st
    ensures st.Opened()
    ensures CountDelivered(cands[..i + 1], fault, send) == CountDelivered(cands[..i], fault, send) + if delivered then 1 else 0
    ensures st.statusLog == log0 + Plans(cands[..i + 1], fault, send, driver)
    ensures st.messages == ApplyWrites(m0, Plans(cands[..i + 1], fault, send, driver), fault, now)
    ensures st.order == old(st.order) && st.migrations == old(st.migrations) && st.refs == old(st.refs)
    ensures st.states == old(st.states) && st.scopes == old(st.scopes)
  {
    ghost var before := Plans(cands[..i], fault, send, driver);
    ghost var plan := PlanOf(cands[i], VerdictOf(cands[i], fault, send), driver);
    StepFacts(cands, fault, send, driver, i);
    ApplyWritesAppend(m0, before, plan, fault, now);
    AppendAssoc(log0, before, plan);
    delivered := DispatchOne(st, cands[i], fault, send, driver, now);
  }

  /** What one more candidate adds to the plans and to the count. */
  lemma StepFacts(cands: seq<Message>, fault: StatusWrite -> Option<string>, send: Message -> Outcome, driver: Driver, i: nat)
    requires i < |cands|
    ensures Plans(cands[..i + 1], fault, send, driver)
         == Plans(cands[..i], fault, send, driver) + PlanOf(cands[i], VerdictOf(cands[i], fault, send), driver)
    ensures CountDelivered(cands[..i + 1], fault, send)
         == CountDelivered(cands[..i], fault, send) + if VerdictOf(cands[i], fault, send).Delivered? then 1 else 0
  {
    assert cands[..i + 1][..i] == cands[..i];
  }

  lemma AppendAssoc(a: seq<StatusWrite>, b: seq<StatusWrite>, c: seq<StatusWrite>)
    ensures a + b + c == a + (b + c)
  {
  }

  lemma ApplyOne(msgs: map<string, Row>, a: StatusWrite, fault: StatusWrite -> Option<string>, now: Time)
    ensures ApplyWrites(msgs, [a], fault, now) == ApplyWrite(msgs, a, fault, now)
  {
    assert [a][..0] == [];
  }

  lemma ApplyTwo(msgs: map<string, Row>, a: StatusWrite, b: StatusWrite, fault: StatusWrite -> Option<string>, now: Time)
    ensures ApplyWrites(msgs, [a, b], fault, now) == ApplyWrite(ApplyWrite(msgs, a, fault, now), b, fault, now)
  {
    assert [a, b][..1] == [a];
    ApplyOne(msgs, a, fault, now);
  }

  /** One candidate: the policy check, marking it sending, the sender, and the final write. */
  method DispatchOne(st: MessageStore, m: Message, fault: StatusWrite -> Option<string>,
                     send: Message -> Outcome, driver: Driver, now: Time) returns (delivered: bool)
    requires st.Opened()
    modifies st
    ensures st.Opened()
    ensures delivered <==> VerdictOf(m, fault, send).Delivered?
    ensures st.statusLog == old(st.statusLog) + PlanOf(m, VerdictOf(m, fault, send), driver)
    ensures st.messages == ApplyWrites(old(st.messages), PlanOf(m, VerdictOf(m, fault, send), driver), fault, now)
    ensures st.order == old(st.order) && st.migrations == old(st.migrations) && st.refs == old(st.refs)
    ensures st.states == old(st.states) && st.scopes == old(st.scopes)
  {
    ghost var m0 := st.messages;
    var policy := ContainsMode(m.meta.transport.allowed, ModeTelnet);
    if m.meta.session == SessionP2P && policy {
      var w := StatusWrite(m.id, Failed, PolicyError);
      var _ := st.SetStatusByID(m.id, Failed, PolicyError, now, fault(w));
      assert VerdictOf(m, fault, send) == Rejected;
      ApplyOne(m0, w, fault, now);
      return false;
    }
    var ws := StatusWrite(m.id, Sending, "");
    var marked := st.MarkSending(m.id, now, fault(ws));
    ghost var m1 := st.messages;
    assert m1 == ApplyWrite(m0, ws, fault, now);
    if marked.Fail? {
      assert VerdictOf(m, fault, send) == MarkFailed(marked.error);
      if driver == Engine {
        var wf := StatusWrite(m.id, Failed, marked.error);
        var _ := st.SetStatusByID(m.id, Failed, marked.error, now, fault(wf));
        ApplyTwo(m0, ws, wf, fault, now);
      } else {
        ApplyOne(m0, ws, fault, now);
      }
      return false;
    }
    var sent := send(m);
    if sent.Fail? {
      var wf := StatusWrite(m.id, Failed, sent.error);
      var _ := st.SetStatusByID(m.id, Failed, sent.error, now, fault(wf));
      assert VerdictOf(m, fault, send) == SendFailed(sent.error);
      ApplyTwo(m0, ws, wf, fault, now);
      return false;
    }
    var wd := StatusWrite(m.id, Sent, "");
    var _ := st.SetStatusByID(m.id, Sent, "", now, fault(wd));
    assert VerdictOf(m, fault, send) == Delivered;
    ApplyTwo(m0, ws, wd, fault, now);
    return true;
  }

  /** `SendQueued`: a missing store or sender is an error before anything changes; a listing
      failure is passed on; otherwise the queued candidates are dispatched and the listing's
      success makes the whole call succeed, whatever the status writes did. */
  method SendQueued(st: MessageStore?, tag: string, limit: int, sender: Option<Message -> Outcome>,
                    listErr: Option<string>, fault: StatusWrite -> Option<string>, now: Time) returns (r: Result<SendResult>)
    requires st != null ==> st.Opened()
    modifies st
    ensures st == null ==> r == Err("store is nil")
    ensures st != null && sender.None? ==> r == Err("sender is nil")
    ensures st != null && sender.Some? && listErr.Some? ==> r == Err("ListQueued: " + listErr.value)
    ensures r.Err? && st != null ==> st.messages == old(st.messages) && st.statusLog == old(st.statusLog)
    ensures r.Ok? <==> st != null && sender.Some? && listErr.None?
    ensures r.Ok? ==>
              var cands := Candidates(old(RowsOf(st.order, st.messages)), tag, limit);
              && r.value.sent + r.value.failed == |cands|
              && r.value.sent == CountDelivered(cands, fault, sender.value)
              && st.statusLog == old(st.statusLog) + Plans(cands, fault, sender.value, Engine)
              && st.messages == ApplyWrites(old(st.messages), Plans(cands, fault, sender.value, Engine), fault, now)
    ensures st != null ==> st.Opened() && st.order == old(st.order) && st.refs == old(st.refs)
  {
    if st == null {
      return Err("store is nil");
    }
    if sender.None? {
      return Err("sender is nil");
    }
    var listed := st.ListQueued(tag, limit, listErr);
    if listed.Err? {
      return Err(listed.error);
    }
    assert listed.value == Candidates(RowsOf(st.order, st.messages), tag, limit);
    var res := DispatchAll(st, listed.value, fault, sender.value, Engine, now);
    r := Ok(res);
  }

  /** The candidates: what ListQueued returns for this table, tag and limit. */
  function Candidates(rows: seq<Row>, tag: string, limit: int): (cands: seq<Message>)
    ensures |cands| == |Query(rows, QueuedWithTag(tag), UpdatedAsc, limit)|
    ensures forall i | 0 <= i < |cands| :: cands[i] == MessageOf(Query(rows, QueuedWithTag(tag), UpdatedAsc, limit)[i])
  {
    var q := Query(rows, QueuedWithTag(tag), UpdatedAsc, limit);
    seq(|q|, i requires 0 <= i < |q| => MessageOf(q[i]))
  }

  // ---------------------------------------------------------------- what dispatch does to one message

  lemma {:induction false} PlansAppend(a: seq<Message>, b: seq<Message>, fault: StatusWrite -> Option<string>, send: Message -> Outcome, driver: Driver)
    ensures Plans(a + b, fault, send, driver) == Plans(a, fault, send, driver) + Plans(b, fault, send, driver)
    decreases |b|
  {
    if b != [] {
      var init := b[..|b| - 1];
      assert (a + b)[..|a + b| - 1] == a + init;
      PlansAppend(a, init, fault, send, driver);
    } else {
      assert a + b == a;
    }
  }

  lemma {:induction false} ApplyWritesAppend(msgs: map<string, Row>, u: seq<StatusWrite>, v: seq<StatusWrite>, fault: StatusWrite -> Option<string>, now: Time)
    ensures ApplyWrites(msgs, u + v, fault, now) == ApplyWrites(ApplyWrites(msgs, u, fault, now), v, fault, now)
    decreases |v|
  {
    if v != [] {
      assert (u + v)[..|u + v| - 1] == u + v[..|v| - 1];
      ApplyWritesAppend(msgs, u, v[..|v| - 1], fault, now);
    } else {
      assert u + v == u;
    }
  }

  /** Writes for other ids leave a message's row alone. */
  lemma {:induction false} ApplyWritesElsewhere(msgs: map<string, Row>, ws: seq<StatusWrite>, fault: StatusWrite -> Option<string>, now: Time, id: string)
    requires forall w | w in ws :: w.id != id
    ensures var out := ApplyWrites(msgs, ws, fault, now);
            (id in out <==> id in msgs) && (id in msgs ==> out[id] == msgs[id])
    decreases |ws|
  {
    if ws != [] {
      ApplyWritesElsewhere(msgs, ws[..|ws| - 1], fault, now, id);
    }
  }

  /** The plans of candidates other than `id` never write `id`. */
  lemma {:induction false} PlansAvoid(cands: seq<Message>, fault: StatusWrite -> Option<string>, send: Message -> Outcome, driver: Driver, id: string)
    requires forall c | c in cands :: c.id != id
    ensures forall w | w in Plans(cands, fault, send, driver) :: w.id != id
    decreases |cands|
  {
    if cands != [] {
      var init := cands[..|cands| - 1];
      assert forall c | c in init :: c in cands;
      assert cands[|cands| - 1] in cands;
      PlansAvoid(init, fault, send, driver, id);
    }
  }

  lemma PlansSplit(cands: seq<Message>, fault: StatusWrite -> Option<string>, send: Message -> Outcome, driver: Driver, k: nat)
    requires k < |cands|
    ensures Plans(cands, fault, send, driver)
         == Plans(cands[..k], fault, send, driver) + PlanOf(cands[k], VerdictOf(cands[k], fault, send), driver)
            + Plans(cands[k + 1..], fault, send, driver)
  {
    var pre, mid, post := cands[..k], [cands[k]], cands[k + 1..];
    assert cands == pre + mid + post;
    PlansAppend(pre + mid, post, fault, send, driver);
    PlansAppend(pre, mid, fault, send, driver);
    assert mid[..0] == [];
  }

  lemma OthersAvoid(cands: seq<Message>, fault: StatusWrite -> Option<string>, send: Message -> Outcome, driver: Driver, k: nat)
    requires k < |cands|
    requires forall i, j | 0 <= i < j < |cands| :: cands[i].id != cands[j].id
    ensures forall w | w in Plans(cands[..k], fault, send, driver) :: w.id != cands[k].id
    ensures forall w | w in Plans(cands[k + 1..], fault, send, driver) :: w.id != cands[k].id
  {
    var id, pre, post := cands[k].id, cands[..k], cands[k + 1..];
    forall c | c in pre ensures c.id != id {
      var j :| 0 <= j < |pre| && pre[j] == c;
      assert cands[j] == c;
    }
    forall c | c in post ensures c.id != id {
      var j :| 0 <= j < |post| && post[j] == c;
      assert cands[k + 1 + j] == c;
    }
    PlansAvoid(pre, fault, send, driver, id);
    PlansAvoid(post, fault, send, driver, id);
  }

  /** One attempt each: with distinct candidate ids, a candidate's final row is what its own
      writes make of it, whatever happened to the other candidates. */
  lemma {:induction false} OneAttemptEach(msgs: map<string, Row>, cands: seq<Message>, fault: StatusWrite -> Option<string>,
                                          send: Message -> Outcome, driver: Driver, now: Time, k: nat)
    requires k < |cands| && cands[k].id in msgs
    requires forall i, j | 0 <= i < j < |cands| :: cands[i].id != cands[j].id
    ensures ApplyWrites(msgs, Plans(cands, fault, send, driver), fault, now)[cands[k].id]
         == ApplyWrites(msgs, PlanOf(cands[k], VerdictOf(cands[k], fault, send), driver), fault, now)[cands[k].id]
  {
    var id := cands[k].id;
    var pp, pm, pq := Plans(cands[..k], fault, send, driver), PlanOf(cands[k], VerdictOf(cands[k], fault, send), driver),
                      Plans(cands[k + 1..], fault, send, driver);
    PlansSplit(cands, fault, send, driver, k);
    OthersAvoid(cands, fault, send, driver, k);
    OwnPlanIds(cands[k], VerdictOf(cands[k], fault, send), driver);
    var afterPre := ApplyWrites(msgs, pp, fault, now);
    var afterOwn := ApplyWrites(afterPre, pm, fault, now);
    ApplyWritesAppend(msgs, pp + pm, pq, fault, now);
    ApplyWritesAppend(msgs, pp, pm, fault, now);
    assert ApplyWrites(msgs, Plans(cands, fault, send, driver), fault, now) == ApplyWrites(afterOwn, pq, fault, now);
    ApplyWritesElsewhere(msgs, pp, fault, now, id);
    ApplyWritesElsewhere(afterOwn, pq, fault, now, id);
    OwnPlanLocal(msgs, afterPre, pm, fault, now, id);
  }

  /** A candidate's plan only ever addresses that candidate. */
  lemma OwnPlanIds(m: Message, v: Verdict, driver: Driver)
    ensures forall w | w in PlanOf(m, v, driver) :: w.id == m.id
  {
  }

  /** Applying a message's own writes depends only on its own row. */
  lemma {:induction false} OwnPlanLocal(a: map<string, Row>, b: map<string, Row>, ws: seq<StatusWrite>, fault: StatusWrite -> Option<string>, now: Time, id: string)
    requires forall w | w in ws :: w.id == id
    requires (id in a <==> id in b) && (id in a ==> a[id] == b[id])
    ensures var x, y := ApplyWrites(a, ws, fault, now), ApplyWrites(b, ws, fault, now);
            (id in x <==> id in y) && (id in x ==> x[id] == y[id])
    decreases |ws|
  {
    if ws != [] {
      OwnPlanLocal(a, b, ws[..|ws| - 1], fault, now, id);
    }
  }

  /** A queued message the storage engine accepts every write for ends up: sent with no error
      and a send time when delivered; failed with the policy text when rejected; failed with
      the sender's error text verbatim when the sender refused it. */
  lemma FinalStatus(msgs: map<string, Row>, m: Message, fault: StatusWrite -> Option<string>, send: Message -> Outcome, driver: Driver, now: Time)
    requires m.id in msgs && msgs[m.id].status == Queued
    requires forall w :: fault(w).None?
    ensures var row := ApplyWrites(msgs, PlanOf(m, VerdictOf(m, fault, send), driver), fault, now)[m.id];
            match VerdictOf(m, fault, send)
            case Delivered => row.status == Sent && row.lastError == "" && row.sentAt == Some(now)
            case Rejected => row.status == Failed && row.lastError == PolicyError
            case SendFailed(e) => row.status == Failed && row.lastError == e
            case MarkFailed(_) => false
  {
    var plan := PlanOf(m, VerdictOf(m, fault, send), driver);
    var first := ApplyWrite(msgs, plan[0], fault, now);
    assert ApplyWrites(msgs, plan[..1], fault, now) == first by {
      assert plan[..1][..0] == [];
    }
    if |plan| == 2 {
      assert plan[..2][..1] == plan[..1] && plan[..2] == plan;
      assert first[m.id].status == Sending;
    } else {
      assert plan[..1] == plan;
    }
  }

  /** The policy verdict does not depend on the sender: a rejected candidate never reaches it. */
  lemma PolicyBeforeSender(m: Message, fault: StatusWrite -> Option<string>, s1: Message -> Outcome, s2: Message -> Outcome, driver: Driver)
    requires PolicyRejects(m)
    ensures PlanOf(m, VerdictOf(m, fault, s1), driver) == PlanOf(m, VerdictOf(m, fault, s2), driver) == [StatusWrite(m.id, Failed, PolicyError)]
  {
  }

  /** Every dispatched (not rejected) candidate is marked sending before anything else, and a
      sent or failed write is always the last for its message. */
  lemma SendingFirst(m: Message, v: Verdict, driver: Driver)
    requires !v.Rejected?
    ensures var plan := PlanOf(m, v, driver);
            |plan| >= 1 && plan[0] == StatusWrite(m.id, Sending, "")
            && forall i | 1 <= i < |plan| :: i == |plan| - 1 && plan[i].status in {Sent, Failed}
  {
  }
}
