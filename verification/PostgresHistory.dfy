/**
 * Every run of concurrent Postgres calls, read as one sequential history: the operations in the order
 * in which they took effect. Played on the store specification, the history gives the rows and keys
 * that the database shows, and every successful call its answer.
 */
module PostgresHistory {
  import opened Types
  import opened PostgresRaces
  import opened PostgresAtomicity
  import opened Guarantees
  import StoreSpec

  /** An operation that took effect, with the call that made it where one did. */
  datatype Event =
    | Creates(call: Call, req: Creation)
    | Works(call: Call, op: RowOp)
    | Inserts(resource: Resource)
    | Writes(proposal: Proposal)

  function PlayOne(t: Tables, e: Event): Tables {
    match e
    case Creates(_, req) => CreateOnce(t, req).0
    case Works(_, op) => RowOnce(t, op).0
    case Inserts(r) => if At(r) in t.rows then t else t.(rows := t.rows[At(r) := r])
    case Writes(p) => if At(AProposal(p)) in t.rows then t.(rows := t.rows[At(AProposal(p)) := AProposal(p)]) else t
  }

  const NOTHING := Tables(map[], map[])

  function Play(events: seq<Event>): Tables {
    if events == [] then NOTHING else PlayOne(Play(events[..|events| - 1]), events[|events| - 1])
  }

  /** What the call that ends in state `n` did, if it took effect; `changed` tells a lost commit from an abort. */
  function Effect(c: Call, n: Session, changed: bool): seq<Event> {
    match n
    case Done(req, out) => if out.Returned? || (out == Failure && changed) then [Creates(c, req)] else []
    case RowDone(op, out) => if out != Broke || changed then [Works(c, op)] else []
    case _ => []
  }

  /** What takes effect in one step. */
  function Happened(s: State, step: Step): seq<Event> {
    match step
    case Begin(_, _) => []
    case InsertPlain(r) => if At(r) in s.db.rows || PlaceBusy(s, At(r)) then [] else [Inserts(r)]
    case Overwrite(p) => if At(AProposal(p)) !in s.db.rows || LockBusy(s, p.id) then [] else [Writes(p)]
    case _ =>
      var t := Do(s, step);
      if Finished(t, step.c) && !Finished(s, step.c) then Effect(step.c, t.sessions[step.c], t.db != s.db) else []
  }

  function History(steps: seq<Step>): seq<Event>
    decreases |steps|
  {
    if steps == [] then []
    else History(steps[..|steps| - 1]) + Happened(Exec(steps[..|steps| - 1]), steps[|steps| - 1])
  }

  // ----- the history gives what the database shows

  lemma EffectShows(s: State, t: State, c: Call, n: Session)
    requires Atomically(s, t, n) && (n.Done? || n.RowDone?)
    requires n.Done? ==> n.outcome != ZeroValue && n.outcome != NotFound
    ensures var es := Effect(c, n, t.db != s.db);
      Visible(t.db) == if es == [] then Visible(s.db) else PlayOne(Visible(s.db), es[0])
  {
    hide Visible, CreateOnce, RowOnce, KeyOf;
  }

  /** A statement that does not finish its call shows nothing. */
  lemma UnfinishedShowsNothing(s: State, step: Step)
    requires Inv(s) && (step.Next? || step.Lock? || step.Break?)
    requires !(Finished(Do(s, step), step.c) && !Finished(s, step.c))
    ensures Visible(Do(s, step).db) == Visible(s.db)
  {
    hide KeyOf, Visible;
    var c := step.c;
    match step
    case Next(_, commit) =>
      if c in s.sessions && !Finished(s, c) { NextIsAtomic(s, c, commit); }
    case Lock(_, op) =>
    case Break(_) =>
  }

  lemma PlainShows(s: State, r: Resource)
    ensures Visible(DoInsertPlain(s, r).db) ==
      if At(r) in s.db.rows || PlaceBusy(s, At(r)) then Visible(s.db) else PlayOne(Visible(s.db), Inserts(r))
  {
    hide PlaceBusy;
    var t := DoInsertPlain(s, r);
    if At(r) !in s.db.rows && !PlaceBusy(s, At(r)) {
      assert Visible(t.db).rows == PlayOne(Visible(s.db), Inserts(r)).rows;
    }
  }

  lemma OverwriteShows(s: State, p: Proposal)
    ensures Visible(DoOverwrite(s, p).db) ==
      if At(AProposal(p)) !in s.db.rows || LockBusy(s, p.id) then Visible(s.db) else PlayOne(Visible(s.db), Writes(p))
  {
    hide LockBusy;
    var t := DoOverwrite(s, p);
    if At(AProposal(p)) in s.db.rows && !LockBusy(s, p.id) {
      assert Visible(t.db).rows == PlayOne(Visible(s.db), Writes(p)).rows;
    }
  }

  /** What a call's statement does. */
  lemma CallShows(s: State, step: Step)
    requires Inv(s) && Inv(Do(s, step)) && (step.Next? || step.Lock? || step.Break?)
    ensures var es := Happened(s, step);
      |es| <= 1 && Visible(Do(s, step).db) == if es == [] then Visible(s.db) else PlayOne(Visible(s.db), es[0])
  {
    hide Do, Visible, PlayOne, Atomically, KeyOf;
    var t := Do(s, step);
    if Finished(t, step.c) && !Finished(s, step.c) {
      FinishIsAtomic(s, step, step.c);
      assert SessionOK(t, step.c);
      hide Inv;
      EffectShows(s, t, step.c, t.sessions[step.c]);
    } else {
      UnfinishedShowsNothing(s, step);
    }
  }

  lemma StepShows(s: State, step: Step)
    requires Inv(s) && Inv(Do(s, step))
    ensures var es := Happened(s, step);
      |es| <= 1 && Visible(Do(s, step).db) == if es == [] then Visible(s.db) else PlayOne(Visible(s.db), es[0])
  {
    hide Inv, Visible, PlayOne, KeyOf;
    match step
    case Begin(_, _) =>
    case InsertPlain(r) => PlainShows(s, r);
    case Overwrite(p) => OverwriteShows(s, p);
    case _ => CallShows(s, step);
  }

  lemma PlayMore(events: seq<Event>, more: seq<Event>)
    requires |more| <= 1
    ensures Play(events + more) == if more == [] then Play(events) else PlayOne(Play(events), more[0])
  {
    if more == [] {
      assert events + more == events;
    } else {
      assert (events + more)[..|events|] == events;
    }
  }

  /** For every run: the database shows what its history leaves. */
  lemma {:induction false} HistoryShows(steps: seq<Step>)
    ensures Visible(Exec(steps).db) == Play(History(steps))
    decreases |steps|
  {
    if steps != [] {
      hide Visible, PlayOne, Happened, Do, Inv;
      var n := |steps| - 1;
      HistoryShows(steps[..n]);
      RunKeeps(steps[..n]);
      RunKeeps(steps);
      StepShows(Exec(steps[..n]), steps[n]);
      PlayMore(History(steps[..n]), Happened(Exec(steps[..n]), steps[n]));
    }
  }

  // ----- and every successful call its answer

  /** The call came back without an error of its own: a resource, or what the row operation says. */
  predicate Succeeded(n: Session) {
    (n.Done? && n.outcome.Returned?) || (n.RowDone? && n.result != Broke)
  }

  /** Event `e` is call `c`'s, and on tables `t` it answers what `c` was answered. */
  ghost predicate Answers(t: Tables, e: Event, c: Call, n: Session) {
    match n
    case Done(req, out) => e == Creates(c, req) && out == CreateOnce(t, req).1
    case RowDone(op, out) => e == Works(c, op) && out == RowOnce(t, op).1
    case _ => false
  }

  lemma FinishAnswers(s: State, step: Step, c: Call)
    requires Inv(s) && Finished(Do(s, step), c) && !Finished(s, c) && Succeeded(Do(s, step).sessions[c])
    ensures |Happened(s, step)| == 1 && Answers(Visible(s.db), Happened(s, step)[0], c, Do(s, step).sessions[c])
  {
    hide Visible, KeyOf, Inv, CreateOnce, RowOnce;
    FinishIsAtomic(s, step, c);
    OwnStep(s, step, c);
  }

  lemma OwnStep(s: State, step: Step, c: Call)
    requires Finished(Do(s, step), c) && !Finished(s, c)
    ensures (step.Next? || step.Lock? || step.Break?) && step.c == c
  {
    hide KeyOf, Rewrite;
  }

  /** Every successful call of every run has its place in the history, where the indivisible operation answers the same. */
  lemma {:induction false} HistoryAnswers(steps: seq<Step>, c: Call) returns (i: nat)
    requires Finished(Exec(steps), c) && Succeeded(Exec(steps).sessions[c])
    ensures i < |History(steps)| && Answers(Play(History(steps)[..i]), History(steps)[i], c, Exec(steps).sessions[c])
    decreases |steps|
  {
    hide Visible, Happened, Do, Inv, Answers, Succeeded, Play;
    assert steps != [];
    var n := |steps| - 1;
    var s, before := Exec(steps[..n]), History(steps[..n]);
    var now := Happened(s, steps[n]);
    if Finished(s, c) {
      FinishedStays(s, steps[n], c);
      i := HistoryAnswers(steps[..n], c);
      assert (before + now)[..i] == before[..i] && (before + now)[i] == before[i];
    } else {
      RunKeeps(steps[..n]);
      FinishAnswers(s, steps[n], c);
      HistoryShows(steps[..n]);
      i := |before|;
      assert (before + now)[..i] == before && (before + now)[i] == now[0];
    }
  }

  // ----- the same history on the store specification

  function RecordOf(req: Creation): IdempotencyRecord {
    IdempotencyRecord(KeyOf(req).0, req.key, "", At(req.resource).id, 0)
  }

  ghost function StoreOne(s: StoreSpec.Store, e: Event): StoreSpec.Store {
    match e
    case Creates(_, req) =>
      (match req.resource
       case AWallet(w) => StoreSpec.CreateWalletOnce(s, w, RecordOf(req)).0
       case AProposal(p) => StoreSpec.CreateTransactionOnce(s, p, RecordOf(req)).0)
    case Works(_, Approving(tx, a)) => StoreSpec.AddApproval(s, tx, a).0
    case Works(_, Marking(tx, signed, now)) => StoreSpec.MarkSigned(s, tx, signed, Some(now)).0
    case Inserts(AWallet(w)) => StoreSpec.CreateWallet(s, w).0
    case Inserts(AProposal(p)) => StoreSpec.CreateTransaction(s, p).0
    case Writes(p) => StoreSpec.UpdateTransaction(s, p).0
  }

  ghost function PlayStore(events: seq<Event>): StoreSpec.Store {
    if events == [] then StoreSpec.EMPTY else StoreOne(PlayStore(events[..|events| - 1]), events[|events| - 1])
  }

  /** What the store answers the finished call. */
  ghost predicate StoreAnswers(s: StoreSpec.Store, n: Session) {
    match n
    case Done(req, out) =>
      (match req.resource
       case AWallet(w) => SameWallet(out, StoreSpec.CreateWalletOnce(s, w, RecordOf(req)).1)
       case AProposal(p) => SameProposal(out, StoreSpec.CreateTransactionOnce(s, p, RecordOf(req)).1))
    case RowDone(Approving(tx, a), out) =>
      var res := StoreSpec.AddApproval(s, tx, a).1;
      out == if res.Ok? then Wrote(res.value) else Refused(res.error)
    case RowDone(Marking(tx, signed, now), out) =>
      (match StoreSpec.MarkSigned(s, tx, signed, Some(now)).1
       case Ok((p, won)) => out == if won then Wrote(p) else Left(p)
       case Err(e) => out == Refused(e))
    case _ => false
  }

  /** Postgres texts hold no NUL. */
  ghost predicate Clean(e: Event) { e.Creates? ==> NulFree(KeyOf(e.req).0) }

  lemma InsertAgrees(t: Tables, s: StoreSpec.Store, r: Resource)
    requires Shows(t, s)
    ensures Shows(PlayOne(t, Inserts(r)), StoreOne(s, Inserts(r)))
  {
    hide ShowsKeys;
  }

  lemma WriteAgrees(t: Tables, s: StoreSpec.Store, p: Proposal)
    requires Shows(t, s)
    ensures Shows(PlayOne(t, Writes(p)), StoreOne(s, Writes(p)))
  {
    hide ShowsKeys;
  }

  lemma CreateAgrees(t: Tables, s: StoreSpec.Store, c: Call, req: Creation)
    requires Shows(t, s) && NulFree(KeyOf(req).0)
    ensures Shows(PlayOne(t, Creates(c, req)), StoreOne(s, Creates(c, req)))
    ensures StoreAnswers(s, Done(req, CreateOnce(t, req).1))
  {
    hide NulFree, Shows, CreateOnce, StoreSpec.CreateWalletOnce, StoreSpec.CreateTransactionOnce, Scope;
    match req.resource
    case AWallet(w) =>
      assert req == Creation(AWallet(w), req.name, RecordOf(req).key);
      WalletCreateAgrees(t, s, w, req.name, RecordOf(req));
    case AProposal(p) =>
      assert req == Creation(AProposal(p), req.name, RecordOf(req).key);
      ProposalCreateAgrees(t, s, p, req.name, RecordOf(req));
  }

  lemma WorkAgrees(t: Tables, s: StoreSpec.Store, c: Call, op: RowOp)
    requires Shows(t, s)
    ensures Shows(PlayOne(t, Works(c, op)), StoreOne(s, Works(c, op)))
    ensures StoreAnswers(s, RowDone(op, RowOnce(t, op).1))
  {
    hide Shows, RowOnce, StoreSpec.AddApproval, StoreSpec.MarkSigned;
    match op
    case Approving(tx, a) => ApproveAgrees(t, s, tx, a);
    case Marking(tx, signed, now) => MarkAgrees(t, s, tx, signed, now);
  }

  lemma {:induction false} StoreShows(events: seq<Event>)
    requires forall i :: 0 <= i < |events| ==> Clean(events[i])
    ensures Shows(Play(events), PlayStore(events))
    decreases |events|
  {
    if events != [] {
      hide Shows, PlayOne, StoreOne, NulFree, KeyOf;
      var n := |events| - 1;
      StoreShows(events[..n]);
      var t, s := Play(events[..n]), PlayStore(events[..n]);
      assert Clean(events[n]);
      match events[n]
      case Creates(c, req) => CreateAgrees(t, s, c, req);
      case Works(c, op) => WorkAgrees(t, s, c, op);
      case Inserts(r) => InsertAgrees(t, s, r);
      case Writes(p) => WriteAgrees(t, s, p);
    }
  }

  // ----- requests come from the calls' beginnings

  ghost predicate CleanSession(n: Session) { n.Locked? || n.RowDone? || NulFree(KeyOf(n.req).0) }

  ghost predicate CleanRun(steps: seq<Step>) {
    forall i :: 0 <= i < |steps| && steps[i].Begin? ==> NulFree(KeyOf(steps[i].req).0)
  }

  lemma StepKeepsClean(s: State, step: Step)
    requires forall c :: c in s.sessions ==> CleanSession(s.sessions[c])
    requires step.Begin? ==> NulFree(KeyOf(step.req).0)
    ensures forall c :: c in Do(s, step).sessions ==> CleanSession(Do(s, step).sessions[c])
  {
    hide NulFree, KeyOf, Rewrite;
  }

  lemma {:induction false} SessionsAreClean(steps: seq<Step>)
    requires CleanRun(steps)
    ensures forall c :: c in Exec(steps).sessions ==> CleanSession(Exec(steps).sessions[c])
    ensures forall i :: 0 <= i < |History(steps)| ==> Clean(History(steps)[i])
    decreases |steps|
  {
    hide CleanSession, NulFree, KeyOf, Do;
    if steps != [] {
      var n := |steps| - 1;
      SessionsAreClean(steps[..n]);
      StepKeepsClean(Exec(steps[..n]), steps[n]);
      HappenedIsClean(Exec(steps[..n]), steps[n]);
    }
  }

  lemma HappenedIsClean(s: State, step: Step)
    requires forall c :: c in Do(s, step).sessions ==> CleanSession(Do(s, step).sessions[c])
    ensures forall i :: 0 <= i < |Happened(s, step)| ==> Clean(Happened(s, step)[i])
  {
    hide NulFree, KeyOf, Do;
  }

  // ----- the theorems

  /** Whatever the interleaving, the database shows what the store holds after some sequence of its own operations. */
  lemma EveryRunIsAStoreRun(steps: seq<Step>)
    requires CleanRun(steps)
    ensures Shows(Visible(Exec(steps).db), PlayStore(History(steps)))
  {
    hide Shows, Visible, CleanRun;
    HistoryShows(steps);
    SessionsAreClean(steps);
    StoreShows(History(steps));
  }

  /** And every successful call was answered what the store answers at the call's place in that sequence. */
  lemma EveryAnswerIsTheStores(steps: seq<Step>, c: Call) returns (i: nat)
    requires CleanRun(steps) && Finished(Exec(steps), c) && Succeeded(Exec(steps).sessions[c])
    ensures i < |History(steps)| && StoreAnswers(PlayStore(History(steps)[..i]), Exec(steps).sessions[c])
  {
    hide Shows, CleanRun, StoreAnswers, Exec, History, PlayStore, Play, NulFree, KeyOf;
    i := HistoryAnswers(steps, c);
    SessionsAreClean(steps);
    var before := History(steps)[..i];
    StoreShows(before);
    assert Clean(History(steps)[i]);
    match Exec(steps).sessions[c]
    case Done(req, out) => CreateAgrees(Play(before), PlayStore(before), c, req);
    case RowDone(op, out) => WorkAgrees(Play(before), PlayStore(before), c, op);
  }
}
