/**
 * What late writes can still do. Broadcast and Failed rows can be overwritten by calls that loaded or
 * approved the transaction earlier, and a failing call can write back fewer approvals than were
 * granted. The exact conditions, on the calls in flight, under which a row, its status or its
 * approvals are final.
 */
module Finality {
  import opened Types
  import opened Setup
  import opened StoreSpec
  import opened Custody
  import opened Evolution
  import opened Runs
  import AuditTrail
  import Creations
  import Nonces
  import Signer = Signing
  import opened Chains
  import Guarantees

  ghost predicate Terminal(s: System, id: string) {
    id in Rows(s) && Rank(Rows(s)[id].status) == 2
  }

  /**
   * A call in this state can still write its copy of the row as Failed: its adapter may refuse, it is
   * failing already, or it will ask for a signature that is never made.
   */
  predicate MayFail(cfg: Config, f: Flow) {
    || (f.Loaded? && Refusable(cfg, f.snapshot.chain))
    || f.Broken?
    || ((f.Approved? || f.Quorum?) && |f.snapshot.approvals| >= 2 && Signer.Unsignable(cfg, f.snapshot.chain, f.snapshot.raw))
  }

  /** A call in this state can still write its copy of the row as Broadcast. */
  predicate MaySend(f: Flow) { f.Loaded? || f.Submitted? }

  predicate CanWrite(cfg: Config, f: Flow) { MayFail(cfg, f) || MaySend(f) }

  /** Call `c` is in flight on transaction `id`. */
  predicate On(s: System, c: Call, id: string) { c in s.active && s.active[c].snapshot.id == id }

  ghost predicate FailThreat(cfg: Config, s: System, id: string) { exists c :: On(s, c, id) && MayFail(cfg, s.active[c]) }

  ghost predicate SendThreat(s: System, id: string) { exists c :: On(s, c, id) && MaySend(s.active[c]) }

  ghost predicate Threat(cfg: Config, s: System, id: string) { exists c :: On(s, c, id) && CanWrite(cfg, s.active[c]) }

  // ----- what one step can do to a row and to the calls that may write it

  /** Row `id` stands, or was sealed by MarkTransactionSigned, or is the copy of a call that could write it. */
  ghost predicate RowMoves(cfg: Config, s: System, t: System, id: string)
    requires id in Rows(s) && id in Rows(t)
  {
    var p, q := Rows(s)[id], Rows(t)[id];
    || q == p
    || (p.status.Proposed? && q.status.Signed? && q.approvals == p.approvals)
    || (q.status.Failed? && exists c :: On(s, c, id) && MayFail(cfg, s.active[c]) && q.approvals == s.active[c].snapshot.approvals)
    || (q.status.Broadcast? && exists c :: On(s, c, id) && MaySend(s.active[c]) && q.approvals == s.active[c].snapshot.approvals)
  }

  /** A call that may write the row could do so before, or has just loaded it signed. */
  ghost predicate CallMoves(cfg: Config, s: System, t: System, id: string, c: Call)
    requires id in Rows(s) && On(t, c, id)
  {
    var g := t.active[c];
    CanWrite(cfg, g) ==>
      || (Rows(s)[id].status.Signed? && g == Loaded(Rows(s)[id]))
      || (&& On(s, c, id) && (MayFail(cfg, g) ==> MayFail(cfg, s.active[c])) && (MaySend(g) ==> MaySend(s.active[c]))
          && g.snapshot.approvals == s.active[c].snapshot.approvals)
  }

  ghost predicate Moves(cfg: Config, s: System, t: System, id: string) {
    && id in Rows(s) && id in Rows(t) && GrantedTo(t, id) == GrantedTo(s, id)
    && RowMoves(cfg, s, t, id)
    && (forall c :: On(t, c, id) ==> CallMoves(cfg, s, t, id, c))
  }

  /** The step asks for an approval of transaction `id`. */
  predicate Asks(x: Step, id: string) { x.GrantApproval? && x.tx == id }

  lemma ApprovalMoves(cfg: Config, s: System, id: string, x: Step)
    requires Inv(cfg, s) && id in Rows(s) && x.GrantApproval? && (x.tx == id ==> !Rows(s)[id].status.Proposed?)
    ensures Moves(cfg, s, DoApproval(cfg, s, x.c, x.tx, x.signer, x.now, x.live), id)
  {
    hide RowOK, FlowOK, SignerAllowed;
    if Grants(cfg, s, x.c, x.tx, x.signer, x.now, x.live) {
      AuditTrail.RowNamed(cfg, s, x.tx);
      assert x.tx != id;
    }
  }

  lemma MarkMoves(cfg: Config, s: System, id: string, c: Call, p: Proposal, signed: SignedTx, stamp: Option<Time>, live: bool)
    requires id in Rows(s) && c in s.active
    requires p.id in Rows(s) ==> Rows(s)[p.id].id == p.id
    ensures Moves(cfg, s, DoMark(s, c, p, signed, stamp, live), id)
  {}

  /** Only call `c` moves, and the row as allowed. */
  lemma OneCallMoves(cfg: Config, s: System, t: System, id: string, c: Call)
    requires id in Rows(s) && id in Rows(t) && t.granted == s.granted && RowMoves(cfg, s, t, id)
    requires forall d :: d in t.active && d != c ==> d in s.active && t.active[d] == s.active[d]
    requires On(t, c, id) ==> CallMoves(cfg, s, t, id, c)
    ensures Moves(cfg, s, t, id)
  {
    hide RowMoves;
  }

  lemma AuditApprovalMoves(cfg: Config, s: System, id: string, c: Call, now: Time, live: bool)
    requires id in Rows(s) && c in s.active && s.active[c].Approved?
    ensures Moves(cfg, s, DoAuditApproval(s, c, s.active[c].snapshot, s.active[c].signer, now, live), id)
  {
    hide Moves, EndSigning;
    var p, signer := s.active[c].snapshot, s.active[c].signer;
    var e := Event(TransactionApproved, signer, p, now);
    EndMoves(cfg, s, id, c, e, live);
    if live && p.status == Proposed && |p.approvals| >= 2 { QuorumMoves(cfg, s, id, c, e); }
  }

  lemma QuorumMoves(cfg: Config, s: System, id: string, c: Call, e: AuditEvent)
    requires id in Rows(s) && c in s.active && s.active[c].Approved? && |s.active[c].snapshot.approvals| >= 2
    ensures Moves(cfg, s, Log(s, e, true).(active := s.active[c := Quorum(s.active[c].snapshot)]), id)
  {
    hide Moves;
    OneCallMoves(cfg, s, Log(s, e, true).(active := s.active[c := Quorum(s.active[c].snapshot)]), id, c);
  }

  lemma SignMoves(cfg: Config, s: System, id: string, c: Call, salt: int, live: bool)
    requires id in Rows(s) && c in s.active && s.active[c].Quorum? && |s.active[c].snapshot.approvals| >= 2
    requires var p := s.active[c].snapshot;
      Signer.Sign(cfg, s.world.records, p, salt).Err? ==> Signer.Unsignable(cfg, p.chain, p.raw)
    ensures Moves(cfg, s, DoSign(cfg, s, c, s.active[c].snapshot, salt, live), id)
  {
    hide Signer.Sign, Signer.Unsignable, Moves;
    var p := s.active[c].snapshot;
    if !live {
      EndMoves(cfg, s, id, c, Event(TransactionSigned, "", p, 0), false);
    } else {
      match Signer.Sign(cfg, s.world.records, p, salt)
      case Ok(signed) => OneCallMoves(cfg, s, s.(active := s.active[c := Enveloped(p, signed)]), id, c);
      case Err(cause) => OneCallMoves(cfg, s, s.(active := s.active[c := Broken(p, cause)]), id, c);
    }
  }

  lemma EndMoves(cfg: Config, s: System, id: string, c: Call, e: AuditEvent, live: bool)
    requires id in Rows(s)
    ensures Moves(cfg, s, EndSigning(Log(s, e, live), c), id) && Moves(cfg, s, s, id)
  {}

  lemma LoadMoves(cfg: Config, s: System, id: string, c: Call, tx: string, live: bool)
    requires Inv(cfg, s) && id in Rows(s)
    ensures Moves(cfg, s, DoLoad(cfg, s, c, tx, live), id)
  {
    hide RowOK, FlowOK, Registered;
    AuditTrail.RowNamed(cfg, s, tx);
  }

  lemma SubmitMoves(cfg: Config, s: System, id: string, c: Call, refusal: Option<string>, live: bool)
    requires id in Rows(s) && c in s.active && s.active[c].Loaded?
    ensures Moves(cfg, s, DoSubmit(cfg, s, c, s.active[c].snapshot, refusal, live), id)
  {
    hide Signer.Unsignable, Moves;
    var p := s.active[c].snapshot;
    if !live {
      EndMoves(cfg, s, id, c, Event(TransactionSigned, "", p, 0), false);
    } else {
      match Send(cfg, p, refusal)
      case Ok(hash) => OneCallMoves(cfg, s, s.(active := s.active[c := Submitted(p, hash)]), id, c);
      case Err(cause) => OneCallMoves(cfg, s, s.(active := s.active[c := Broken(p, cause)]), id, c);
    }
  }

  /** Call `c` writes its copy of row `p.id` and stays in flight, unable to write again. */
  lemma WriteMoves(cfg: Config, s: System, id: string, c: Call, q: Proposal, g: Flow)
    requires id in Rows(s) && c in s.active && q.id in Rows(s) && q.id == s.active[c].snapshot.id
    requires q.approvals == s.active[c].snapshot.approvals && !CanWrite(cfg, g)
    requires (q.status.Failed? && MayFail(cfg, s.active[c])) || (q.status.Broadcast? && MaySend(s.active[c]))
    ensures Moves(cfg, s, WithStore(s, UpdateTransaction(s.world.store, q).0).(active := s.active[c := g]), id)
  {
    hide Moves, CanWrite;
    var t := WithStore(s, UpdateTransaction(s.world.store, q).0).(active := s.active[c := g]);
    assert Rows(t) == Rows(s)[q.id := q];
    assert RowMoves(cfg, s, t, id) by { assert q.id == id ==> On(s, c, id); }
    OneCallMoves(cfg, s, t, id, c);
  }

  lemma RecordMoves(cfg: Config, s: System, id: string, c: Call, now: Time, live: bool)
    requires id in Rows(s) && c in s.active && s.active[c].Submitted?
    ensures Moves(cfg, s, DoRecordBroadcast(s, c, s.active[c].snapshot, s.active[c].hash, now, live), id)
  {
    hide Moves, EndSigning;
    var q := AsBroadcast(s.active[c].snapshot, s.active[c].hash, now);
    if live && q.id in Rows(s) {
      WriteMoves(cfg, s, id, c, q, Recorded(q));
    } else {
      EndMoves(cfg, s, id, c, Event(TransactionBroadcast, "", q, now), false);
    }
  }

  lemma FailMoves(cfg: Config, s: System, id: string, c: Call, now: Time, live: bool)
    requires id in Rows(s) && c in s.active && s.active[c].Broken?
    ensures Moves(cfg, s, DoRecordFailure(s, c, s.active[c].snapshot, s.active[c].cause, now, live), id)
  {
    hide Moves;
    var q := AsFailed(s.active[c].snapshot, s.active[c].cause, now);
    if live && q.id in Rows(s) {
      WriteMoves(cfg, s, id, c, q, Failing(q));
    } else {
      OneCallMoves(cfg, s, s.(active := s.active[c := Failing(q)]), id, c);
    }
  }

  lemma QuorumHasTwo(cfg: Config, s: System, c: Call)
    requires AllInv(cfg, s) && c in s.active && s.active[c].Quorum?
    ensures |s.active[c].snapshot.approvals| >= 2
  {
    hide SnapshotOK, RowOK, HistoryOK, Creations.CreationInv, Nonces.LedgerInv, AuditTrail.TrailInv;
    assert FlowOK(s, s.active[c]);
  }

  lemma CoSignMoves(cfg: Config, s: System, id: string, x: Step)
    requires AllInv(cfg, s) && id in Rows(s) && IsCoSign(x) && (Asks(x, id) ==> !Rows(s)[id].status.Proposed?)
    ensures Moves(cfg, s, DoCoSign(cfg, s, x), id)
  {
    AllCore(cfg, s);
    hide AllInv, Inv, Moves, DoApproval, DoMark, DoAuditApproval, DoSign, EndSigning, Log, Signer.Sign, Signer.Unsignable;
    EndMoves(cfg, s, id, x.c, AuditEvent(WalletCreated, "", "", "", 0), false);
    if x.GrantApproval? {
      ApprovalMoves(cfg, s, id, x);
    } else if x.c in s.active {
      var f := s.active[x.c];
      match x
      case Mark(c, stamp, live) =>
        if f.Enveloped? {
          AuditTrail.RowNamed(cfg, s, f.snapshot.id);
          MarkMoves(cfg, s, id, c, f.snapshot, f.signed, stamp, live);
        }
      case AuditApproval(c, now, live) => if f.Approved? { AuditApprovalMoves(cfg, s, id, c, now, live); }
      case SignQuorum(c, salt, live) =>
        if f.Quorum? {
          Guarantees.QuorumSigns(cfg, s, c, salt);
          QuorumHasTwo(cfg, s, c);
          SignMoves(cfg, s, id, c, salt, live);
        }
      case AuditSigned(c, now, live) => EndMoves(cfg, s, id, c, Event(TransactionSigned, "", f.snapshot, now), live);
      case _ =>
    }
  }

  lemma BroadcastMoves(cfg: Config, s: System, id: string, x: Step)
    requires Inv(cfg, s) && id in Rows(s)
    ensures Moves(cfg, s, DoBroadcast(cfg, s, x), id)
  {
    hide RowOK, FlowOK, HistoryOK, Moves, DoLoad, DoSubmit, DoRecordBroadcast, DoRecordFailure, EndSigning, Log;
    EndMoves(cfg, s, id, x.c, AuditEvent(WalletCreated, "", "", "", 0), false);
    if x.Load? {
      LoadMoves(cfg, s, id, x.c, x.tx, x.live);
    } else if x.c in s.active {
      var f := s.active[x.c];
      match x
      case Submit(c, refusal, live) => if f.Loaded? { SubmitMoves(cfg, s, id, c, refusal, live); }
      case RecordBroadcast(c, now, live) => if f.Submitted? { RecordMoves(cfg, s, id, c, now, live); }
      case RecordFailure(c, now, live) => if f.Broken? { FailMoves(cfg, s, id, c, now, live); }
      case AuditBroadcast(c, now, live) => EndMoves(cfg, s, id, c, Event(TransactionBroadcast, "", f.snapshot, now), live);
      case AuditFailure(c, now, live) => EndMoves(cfg, s, id, c, Event(TransactionFailed, "", f.snapshot, now), live);
      case _ =>
    }
  }

  lemma CreationMoves(cfg: Config, s: System, id: string, x: Step)
    requires IsCreation(x) && id in Rows(s)
    ensures Moves(cfg, s, DoCreation(cfg, s, x), id)
  {
    hide DoCreation;
    AuditTrail.CreationLogs(cfg, s, x);
  }

  /** Every step that grants no approval of the transaction moves its row and its calls only so. */
  lemma StepMoves(cfg: Config, s: System, id: string, x: Step)
    requires AllInv(cfg, s) && id in Rows(s) && (Asks(x, id) ==> !Rows(s)[id].status.Proposed?)
    ensures Moves(cfg, s, Do(cfg, s, x), id)
  {
    hide Inv, Moves, DoCreation, DoCoSign, DoBroadcast, Creations.CreationInv, Nonces.LedgerInv, AuditTrail.TrailInv;
    if IsCreation(x) {
      CreationMoves(cfg, s, id, x);
    } else if IsCoSign(x) {
      CoSignMoves(cfg, s, id, x);
    } else {
      BroadcastMoves(cfg, s, id, x);
    }
  }

  // ----- no threat: the row, or its status, is final

  /** No call in flight can give a terminal row the other status. */
  ghost predicate StatusSafe(cfg: Config, s: System, id: string) {
    Terminal(s, id) && if Rows(s)[id].status.Broadcast? then !FailThreat(cfg, s, id) else !SendThreat(s, id)
  }

  lemma SafeStep(cfg: Config, s: System, t: System, id: string)
    requires Terminal(s, id) && Moves(cfg, s, t, id)
    ensures Terminal(t, id)
    ensures StatusSafe(cfg, s, id) ==> StatusSafe(cfg, t, id) && Rows(t)[id].status == Rows(s)[id].status
    ensures !Threat(cfg, s, id) ==> !Threat(cfg, t, id) && Rows(t)[id] == Rows(s)[id]
  {
    assert forall c :: On(t, c, id) ==> CallMoves(cfg, s, t, id, c);
  }

  lemma {:induction false} Unthreatened(cfg: Config, a: seq<Step>, b: seq<Step>, id: string)
    requires Terminal(At(cfg, a), id)
    ensures var s, t := At(cfg, a), At(cfg, a + b);
      && Terminal(t, id)
      && (!Threat(cfg, s, id) ==> !Threat(cfg, t, id) && Rows(t)[id] == Rows(s)[id])
      && (StatusSafe(cfg, s, id) ==> StatusSafe(cfg, t, id) && Rows(t)[id].status == Rows(s)[id].status)
    decreases |b|
  {
    hide AllInv, Threat, StatusSafe, Moves, Do;
    if b == [] {
      assert a + b == a;
    } else {
      var n := |b| - 1;
      Unthreatened(cfg, a, b[..n], id);
      RunOK(cfg, a + b[..n]);
      assert (a + b)[..|a + b| - 1] == a + b[..n];
      StepMoves(cfg, At(cfg, a + b[..n]), id, b[n]);
      SafeStep(cfg, At(cfg, a + b[..n]), At(cfg, a + b), id);
    }
  }

  // ----- a threat can come true

  lemma Extend(cfg: Config, a: seq<Step>, x: Step)
    ensures At(cfg, a + [x]) == Do(cfg, At(cfg, a), x)
  {
    assert (a + [x])[..|a|] == a;
  }

  /** The rows stand, call `c` is now `f`, and the other calls are where they were. */
  ghost predicate Moved(s: System, t: System, c: Call, f: Flow) {
    && Rows(t) == Rows(s) && t.granted == s.granted && t.active == s.active[c := f]
  }

  lemma LoadStep(cfg: Config, a: seq<Step>, c: Call, id: string)
    requires Loads(cfg, At(cfg, a), c, id, true)
    ensures id in Rows(At(cfg, a)) && Moved(At(cfg, a), At(cfg, a + [Load(c, id, true)]), c, Loaded(Rows(At(cfg, a))[id]))
  {
    hide Registered;
    Extend(cfg, a, Load(c, id, true));
  }

  lemma SubmitStep(cfg: Config, a: seq<Step>, c: Call, refusal: Option<string>)
    requires c in At(cfg, a).active && At(cfg, a).active[c].Loaded?
    ensures var s := At(cfg, a); var p := s.active[c].snapshot;
      Moved(s, At(cfg, a + [Submit(c, refusal, true)]), c,
            match Send(cfg, p, refusal) case Ok(hash) => Submitted(p, hash) case Err(cause) => Broken(p, cause))
  {
    Extend(cfg, a, Submit(c, refusal, true));
    hide Send;
  }

  lemma RecordStep(cfg: Config, a: seq<Step>, c: Call, now: Time)
    requires var s := At(cfg, a); c in s.active && s.active[c].Submitted? && s.active[c].snapshot.id in Rows(s)
    ensures var s, t := At(cfg, a), At(cfg, a + [RecordBroadcast(c, now, true)]);
      && Rows(t) == Rows(s)[s.active[c].snapshot.id := AsBroadcast(s.active[c].snapshot, s.active[c].hash, now)]
      && (forall d :: d in s.active && d != c ==> d in t.active && t.active[d] == s.active[d])
  {
    Extend(cfg, a, RecordBroadcast(c, now, true));
  }

  lemma FailureStep(cfg: Config, a: seq<Step>, c: Call, now: Time)
    requires var s := At(cfg, a); c in s.active && s.active[c].Broken? && s.active[c].snapshot.id in Rows(s)
    ensures var s, t := At(cfg, a), At(cfg, a + [RecordFailure(c, now, true)]);
      && Rows(t) == Rows(s)[s.active[c].snapshot.id := AsFailed(s.active[c].snapshot, s.active[c].cause, now)]
      && t.granted == s.granted
      && (forall d :: d in s.active && d != c ==> d in t.active && t.active[d] == s.active[d])
  {
    Extend(cfg, a, RecordFailure(c, now, true));
  }

  /** The signer itself refuses, on a live context. */
  lemma QuorumBreaks(cfg: Config, a: seq<Step>, c: Call)
    requires var s := At(cfg, a);
      c in s.active && s.active[c].Quorum? && Signer.Unsignable(cfg, s.active[c].snapshot.chain, s.active[c].snapshot.raw)
    ensures var s, t := At(cfg, a), At(cfg, a + [SignQuorum(c, 0, true)]);
      && Rows(t) == Rows(s) && t.granted == s.granted && c in t.active && t.active[c].Broken?
      && t.active[c].snapshot == s.active[c].snapshot
  {
    var s := At(cfg, a);
    Signer.SignDecides(cfg, s.world.records, s.active[c].snapshot, 0);
    Extend(cfg, a, SignQuorum(c, 0, true));
    hide Signer.Sign, Signer.Unsignable;
  }

  lemma ApprovedGoesOn(cfg: Config, a: seq<Step>, c: Call)
    requires var s := At(cfg, a);
      c in s.active && s.active[c].Approved? && |s.active[c].snapshot.approvals| >= 2 && s.active[c].snapshot.status.Proposed?
    ensures var s, t := At(cfg, a), At(cfg, a + [AuditApproval(c, 0, true)]);
      && Rows(t) == Rows(s) && t.granted == s.granted && c in t.active && t.active[c] == Quorum(s.active[c].snapshot)
  {
    Extend(cfg, a, AuditApproval(c, 0, true));
  }

  /** A call that may fail the row can be brought to the brink of failTransaction. */
  lemma Breaks(cfg: Config, a: seq<Step>, c: Call) returns (b: seq<Step>)
    requires c in At(cfg, a).active && MayFail(cfg, At(cfg, a).active[c])
    ensures var s, t := At(cfg, a), At(cfg, a + b);
      && Rows(t) == Rows(s) && t.granted == s.granted && c in t.active && t.active[c].Broken? && t.active[c].snapshot == s.active[c].snapshot
  {
    hide AllInv, Do, FlowOK;
    var f := At(cfg, a).active[c];
    match f
    case Broken(_, _) =>
      b := [];
      assert a + b == a;
    case Loaded(_) =>
      b := [Submit(c, Some("refused"), true)];
      SubmitStep(cfg, a, c, Some("refused"));
    case Quorum(_) =>
      b := [SignQuorum(c, 0, true)];
      QuorumBreaks(cfg, a, c);
    case Approved(p, _) =>
      ApprovedIsProposed(cfg, a, c);
      ApprovedGoesOn(cfg, a, c);
      QuorumBreaks(cfg, a + [AuditApproval(c, 0, true)], c);
      b := [AuditApproval(c, 0, true), SignQuorum(c, 0, true)];
      assert a + b == a + [AuditApproval(c, 0, true)] + [SignQuorum(c, 0, true)];
  }

  lemma ApprovedIsProposed(cfg: Config, a: seq<Step>, c: Call)
    requires c in At(cfg, a).active && At(cfg, a).active[c].Approved?
    ensures At(cfg, a).active[c].snapshot.status.Proposed?
  {
    RunOK(cfg, a);
    assert FlowOK(At(cfg, a), At(cfg, a).active[c]);
  }

  /** A call that may fail the row can write its copy as Failed, at any time of the clock. */
  lemma ThreatFails(cfg: Config, a: seq<Step>, id: string, c: Call, now: Time) returns (b: seq<Step>)
    requires id in Rows(At(cfg, a)) && On(At(cfg, a), c, id) && MayFail(cfg, At(cfg, a).active[c])
    ensures var s, t := At(cfg, a), At(cfg, a + b);
      && id in Rows(t) && Rows(t)[id].status.Failed? && Rows(t)[id].updatedAt == now
      && Rows(t)[id].approvals == s.active[c].snapshot.approvals && t.granted == s.granted
  {
    hide AllInv, Do, FlowOK;
    b := Breaks(cfg, a, c);
    FailureStep(cfg, a + b, c, now);
    b := b + [RecordFailure(c, now, true)];
    assert a + b == a + b[..|b| - 1] + [RecordFailure(c, now, true)];
  }

  /** A call that may send the row can write its copy as Broadcast, at any time of the clock. */
  lemma ThreatSends(cfg: Config, a: seq<Step>, id: string, c: Call, now: Time) returns (b: seq<Step>)
    requires id in Rows(At(cfg, a)) && On(At(cfg, a), c, id) && MaySend(At(cfg, a).active[c])
    ensures var t := At(cfg, a + b); id in Rows(t) && Rows(t)[id].status.Broadcast? && Rows(t)[id].updatedAt == now
  {
    hide AllInv, Do, FlowOK;
    b := [];
    assert a + b == a;
    if At(cfg, a).active[c].Loaded? {
      SubmitStep(cfg, a, c, None);
      b := [Submit(c, None, true)];
    }
    RecordStep(cfg, a + b, c, now);
    b := b + [RecordBroadcast(c, now, true)];
    assert a + b == a + b[..|b| - 1] + [RecordBroadcast(c, now, true)];
  }

  // ----- the exact conditions

  /** The row has the same value in every continuation of the run. */
  ghost predicate Final(cfg: Config, a: seq<Step>, id: string)
    requires id in Rows(At(cfg, a))
  {
    forall b :: var t := At(cfg, a + b); id in Rows(t) && Rows(t)[id] == Rows(At(cfg, a))[id]
  }

  /** The row has the same status in every continuation of the run. */
  ghost predicate StatusFinal(cfg: Config, a: seq<Step>, id: string)
    requires id in Rows(At(cfg, a))
  {
    forall b :: var t := At(cfg, a + b); id in Rows(t) && Rows(t)[id].status == Rows(At(cfg, a))[id].status
  }

  /** A Broadcast or Failed row is final in every continuation if and only if no call can still write it. */
  lemma FinalIff(cfg: Config, a: seq<Step>, id: string)
    requires Terminal(At(cfg, a), id)
    ensures Final(cfg, a, id) <==> !Threat(cfg, At(cfg, a), id)
  {
    hide AllInv, Do, StatusSafe;
    var s := At(cfg, a);
    if Threat(cfg, s, id) {
      var c :| On(s, c, id) && CanWrite(cfg, s.active[c]);
      var now := Rows(s)[id].updatedAt + 1;
      var b: seq<Step>;
      if MayFail(cfg, s.active[c]) { b := ThreatFails(cfg, a, id, c, now); } else { b := ThreatSends(cfg, a, id, c, now); }
      assert Rows(At(cfg, a + b))[id] != Rows(s)[id];
    } else {
      forall b ensures var t := At(cfg, a + b); id in Rows(t) && Rows(t)[id] == Rows(s)[id] {
        Unthreatened(cfg, a, b, id);
      }
    }
  }

  /**
   * A Broadcast status is final if and only if no call can still fail the row; a Failed status if and
   * only if no call has loaded or submitted it. Only an adapter that may refuse makes such threats
   * possible: see module Absorbing.
   */
  lemma StatusFinalIff(cfg: Config, a: seq<Step>, id: string)
    requires Terminal(At(cfg, a), id)
    ensures Rows(At(cfg, a))[id].status.Broadcast? ==> (StatusFinal(cfg, a, id) <==> !FailThreat(cfg, At(cfg, a), id))
    ensures Rows(At(cfg, a))[id].status.Failed? ==> (StatusFinal(cfg, a, id) <==> !SendThreat(At(cfg, a), id))
  {
    hide AllInv, Do, Threat;
    var s := At(cfg, a);
    if StatusSafe(cfg, s, id) {
      forall b ensures var t := At(cfg, a + b); id in Rows(t) && Rows(t)[id].status == Rows(s)[id].status {
        Unthreatened(cfg, a, b, id);
      }
    } else {
      var b := StatusOverturned(cfg, a, id);
      assert Rows(At(cfg, a + b))[id].status != Rows(s)[id].status;
    }
  }

  lemma StatusOverturned(cfg: Config, a: seq<Step>, id: string) returns (b: seq<Step>)
    requires Terminal(At(cfg, a), id) && !StatusSafe(cfg, At(cfg, a), id)
    ensures id in Rows(At(cfg, a + b)) && Rows(At(cfg, a + b))[id].status != Rows(At(cfg, a))[id].status
  {
    hide AllInv, Do;
    var s := At(cfg, a);
    if Rows(s)[id].status.Broadcast? {
      var c :| On(s, c, id) && MayFail(cfg, s.active[c]);
      b := ThreatFails(cfg, a, id, c, 0);
    } else {
      var c :| On(s, c, id) && MaySend(s.active[c]);
      b := ThreatSends(cfg, a, id, c, 0);
    }
  }

  // ----- both overwrites happen

  /** Two Broadcast calls that loaded the same signed row, one accepted by the node and one refused. */
  lemma TwoBroadcasts(cfg: Config, a: seq<Step>, id: string, c: Call, d: Call) returns (b: seq<Step>)
    requires var s := At(cfg, a);
      c != d && Loads(cfg, s, c, id, true) && Loads(cfg, s, d, id, true) && Refusable(cfg, Rows(s)[id].chain)
    ensures var s, t := At(cfg, a), At(cfg, a + b);
      && Rows(t) == Rows(s) && c in t.active && d in t.active && id in Rows(s)
      && t.active[c].Submitted? && t.active[c].snapshot == Rows(s)[id] && t.active[d] == Broken(Rows(s)[id], "refused")
  {
    var x1, x2, x3, x4 := Load(c, id, true), Load(d, id, true), Submit(c, None, true), Submit(d, Some("refused"), true);
    LoadStep(cfg, a, c, id);
    assert Loads(cfg, At(cfg, a + [x1]), d, id, true);
    hide Do, Loads;
    LoadStep(cfg, a + [x1], d, id);
    SubmitStep(cfg, a + [x1] + [x2], c, None);
    SubmitStep(cfg, a + [x1] + [x2] + [x3], d, Some("refused"));
    b := [x1, x2, x3, x4];
    assert a + b == a + [x1] + [x2] + [x3] + [x4];
  }

  /** From any signed row, some run records the broadcast and then calls it failed, and some run the reverse. */
  lemma TerminalStatusesSwap(cfg: Config, a: seq<Step>, id: string, c: Call, d: Call) returns (b: seq<Step>)
    requires var s := At(cfg, a);
      c != d && Loads(cfg, s, c, id, true) && Loads(cfg, s, d, id, true) && Refusable(cfg, Rows(s)[id].chain)
    ensures var x, y := RecordBroadcast(c, 0, true), RecordFailure(d, 0, true);
      var p, q := At(cfg, a + b + [x]), At(cfg, a + b + [x] + [y]);
      var m, n := At(cfg, a + b + [y]), At(cfg, a + b + [y] + [x]);
      && id in Rows(p) && Rows(p)[id].status == Status.Broadcast && id in Rows(q) && Rows(q)[id].status == Failed
      && id in Rows(m) && Rows(m)[id].status == Failed && id in Rows(n) && Rows(n)[id].status == Status.Broadcast
  {
    b := TwoBroadcasts(cfg, a, id, c, d);
    RunOK(cfg, a);
    AuditTrail.RowNamed(cfg, At(cfg, a), id);
    hide Do, AllInv, Loads;
    RecordStep(cfg, a + b, c, 0);
    FailureStep(cfg, a + b + [RecordBroadcast(c, 0, true)], d, 0);
    FailureStep(cfg, a + b, d, 0);
    RecordStep(cfg, a + b + [RecordFailure(d, 0, true)], c, 0);
  }
}
