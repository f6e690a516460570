/**
 * Where terminal statuses are absorbing. A row fails only if no signature is ever made for its payload
 * or its adapter may refuse, and a signature is only ever made for payloads the signer accepts. So
 * unless a node may refuse, no interleaving of any calls turns Broadcast into Failed or back.
 */
module Absorbing {
  import opened Types
  import opened Setup
  import opened StoreSpec
  import opened Custody
  import opened Evolution
  import opened Runs
  import opened Finality
  import opened Losses
  import AuditTrail
  import Chains
  import Creations
  import Nonces
  import Signer = Signing

  /** Something can fail the row: the signer, or the adapter. */
  ghost predicate Doomed(cfg: Config, p: Proposal) {
    Signer.Unsignable(cfg, p.chain, p.raw) || Refusable(cfg, p.chain)
  }

  /** A row that failed, or that a call may still fail, is doomed. */
  ghost predicate FailureOK(cfg: Config, s: System, id: string)
    requires id in Rows(s)
  {
    Rows(s)[id].status.Failed? || FailThreat(cfg, s, id) ==> Doomed(cfg, Rows(s)[id])
  }

  lemma MovesKeepFailure(cfg: Config, s: System, t: System, id: string)
    requires Moves(cfg, s, t, id) && FailureOK(cfg, s, id)
    requires Rows(t)[id].chain == Rows(s)[id].chain && Rows(t)[id].raw == Rows(s)[id].raw
    ensures FailureOK(cfg, t, id)
  {
    hide Signer.Unsignable;
    assert forall c :: On(t, c, id) ==> CallMoves(cfg, s, t, id, c);
  }

  lemma AcceptedKeepsFailure(cfg: Config, s: System, t: System, x: Step, id: string)
    requires x.GrantApproval? && Accepted(s, t, x, id) && FailureOK(cfg, s, id)
    ensures FailureOK(cfg, t, id)
  {
    hide Signer.Unsignable;
    forall c | On(t, c, id) && MayFail(cfg, t.active[c]) ensures Doomed(cfg, Rows(t)[id]) {
      if c != x.c { assert On(s, c, id); }
    }
  }

  /** A row made in this step is Proposed and no call is on it. */
  lemma NewRowFine(cfg: Config, s: System, x: Step, id: string)
    requires AllInv(cfg, s) && id !in Rows(s) && id in Rows(Do(cfg, s, x))
    ensures FailureOK(cfg, Do(cfg, s, x), id)
  {
    hide RowOK, HistoryOK, Creations.CreationInv, Nonces.LedgerInv, AuditTrail.TrailInv;
    var t := Do(cfg, s, x);
    NewRowProposed(cfg, s, x, id);
    assert forall c :: c in s.active ==> FlowOK(s, s.active[c]);
    assert !FailThreat(cfg, t, id);
  }

  lemma NewRowProposed(cfg: Config, s: System, x: Step, id: string)
    requires id !in Rows(s) && id in Rows(Do(cfg, s, x))
    ensures Rows(Do(cfg, s, x))[id].status.Proposed? && Do(cfg, s, x).active == s.active
  {
    hide DoCreation, DoCoSign, DoBroadcast;
    if IsCreation(x) {
      AuditTrail.CreationLogs(cfg, s, x);
    } else {
      Creations.SigningKeeps(cfg, s, x);
    }
  }

  lemma StepKeepsFailure(cfg: Config, s: System, x: Step, id: string)
    requires AllInv(cfg, s) && id in Rows(Do(cfg, s, x)) && (id in Rows(s) ==> FailureOK(cfg, s, id))
    ensures FailureOK(cfg, Do(cfg, s, x), id)
  {
    hide AllInv, Do, Moves, FailureOK, Accepted;
    if id !in Rows(s) {
      NewRowFine(cfg, s, x, id);
    } else if Asks(x, id) && Rows(s)[id].status.Proposed? {
      if Grants(cfg, s, x.c, x.tx, x.signer, x.now, x.live) {
        AcceptedStep(cfg, s, x);
        AcceptedKeepsFailure(cfg, s, Do(cfg, s, x), x, id);
      } else {
        Refused(cfg, s, x);
      }
    } else {
      StepMoves(cfg, s, id, x);
      RowKeepsPayload(cfg, s, x, id);
      MovesKeepFailure(cfg, s, Do(cfg, s, x), id);
    }
  }

  lemma {:induction false} RunKeepsFailure(cfg: Config, steps: seq<Step>, id: string)
    requires id in Rows(At(cfg, steps))
    ensures FailureOK(cfg, At(cfg, steps), id)
    decreases |steps|
  {
    hide AllInv, Do, FailureOK;
    if steps != [] {
      var n := |steps| - 1;
      var s := At(cfg, steps[..n]);
      RunOK(cfg, steps[..n]);
      if id in Rows(s) { RunKeepsFailure(cfg, steps[..n], id); }
      StepKeepsFailure(cfg, s, steps[n], id);
    }
  }

  // ----- signatures are made for signable payloads only

  ghost predicate Signable(cfg: Config, p: Proposal) { !Signer.Unsignable(cfg, p.chain, p.raw) }

  ghost predicate SignedOK(cfg: Config, s: System) {
    && (forall c :: c in s.active && s.active[c].Enveloped? ==> Signable(cfg, s.active[c].snapshot))
    && (forall id :: id in s.winners ==> id in Rows(s) && Signable(cfg, Rows(s)[id]))
  }

  /** A call that has a signature had it before, or got it for a payload the signer accepts. */
  ghost predicate Envelopes(cfg: Config, s: System, t: System) {
    forall c :: c in t.active && t.active[c].Enveloped? ==>
      (c in s.active && s.active[c] == t.active[c]) || Signable(cfg, t.active[c].snapshot)
  }

  lemma CallEnvelopes(cfg: Config, s: System, t: System, c: Call)
    requires forall d :: d in t.active && d != c ==> d in s.active && t.active[d] == s.active[d]
    requires c in t.active && t.active[c].Enveloped? ==> Signable(cfg, t.active[c].snapshot)
    ensures Envelopes(cfg, s, t)
  {}

  lemma SignEnvelopes(cfg: Config, s: System, c: Call, p: Proposal, salt: int, live: bool)
    ensures Envelopes(cfg, s, DoSign(cfg, s, c, p, salt, live))
  {
    hide Signer.Sign, Signer.Unsignable, Envelopes;
    Signer.SignDecides(cfg, s.world.records, p, salt);
    if !live {
      CallEnvelopes(cfg, s, EndSigning(s, c), c);
    } else {
      match Signer.Sign(cfg, s.world.records, p, salt)
      case Ok(signed) => CallEnvelopes(cfg, s, s.(active := s.active[c := Enveloped(p, signed)]), c);
      case Err(cause) => CallEnvelopes(cfg, s, s.(active := s.active[c := Broken(p, cause)]), c);
    }
  }

  lemma SubmitEnvelopes(cfg: Config, s: System, c: Call, p: Proposal, refusal: Option<string>, live: bool)
    ensures Envelopes(cfg, s, DoSubmit(cfg, s, c, p, refusal, live))
  {
    hide Chains.Send, Envelopes;
    if !live {
      CallEnvelopes(cfg, s, EndSigning(s, c), c);
    } else {
      match Chains.Send(cfg, p, refusal)
      case Ok(hash) => CallEnvelopes(cfg, s, s.(active := s.active[c := Submitted(p, hash)]), c);
      case Err(cause) => CallEnvelopes(cfg, s, s.(active := s.active[c := Broken(p, cause)]), c);
    }
  }

  lemma ApprovalEnvelopes(cfg: Config, s: System, x: Step)
    requires x.GrantApproval?
    ensures Envelopes(cfg, s, DoApproval(cfg, s, x.c, x.tx, x.signer, x.now, x.live))
  {
    hide Grants, Envelopes;
    if Grants(cfg, s, x.c, x.tx, x.signer, x.now, x.live) {
      CallEnvelopes(cfg, s, DoApproval(cfg, s, x.c, x.tx, x.signer, x.now, x.live), x.c);
    } else {
      EndEnvelopes(cfg, s, x.c, AuditEvent(WalletCreated, "", "", "", 0), false);
    }
  }

  lemma AuditApprovalEnvelopes(cfg: Config, s: System, c: Call, p: Proposal, signer: string, now: Time, live: bool)
    ensures Envelopes(cfg, s, DoAuditApproval(s, c, p, signer, now, live))
  {
    hide Envelopes;
    CallEnvelopes(cfg, s, DoAuditApproval(s, c, p, signer, now, live), c);
  }

  lemma MarkEnvelopes(cfg: Config, s: System, c: Call, p: Proposal, signed: SignedTx, stamp: Option<Time>, live: bool)
    ensures Envelopes(cfg, s, DoMark(s, c, p, signed, stamp, live))
  {
    hide Envelopes, MarkSigned;
    CallEnvelopes(cfg, s, DoMark(s, c, p, signed, stamp, live), c);
  }

  lemma EndEnvelopes(cfg: Config, s: System, c: Call, e: AuditEvent, live: bool)
    ensures Envelopes(cfg, s, EndSigning(Log(s, e, live), c)) && Envelopes(cfg, s, s)
  {}

  lemma LoadEnvelopes(cfg: Config, s: System, c: Call, tx: string, live: bool)
    ensures Envelopes(cfg, s, DoLoad(cfg, s, c, tx, live))
  {
    hide Registered;
  }

  lemma RecordEnvelopes(cfg: Config, s: System, c: Call, p: Proposal, hash: string, now: Time, live: bool)
    ensures Envelopes(cfg, s, DoRecordBroadcast(s, c, p, hash, now, live))
    ensures Envelopes(cfg, s, DoRecordFailure(s, c, p, hash, now, live))
  {
    hide Envelopes;
    CallEnvelopes(cfg, s, DoRecordBroadcast(s, c, p, hash, now, live), c);
    CallEnvelopes(cfg, s, DoRecordFailure(s, c, p, hash, now, live), c);
  }

  lemma CoSignEnvelopes(cfg: Config, s: System, x: Step)
    requires IsCoSign(x)
    ensures Envelopes(cfg, s, DoCoSign(cfg, s, x))
  {
    hide Envelopes, DoApproval, DoMark, DoAuditApproval, DoSign, EndSigning, Log;
    EndEnvelopes(cfg, s, x.c, AuditEvent(WalletCreated, "", "", "", 0), false);
    if x.GrantApproval? {
      ApprovalEnvelopes(cfg, s, x);
    } else if x.c in s.active {
      var f := s.active[x.c];
      match x
      case Mark(c, stamp, live) => if f.Enveloped? { MarkEnvelopes(cfg, s, c, f.snapshot, f.signed, stamp, live); }
      case AuditApproval(c, now, live) => if f.Approved? { AuditApprovalEnvelopes(cfg, s, c, f.snapshot, f.signer, now, live); }
      case SignQuorum(c, salt, live) => SignEnvelopes(cfg, s, c, f.snapshot, salt, live);
      case AuditSigned(c, now, live) => EndEnvelopes(cfg, s, c, Event(TransactionSigned, "", f.snapshot, now), live);
      case _ =>
    }
  }

  lemma BroadcastEnvelopes(cfg: Config, s: System, x: Step)
    ensures Envelopes(cfg, s, DoBroadcast(cfg, s, x))
  {
    hide Envelopes, DoLoad, DoSubmit, DoRecordBroadcast, DoRecordFailure, EndSigning, Log;
    EndEnvelopes(cfg, s, x.c, AuditEvent(WalletCreated, "", "", "", 0), false);
    if x.Load? {
      LoadEnvelopes(cfg, s, x.c, x.tx, x.live);
    } else if x.c in s.active {
      var f := s.active[x.c];
      match x
      case Submit(c, refusal, live) => SubmitEnvelopes(cfg, s, c, f.snapshot, refusal, live);
      case RecordBroadcast(c, now, live) => if f.Submitted? { RecordEnvelopes(cfg, s, c, f.snapshot, f.hash, now, live); }
      case RecordFailure(c, now, live) => if f.Broken? { RecordEnvelopes(cfg, s, c, f.snapshot, f.cause, now, live); }
      case AuditBroadcast(c, now, live) => EndEnvelopes(cfg, s, c, Event(TransactionBroadcast, "", f.snapshot, now), live);
      case AuditFailure(c, now, live) => EndEnvelopes(cfg, s, c, Event(TransactionFailed, "", f.snapshot, now), live);
      case _ =>
    }
  }

  lemma StepEnvelopes(cfg: Config, s: System, x: Step)
    ensures Envelopes(cfg, s, Do(cfg, s, x))
  {
    hide DoCreation, DoCoSign, DoBroadcast;
    if IsCreation(x) {
      AuditTrail.CreationLogs(cfg, s, x);
    } else if IsCoSign(x) {
      CoSignEnvelopes(cfg, s, x);
    } else {
      BroadcastEnvelopes(cfg, s, x);
    }
  }

  /** A winner was made for a signable payload. */
  lemma StepKeepsSigned(cfg: Config, s: System, x: Step)
    requires AllInv(cfg, s) && SignedOK(cfg, s)
    ensures SignedOK(cfg, Do(cfg, s, x))
  {
    hide AllInv, Do, Signable;
    var t := Do(cfg, s, x);
    StepEnvelopes(cfg, s, x);
    forall id | id in t.winners ensures id in Rows(t) && Signable(cfg, Rows(t)[id]) {
      if id in s.winners {
        RowKeepsPayload(cfg, s, x, id);
        SamePayload(cfg, Rows(s)[id], Rows(t)[id]);
      } else {
        NewWinner(cfg, s, x, id, t.winners[id]);
        var p := s.active[x.c].snapshot;
        SnapshotIdentity(cfg, s, x.c);
        RowKeepsPayload(cfg, s, x, id);
        SamePayload(cfg, p, Rows(t)[id]);
      }
    }
  }

  lemma SamePayload(cfg: Config, p: Proposal, q: Proposal)
    requires p.chain == q.chain && p.raw == q.raw
    ensures Signable(cfg, p) <==> Signable(cfg, q)
  {}

  lemma SnapshotIdentity(cfg: Config, s: System, c: Call)
    requires AllInv(cfg, s) && c in s.active
    ensures var p := s.active[c].snapshot; p.id in Rows(s) && p.chain == Rows(s)[p.id].chain && p.raw == Rows(s)[p.id].raw
  {
    hide RowOK, HistoryOK, Creations.CreationInv, Nonces.LedgerInv, AuditTrail.TrailInv, Submap;
    assert FlowOK(s, s.active[c]);
  }

  lemma {:induction false} RunKeepsSigned(cfg: Config, steps: seq<Step>)
    ensures SignedOK(cfg, At(cfg, steps))
    decreases |steps|
  {
    hide AllInv, Do;
    if steps != [] {
      var n := |steps| - 1;
      RunKeepsSigned(cfg, steps[..n]);
      RunOK(cfg, steps[..n]);
      hide SignedOK;
      StepKeepsSigned(cfg, At(cfg, steps[..n]), steps[n]);
    }
  }

  // ----- the theorems

  /** What a row's status says about its payload, in every reachable state. */
  lemma StatusTells(cfg: Config, steps: seq<Step>, id: string)
    requires id in Rows(At(cfg, steps))
    ensures var p := Rows(At(cfg, steps))[id];
      && (p.status.Failed? ==> Signer.Unsignable(cfg, p.chain, p.raw) || Refusable(cfg, p.chain))
      && (p.status.Signed? || p.status.Broadcast? ==> !Signer.Unsignable(cfg, p.chain, p.raw))
  {
    hide Do, Signer.Unsignable;
    RunKeepsFailure(cfg, steps, id);
    RunKeepsSigned(cfg, steps);
    RunOK(cfg, steps);
    hide Creations.CreationInv, Nonces.LedgerInv, AuditTrail.TrailInv, FlowOK, HistoryOK;
    assert RowOK(cfg, At(cfg, steps), id);
  }

  /** Whoever has loaded or submitted a transaction holds a signature for it. */
  lemma SenderHasSignature(cfg: Config, s: System, id: string)
    requires AllInv(cfg, s) && SendThreat(s, id)
    ensures id in s.winners
  {
    hide RowOK, HistoryOK, SnapshotOK, Creations.CreationInv, Nonces.LedgerInv, AuditTrail.TrailInv;
    var c :| On(s, c, id) && MaySend(s.active[c]);
    assert FlowOK(s, s.active[c]);
  }

  /** A Broadcast or Failed row of a chain whose adapter cannot refuse keeps its status in every continuation. */
  lemma TerminalStatusAbsorbs(cfg: Config, a: seq<Step>, id: string)
    requires Terminal(At(cfg, a), id) && !Refusable(cfg, Rows(At(cfg, a))[id].chain)
    ensures StatusFinal(cfg, a, id)
  {
    hide AllInv, Do, Signer.Unsignable, FailThreat, SendThreat, StatusFinal;
    var s := At(cfg, a);
    StatusTells(cfg, a, id);
    RunKeepsFailure(cfg, a, id);
    RunKeepsSigned(cfg, a);
    RunOK(cfg, a);
    if SendThreat(s, id) { SenderHasSignature(cfg, s, id); }
    StatusFinalIff(cfg, a, id);
  }

  /** A signed transaction of a chain whose adapter cannot refuse never fails. */
  lemma SignedNeverFails(cfg: Config, a: seq<Step>, b: seq<Step>, id: string)
    requires id in Rows(At(cfg, a)) && Rows(At(cfg, a))[id].status.Signed? && !Refusable(cfg, Rows(At(cfg, a))[id].chain)
    ensures id in Rows(At(cfg, a + b)) && !Rows(At(cfg, a + b))[id].status.Failed?
  {
    hide AllInv, Do, Signer.Unsignable;
    StatusTells(cfg, a, id);
    StatusMovesForward(cfg, a, b, id);
    StatusTells(cfg, a + b, id);
  }
}
