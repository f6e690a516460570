/**
 * What holds of every run of the service: any number of calls, any interleaving of their steps,
 * any failures. A run is a list of steps from the empty system.
 */
module Runs {
  import opened Types
  import opened Amounts
  import opened Setup
  import opened StoreSpec
  import opened Chains
  import opened Custody
  import opened Evolution
  import opened Creations
  import opened Nonces
  import opened AuditTrail
  import Signer = Signing

  ghost function At(cfg: Config, steps: seq<Step>): System { Exec(cfg, INIT, steps) }

  ghost predicate AllInv(cfg: Config, s: System) {
    Inv(cfg, s) && CreationInv(cfg, s) && LedgerInv(s) && TrailInv(s)
  }

  lemma {:induction false} RunOK(cfg: Config, steps: seq<Step>)
    ensures AllInv(cfg, At(cfg, steps))
    decreases |steps|
  {
    hide Inv, CreationInv, LedgerInv, TrailInv, Evolves, Do;
    if steps == [] {
      InitOK(cfg);
    } else {
      var n := |steps| - 1;
      RunOK(cfg, steps[..n]);
      NextOK(cfg, At(cfg, steps[..n]), steps[n]);
    }
  }

  lemma InitOK(cfg: Config)
    ensures AllInv(cfg, INIT)
  {}

  lemma NextOK(cfg: Config, s: System, x: Step)
    requires AllInv(cfg, s)
    ensures AllInv(cfg, Do(cfg, s, x)) && Evolves(s, Do(cfg, s, x))
  {
    hide Inv, CreationInv, LedgerInv, TrailInv, Evolves, Do;
    StepOK(cfg, s, x);
    CreationStepOK(cfg, s, x);
    LedgerStepOK(cfg, s, x);
    TrailStepOK(cfg, s, x);
  }

  /** The guarantee of single steps carries over to every later state of the run. */
  lemma {:induction false} RunEvolves(cfg: Config, a: seq<Step>, b: seq<Step>)
    ensures Evolves(At(cfg, a), At(cfg, a + b))
    decreases |b|
  {
    hide AllInv, Evolves, Do;
    if b == [] {
      RunOK(cfg, a);
      assert a + b == a;
      StillEvolves(cfg, At(cfg, a));
    } else {
      var n := |b| - 1;
      var c := a + b[..n];
      RunEvolves(cfg, a, b[..n]);
      RunOK(cfg, c);
      assert (a + b)[..|a + b| - 1] == c;
      NextOK(cfg, At(cfg, c), b[n]);
      EvolvesTrans(At(cfg, a), At(cfg, c), At(cfg, a + b));
    }
  }

  lemma StillEvolves(cfg: Config, s: System)
    requires AllInv(cfg, s)
    ensures Evolves(s, s)
  {
    hide Inv, Evolves;
    NoStep(cfg, s, 0);
  }

  // ----- approvals

  /** A transaction past Proposed has approvals of two distinct named signers, all allowed by the policy. */
  lemma QuorumHolds(cfg: Config, steps: seq<Step>, id: string)
    requires var s := At(cfg, steps); id in Rows(s) && !Rows(s)[id].status.Proposed?
    ensures var p := Rows(At(cfg, steps))[id];
      && (exists a, b :: a in p.approvals && b in p.approvals && a != b)
      && (forall a :: a in p.approvals ==> a != "" && p.approvals[a].signerID == a && (cfg.allowedSigners == {} || a in cfg.allowedSigners))
  {
    RunOK(cfg, steps);
    var s := At(cfg, steps);
    assert RowOK(cfg, s, id);
    TwoKeys(Rows(s)[id].approvals);
  }

  lemma TwoKeys<V>(m: map<string, V>)
    requires |m| >= 2
    ensures exists a, b :: a in m && b in m && a != b
  {
    var a :| a in m;
    var rest := m.Keys - {a};
    assert |rest| == |m.Keys| - 1;
    var b :| b in rest;
    assert a in m && b in m && a != b;
  }

  /**
   * However old, the copy a call holds has the stored identity, and while the row is still Proposed
   * only approvals that the row has too. Only a failed row can lack an approval that was granted.
   */
  lemma SnapshotsAreBehind(cfg: Config, steps: seq<Step>, c: Call)
    requires c in At(cfg, steps).active
    ensures var s := At(cfg, steps); var p := s.active[c].snapshot;
      && p.id in Rows(s) && SameIdentity(p, Rows(s)[p.id])
      && (!Rows(s)[p.id].status.Failed? ==> Submap(p.approvals, Rows(s)[p.id].approvals))
  {
    RunOK(cfg, steps);
    var s := At(cfg, steps);
    assert FlowOK(s, s.active[c]);
    assert RowOK(cfg, s, s.active[c].snapshot.id);
  }

  /** Each signer's approval of a transaction is accepted at most once in a run. */
  lemma ApprovedOnce(cfg: Config, a: seq<Step>, x: Step, b: seq<Step>, y: Step)
    requires x.GrantApproval? && y.GrantApproval? && x.tx == y.tx && x.signer == y.signer
    requires Grants(cfg, At(cfg, a), x.c, x.tx, x.signer, x.now, x.live)
    ensures !Grants(cfg, At(cfg, a + [x] + b), y.c, y.tx, y.signer, y.now, y.live)
  {
    hide AllInv, Inv, Evolves;
    var s, t := At(cfg, a + [x]), At(cfg, a + [x] + b);
    assert (a + [x])[..|a|] == a;
    assert (x.tx, x.signer) in s.grantee;
    RunEvolves(cfg, a + [x], b);
    GranteeKept(s, t, (x.tx, x.signer));
    RunOK(cfg, a + [x] + b);
    if Grants(cfg, t, y.c, y.tx, y.signer, y.now, y.live) {
      AllCore(cfg, t);
      GrantIsNew(cfg, t, y.c, y.tx, y.signer, y.now, y.live);
    }
  }

  lemma GranteeKept(s: System, t: System, k: (string, string))
    requires Evolves(s, t) && k in s.grantee
    ensures k in t.grantee
  {
    hide RowsEvolve;
  }

  lemma AllCore(cfg: Config, s: System)
    requires AllInv(cfg, s)
    ensures Inv(cfg, s)
  {}

  // ----- lifecycle

  /** Status rank never decreases and what was fixed at proposal time never changes. */
  lemma StatusMovesForward(cfg: Config, a: seq<Step>, b: seq<Step>, id: string)
    requires id in Rows(At(cfg, a))
    ensures id in Rows(At(cfg, a + b))
    ensures var p, q := Rows(At(cfg, a))[id], Rows(At(cfg, a + b))[id];
      && Rank(p.status) <= Rank(q.status)
      && (q.status.Proposed? ==> p.status.Proposed?) && (q.status.Signed? ==> p.status.Proposed? || p.status.Signed?)
      && SameIdentity(p, q)
      && (p.status.Signed? && q.status.Signed? ==> p == q)
      && (q.status.Proposed? ==> Submap(p.approvals, q.approvals))
  {
    RunEvolves(cfg, a, b);
    RunOK(cfg, a);
    RunOK(cfg, a + b);
    var s, t := At(cfg, a), At(cfg, a + b);
    RowForward(cfg, s, t, id);
  }

  lemma RowForward(cfg: Config, s: System, t: System, id: string)
    requires AllInv(cfg, s) && AllInv(cfg, t) && Evolves(s, t) && id in Rows(s)
    ensures RowEvolves(s, t, id) && RowOK(cfg, s, id) && RowOK(cfg, t, id)
  {
    hide CreationInv, LedgerInv, TrailInv, FlowOK, HistoryOK, RowOK, Submap;
    assert RowEvolves(s, t, id);
  }

  /** The log only grows; wallets, idempotency records and key records are never changed or removed. */
  lemma NothingIsForgotten(cfg: Config, a: seq<Step>, b: seq<Step>)
    ensures var s, t := At(cfg, a), At(cfg, a + b);
      && AuditLog(s) <= AuditLog(t)
      && Submap(Wallets(s), Wallets(t)) && Submap(Idempotency(s), Idempotency(t))
      && Submap(s.world.records, t.world.records)
  {
    hide Submap, RowsEvolve;
    RunEvolves(cfg, a, b);
  }

  // ----- what is sent to a chain

  /** Step `x` in state `s` hands `payload` to the adapter for transaction `id`. */
  ghost predicate Submits(s: System, x: Step, id: string, payload: SignedTx) {
    && x.Submit? && x.c in s.active && s.active[x.c].Loaded?
    && s.active[x.c].snapshot.id == id && s.active[x.c].snapshot.signed == payload
  }

  /** Step `x` in state `s` is a MarkTransactionSigned that stores `payload` for transaction `id`. */
  ghost predicate MarksWith(s: System, x: Step, id: string, payload: SignedTx) {
    && x.Mark? && x.c in s.active && s.active[x.c].Enveloped?
    && s.active[x.c].snapshot.id == id && s.active[x.c].signed == payload
    && Wins(s, id, x.live)
  }

  lemma SubmittedWon(cfg: Config, steps: seq<Step>, x: Step, id: string, payload: SignedTx)
    requires Submits(At(cfg, steps), x, id, payload)
    ensures Won(At(cfg, steps), id, payload)
  {
    RunOK(cfg, steps);
    var s := At(cfg, steps);
    assert FlowOK(s, s.active[x.c]);
  }

  /** All submissions of one transaction, by whichever calls, carry the same payload. */
  lemma OnePayload(cfg: Config, a: seq<Step>, x: Step, b: seq<Step>, y: Step, id: string, p: SignedTx, q: SignedTx)
    requires Submits(At(cfg, a), x, id, p) && Submits(At(cfg, a + b), y, id, q)
    ensures p == q
  {
    hide Submits, AllInv, Do;
    SubmittedWon(cfg, a, x, id, p);
    SubmittedWon(cfg, a + b, y, id, q);
    RunEvolves(cfg, a, b);
    WonKept(At(cfg, a), At(cfg, a + b), id, p);
  }

  lemma WonKept(s: System, t: System, id: string, p: SignedTx)
    requires Evolves(s, t) && Won(s, id, p)
    ensures Won(t, id, p)
  {
    hide RowsEvolve;
  }

  /** A recorded winner was stored by some step of the run. */
  lemma {:induction false} WonByMark(cfg: Config, steps: seq<Step>, id: string, payload: SignedTx) returns (k: nat)
    requires Won(At(cfg, steps), id, payload)
    ensures k < |steps| && MarksWith(At(cfg, steps[..k]), steps[k], id, payload)
    decreases |steps|
  {
    hide Do;
    var n := |steps| - 1;
    var s := At(cfg, steps[..n]);
    if Won(s, id, payload) {
      k := WonByMark(cfg, steps[..n], id, payload);
      assert steps[..n][..k] == steps[..k];
    } else {
      NewWinner(cfg, s, steps[n], id, payload);
      k := n;
    }
  }

  lemma NewWinner(cfg: Config, s: System, x: Step, id: string, payload: SignedTx)
    requires Won(Do(cfg, s, x), id, payload) && !Won(s, id, payload)
    ensures MarksWith(s, x, id, payload)
  {
    if !x.Mark? { OnlyMarkWins(cfg, s, x); }
  }

  lemma OnlyMarkWins(cfg: Config, s: System, x: Step)
    requires !x.Mark?
    ensures Do(cfg, s, x).winners == s.winners
  {
    hide DoCreation, DoCoSign, DoBroadcast;
    if IsCreation(x) {
      CreationLogs(cfg, s, x);
    } else if IsCoSign(x) {
      CoSignWins(cfg, s, x);
    } else {
      BroadcastWins(cfg, s, x);
    }
  }

  lemma CoSignWins(cfg: Config, s: System, x: Step)
    requires !x.Mark?
    ensures DoCoSign(cfg, s, x).winners == s.winners
  {
    hide DoSign, Grants;
    if x.SignQuorum? && x.c in s.active && s.active[x.c].Quorum? {
      SignWins(cfg, s, x.c, s.active[x.c].snapshot, x.salt, x.live);
    }
  }

  lemma SignWins(cfg: Config, s: System, c: Call, p: Proposal, salt: int, live: bool)
    ensures DoSign(cfg, s, c, p, salt, live).winners == s.winners
  {
    hide Signer.Sign;
  }

  lemma BroadcastWins(cfg: Config, s: System, x: Step)
    ensures DoBroadcast(cfg, s, x).winners == s.winners
  {
    hide Loads, DoSubmit;
    if x.Submit? && x.c in s.active { SubmitWins(cfg, s, x.c, s.active[x.c].snapshot, x.refusal, x.live); }
  }

  lemma SubmitWins(cfg: Config, s: System, c: Call, p: Proposal, refusal: Option<string>, live: bool)
    ensures DoSubmit(cfg, s, c, p, refusal, live).winners == s.winners
  {}

  /** What goes to the chain is exactly what one MarkTransactionSigned of this run stored. */
  lemma SubmittedWasMarked(cfg: Config, steps: seq<Step>, x: Step, id: string, payload: SignedTx) returns (k: nat)
    requires Submits(At(cfg, steps), x, id, payload)
    ensures k < |steps| && MarksWith(At(cfg, steps[..k]), steps[k], id, payload)
  {
    hide MarksWith, Submits;
    SubmittedWon(cfg, steps, x, id, payload);
    k := WonByMark(cfg, steps, id, payload);
  }

  /** MarkTransactionSigned wins at most once per transaction, whatever signatures the calls hold. */
  lemma MarkedOnce(cfg: Config, a: seq<Step>, x: Step, b: seq<Step>, y: Step, id: string, p: SignedTx, q: SignedTx)
    requires MarksWith(At(cfg, a), x, id, p)
    ensures !MarksWith(At(cfg, a + [x] + b), y, id, q)
  {
    hide AllInv, Inv, Evolves;
    var s, t := At(cfg, a + [x]), At(cfg, a + [x] + b);
    assert (a + [x])[..|a|] == a;
    assert Won(s, id, p);
    RunEvolves(cfg, a + [x], b);
    WonKept(s, t, id, p);
    RunOK(cfg, a + [x] + b);
    if Wins(t, id, true) {
      AllCore(cfg, t);
      WinIsNew(cfg, t, id, true);
    }
  }

  // ----- the log

  /** No two events report the same approval or the signing of the same transaction. */
  lemma ReportedOnce(cfg: Config, steps: seq<Step>, i: nat, j: nat)
    requires i < j < |AuditLog(At(cfg, steps))|
    ensures var log := AuditLog(At(cfg, steps)); !SameReport(log[i], log[j])
  {
    hide CreationInv, LedgerInv, RowOK, FlowOK, Do;
    RunOK(cfg, steps);
  }

  /** Every event that reports an approval or a signing, the newest included, reports one that happened. */
  lemma ReportsAreReal(cfg: Config, steps: seq<Step>, i: nat)
    requires i < |AuditLog(At(cfg, steps))|
    ensures var s := At(cfg, steps); var e := AuditLog(s)[i];
      && (e.kind.TransactionApproved? ==> e.actor in GrantedTo(s, e.resourceID))
      && (e.kind.TransactionSigned? ==> e.resourceID in s.winners)
  {
    RunOK(cfg, steps);
    EventIsReal(cfg, At(cfg, steps), i);
  }

  lemma EventIsReal(cfg: Config, s: System, i: nat)
    requires AllInv(cfg, s) && i < |AuditLog(s)|
    ensures var e := AuditLog(s)[i];
      && (e.kind.TransactionApproved? ==> e.actor in GrantedTo(s, e.resourceID))
      && (e.kind.TransactionSigned? ==> e.resourceID in s.winners)
  {
    hide CreationInv, LedgerInv, RowOK, FlowOK;
    var e := AuditLog(s)[i];
    assert EventOK(s, e);
    if e.kind.TransactionApproved? {
      assert (e.resourceID, e.actor) in s.grantee;
    }
  }
}
