/**
 * When an approval that was granted can disappear from the stored row. A call that fails writes back
 * the approvals it saw, so the row may end up without later ones; the exact condition, for every row
 * of every reachable state, on the calls in flight and on the signers that could still approve.
 */
module Losses {
  import opened Types
  import opened Setup
  import opened StoreSpec
  import opened Custody
  import opened Evolution
  import opened Runs
  import opened Finality
  import AuditTrail
  import Creations
  import Nonces
  import Signer = Signing

  /** Some granted approval is missing from the row. */
  ghost predicate Lost(s: System, id: string) {
    id in Rows(s) && Rows(s)[id].approvals != GrantedTo(s, id)
  }

  /** Only a Failed row can have lost one, and two others are still there. */
  lemma LostOnlyWhenFailed(cfg: Config, steps: seq<Step>, id: string)
    requires id in Rows(At(cfg, steps))
    ensures var s := At(cfg, steps);
      && Submap(Rows(s)[id].approvals, GrantedTo(s, id))
      && (Lost(s, id) ==> Rows(s)[id].status.Failed? && |Rows(s)[id].approvals| >= 2 && |GrantedTo(s, id)| >= 3)
  {
    RunOK(cfg, steps);
    var s := At(cfg, steps);
    assert RowOK(cfg, s, id);
    if Lost(s, id) { FewerKeys(Rows(s)[id].approvals, GrantedTo(s, id)); }
  }

  lemma FewerKeys(m: map<string, Approval>, n: map<string, Approval>)
    requires Submap(m, n) && m != n
    ensures |m| < |n|
  {
    assert m.Keys <= n.Keys && (m.Keys == n.Keys ==> m == n);
    var k :| k in n.Keys && k !in m.Keys;
    SubsetSize(m.Keys, n.Keys - {k});
  }

  /** A call that may fail the row holds fewer approvals than were granted. */
  ghost predicate LossThreat(cfg: Config, s: System, id: string) {
    exists c :: On(s, c, id) && MayFail(cfg, s.active[c]) && s.active[c].snapshot.approvals != GrantedTo(s, id)
  }

  /** A signer whose approval of `id` would be accepted. */
  ghost predicate Spare(cfg: Config, s: System, id: string, u: string) {
    u != "" && (cfg.allowedSigners == {} || u in cfg.allowedSigners) && u !in GrantedTo(s, id)
  }

  /** No signature is ever made for the row. */
  ghost predicate Hopeless(cfg: Config, s: System, id: string)
    requires id in Rows(s)
  {
    Signer.Unsignable(cfg, Rows(s)[id].chain, Rows(s)[id].raw)
  }

  /** Enough signers are left to bring a call that will fail to quorum and approve once more behind its back. */
  ghost predicate Overtakable(cfg: Config, s: System, id: string)
    requires id in Rows(s)
  {
    || (FailThreat(cfg, s, id) && exists u :: Spare(cfg, s, id, u))
    || (Hopeless(cfg, s, id) && GrantedTo(s, id) != map[]
        && exists u, v :: u != v && Spare(cfg, s, id, u) && Spare(cfg, s, id, v))
    || (Hopeless(cfg, s, id)
        && exists u, v, w :: u != v && v != w && u != w && Spare(cfg, s, id, u) && Spare(cfg, s, id, v) && Spare(cfg, s, id, w))
  }

  ghost predicate CanLose(cfg: Config, s: System, id: string)
    requires id in Rows(s)
  {
    Lost(s, id) || LossThreat(cfg, s, id) || (Rows(s)[id].status.Proposed? && Overtakable(cfg, s, id))
  }

  // ----- where it cannot happen, it never will

  /** The effect of an accepted approval. */
  ghost predicate Accepted(s: System, t: System, x: Step, id: string)
    requires x.GrantApproval?
  {
    && id in Rows(s) && id in Rows(t) && Rows(s)[id].status.Proposed? && Rows(t)[id].status.Proposed?
    && x.signer !in GrantedTo(s, id)
    && GrantedTo(t, id) == GrantedTo(s, id)[x.signer := Approval(x.signer, x.now)]
    && Rows(t)[id].approvals == GrantedTo(t, id)
    && Rows(t)[id].chain == Rows(s)[id].chain && Rows(t)[id].raw == Rows(s)[id].raw
    && x.c !in s.active && t.active == s.active[x.c := Approved(Rows(t)[id], x.signer)] && Rows(t)[id].id == id
  }

  lemma AcceptedStep(cfg: Config, s: System, x: Step)
    requires AllInv(cfg, s) && x.GrantApproval? && Grants(cfg, s, x.c, x.tx, x.signer, x.now, x.live)
    ensures Accepted(s, Do(cfg, s, x), x, x.tx) && Spare(cfg, s, x.tx, x.signer)
  {
    hide AllInv, Accepted, Spare, Do;
    RowHasAll(cfg, s, x.tx);
    AcceptedGrant(cfg, s, x);
  }

  lemma AcceptedGrant(cfg: Config, s: System, x: Step)
    requires x.GrantApproval? && Grants(cfg, s, x.c, x.tx, x.signer, x.now, x.live)
    requires x.tx in Rows(s) && Rows(s)[x.tx].approvals == GrantedTo(s, x.tx) && Rows(s)[x.tx].id == x.tx
    ensures Accepted(s, Do(cfg, s, x), x, x.tx) && Spare(cfg, s, x.tx, x.signer)
  {
    hide DoCreation, DoBroadcast;
    var t := DoApproval(cfg, s, x.c, x.tx, x.signer, x.now, x.live);
    assert Do(cfg, s, x) == t;
    hide Do, DoCoSign;
    assert t.active == s.active[x.c := Approved(Rows(t)[x.tx], x.signer)];
    assert GrantedTo(t, x.tx) == GrantedTo(s, x.tx)[x.signer := Approval(x.signer, x.now)];
  }

  lemma RowHasAll(cfg: Config, s: System, id: string)
    requires AllInv(cfg, s) && id in Rows(s) && !Rows(s)[id].status.Failed?
    ensures Rows(s)[id].approvals == GrantedTo(s, id) && Rows(s)[id].id == id
  {
    hide FlowOK, Creations.CreationInv, Nonces.LedgerInv, AuditTrail.TrailInv, SignersOK, Submap;
    assert RowOK(cfg, s, id);
  }

  lemma SpareShrinks(cfg: Config, s: System, t: System, x: Step, id: string, u: string)
    requires x.GrantApproval? && Accepted(s, t, x, id)
    ensures Spare(cfg, t, id, u) <==> Spare(cfg, s, id, u) && u != x.signer
  {}

  lemma AcceptedKeeps(cfg: Config, s: System, t: System, x: Step, id: string)
    requires x.GrantApproval? && Accepted(s, t, x, id) && Spare(cfg, s, id, x.signer) && !CanLose(cfg, s, id)
    ensures id in Rows(t) && !CanLose(cfg, t, id)
  {
    forall u ensures Spare(cfg, t, id, u) <==> Spare(cfg, s, id, u) && u != x.signer { SpareShrinks(cfg, s, t, x, id, u); }
    hide Spare;
    assert !FailThreat(cfg, s, id);
    forall c | On(t, c, id) && MayFail(cfg, t.active[c]) ensures c == x.c { assert c != x.c ==> On(s, c, id); }
    assert !LossThreat(cfg, t, id);
    if GrantedTo(s, id) == map[] {
      assert |GrantedTo(t, id)| == 1;
      assert !FailThreat(cfg, t, id);
    }
  }

  lemma OtherKeeps(cfg: Config, s: System, t: System, id: string)
    requires Inv(cfg, s) && Moves(cfg, s, t, id) && !CanLose(cfg, s, id)
    requires Rows(t)[id].chain == Rows(s)[id].chain && Rows(t)[id].raw == Rows(s)[id].raw
    ensures id in Rows(t) && !CanLose(cfg, t, id)
  {
    hide RowOK, HistoryOK, SnapshotOK;
    forall c | On(s, c, id) && MaySend(s.active[c]) ensures s.active[c].snapshot.approvals == GrantedTo(s, id) {
      assert FlowOK(s, s.active[c]);
    }
    hide FlowOK;
    assert forall u :: Spare(cfg, t, id, u) <==> Spare(cfg, s, id, u);
    hide Spare;
    assert forall c :: On(t, c, id) ==> CallMoves(cfg, s, t, id, c);
  }

  lemma StepKeeps(cfg: Config, s: System, x: Step, id: string)
    requires AllInv(cfg, s) && id in Rows(s) && !CanLose(cfg, s, id)
    ensures id in Rows(Do(cfg, s, x)) && !CanLose(cfg, Do(cfg, s, x), id)
  {
    hide AllInv, Moves, CanLose, Accepted, Do, Spare, Inv;
    AllCore(cfg, s);
    if Asks(x, id) && Rows(s)[id].status.Proposed? {
      if Grants(cfg, s, x.c, x.tx, x.signer, x.now, x.live) {
        AcceptedStep(cfg, s, x);
        AcceptedKeeps(cfg, s, Do(cfg, s, x), x, id);
      } else {
        Refused(cfg, s, x);
      }
    } else {
      StepMoves(cfg, s, id, x);
      RowKeepsPayload(cfg, s, x, id);
      OtherKeeps(cfg, s, Do(cfg, s, x), id);
    }
  }

  lemma RowKeepsPayload(cfg: Config, s: System, x: Step, id: string)
    requires AllInv(cfg, s) && id in Rows(s)
    ensures var t := Do(cfg, s, x); id in Rows(t) && Rows(t)[id].chain == Rows(s)[id].chain && Rows(t)[id].raw == Rows(s)[id].raw
  {
    hide AllInv, Do;
    NextOK(cfg, s, x);
    hide Submap;
    assert RowEvolves(s, Do(cfg, s, x), id);
  }

  lemma Refused(cfg: Config, s: System, x: Step)
    requires x.GrantApproval? && !Grants(cfg, s, x.c, x.tx, x.signer, x.now, x.live)
    ensures Do(cfg, s, x) == s
  {
    hide Grants;
  }

  lemma {:induction false} NeverLost(cfg: Config, a: seq<Step>, b: seq<Step>, id: string)
    requires id in Rows(At(cfg, a)) && !CanLose(cfg, At(cfg, a), id)
    ensures id in Rows(At(cfg, a + b)) && !CanLose(cfg, At(cfg, a + b), id)
    decreases |b|
  {
    hide AllInv, CanLose, Do;
    if b == [] {
      assert a + b == a;
    } else {
      var n := |b| - 1;
      NeverLost(cfg, a, b[..n], id);
      RunOK(cfg, a + b[..n]);
      assert (a + b)[..|a + b| - 1] == a + b[..n];
      StepKeeps(cfg, At(cfg, a + b[..n]), b[n], id);
    }
  }

  // ----- where it can happen, some run makes it happen

  lemma ThreatLoses(cfg: Config, a: seq<Step>, id: string) returns (b: seq<Step>)
    requires id in Rows(At(cfg, a)) && LossThreat(cfg, At(cfg, a), id)
    ensures Lost(At(cfg, a + b), id)
  {
    hide AllInv, Do;
    var s := At(cfg, a);
    var c :| On(s, c, id) && MayFail(cfg, s.active[c]) && s.active[c].snapshot.approvals != GrantedTo(s, id);
    b := ThreatFails(cfg, a, id, c, 0);
  }

  lemma {:induction false} UnusedCall(active: map<Call, Flow>) returns (c: Call)
    ensures forall d :: d in active ==> d < c
    decreases |active|
  {
    if active == map[] {
      c := 0;
    } else {
      var d :| d in active;
      var rest := active - {d};
      assert rest.Keys == active.Keys - {d};
      c := UnusedCall(rest);
      assert forall e :: e in active ==> e == d || e in rest;
      c := if c <= d then d + 1 else c;
    }
  }

  /** A spare signer's approval of a Proposed row is accepted. */
  lemma ApproveNext(cfg: Config, a: seq<Step>, id: string, u: string) returns (x: Step)
    requires var s := At(cfg, a); id in Rows(s) && Rows(s)[id].status.Proposed? && Spare(cfg, s, id, u)
    ensures x.GrantApproval? && x.signer == u && Accepted(At(cfg, a), At(cfg, a + [x]), x, id)
  {
    hide AllInv, Accepted, Do;
    var s := At(cfg, a);
    var c := UnusedCall(s.active);
    x := GrantApproval(c, id, u, 0, true);
    RunOK(cfg, a);
    RowHasAll(cfg, s, id);
    Extend(cfg, a, x);
    AcceptedStep(cfg, s, x);
  }

  /** A call at quorum is overtaken by one more approval. */
  lemma OneMoreLoses(cfg: Config, a: seq<Step>, id: string, u: string) returns (b: seq<Step>)
    requires var s := At(cfg, a); id in Rows(s) && Rows(s)[id].status.Proposed? && Spare(cfg, s, id, u) && FailThreat(cfg, s, id)
    ensures Lost(At(cfg, a + b), id)
  {
    hide AllInv, Do, Spare, Lost;
    var s := At(cfg, a);
    var c :| On(s, c, id) && MayFail(cfg, s.active[c]);
    if s.active[c].snapshot.approvals != GrantedTo(s, id) {
      b := ThreatLoses(cfg, a, id);
    } else {
      var x := ApproveNext(cfg, a, id, u);
      var t := At(cfg, a + [x]);
      assert On(t, c, id) && u in GrantedTo(t, id) && u !in t.active[c].snapshot.approvals;
      b := ThreatLoses(cfg, a + [x], id);
      b := [x] + b;
      assert a + b == a + [x] + b[1..];
    }
  }

  lemma TwoMoreLose(cfg: Config, a: seq<Step>, id: string, u: string, v: string) returns (b: seq<Step>)
    requires var s := At(cfg, a);
      id in Rows(s) && Rows(s)[id].status.Proposed? && GrantedTo(s, id) != map[] && Hopeless(cfg, s, id)
    requires var s := At(cfg, a); u != v && Spare(cfg, s, id, u) && Spare(cfg, s, id, v)
    ensures Lost(At(cfg, a + b), id)
  {
    hide AllInv, Do, Lost;
    var x := ApproveNext(cfg, a, id, u);
    var s, t := At(cfg, a), At(cfg, a + [x]);
    SpareShrinks(cfg, s, t, x, id, v);
    hide Spare;
    TwoNow(GrantedTo(s, id), u, Approval(u, x.now));
    assert On(t, x.c, id) && MayFail(cfg, t.active[x.c]);
    b := OneMoreLoses(cfg, a + [x], id, v);
    b := [x] + b;
    assert a + b == a + [x] + b[1..];
  }

  lemma TwoNow(m: map<string, Approval>, u: string, a: Approval)
    requires m != map[] && u !in m
    ensures |m[u := a]| >= 2
  {
    var k :| k in m;
    assert {k, u} <= m[u := a].Keys;
    SubsetSize({k, u}, m[u := a].Keys);
  }

  lemma ThreeMoreLose(cfg: Config, a: seq<Step>, id: string, u: string, v: string, w: string) returns (b: seq<Step>)
    requires var s := At(cfg, a); id in Rows(s) && Rows(s)[id].status.Proposed? && Hopeless(cfg, s, id)
    requires var s := At(cfg, a);
      u != v && v != w && u != w && Spare(cfg, s, id, u) && Spare(cfg, s, id, v) && Spare(cfg, s, id, w)
    ensures Lost(At(cfg, a + b), id)
  {
    hide AllInv, Do, Lost;
    var x := ApproveNext(cfg, a, id, u);
    var s, t := At(cfg, a), At(cfg, a + [x]);
    SpareShrinks(cfg, s, t, x, id, v);
    SpareShrinks(cfg, s, t, x, id, w);
    hide Spare;
    assert u in GrantedTo(t, id);
    b := TwoMoreLose(cfg, a + [x], id, v, w);
    b := [x] + b;
    assert a + b == a + [x] + b[1..];
  }

  lemma OvertakenLoses(cfg: Config, a: seq<Step>, id: string) returns (b: seq<Step>)
    requires var s := At(cfg, a); id in Rows(s) && Rows(s)[id].status.Proposed? && Overtakable(cfg, s, id)
    ensures Lost(At(cfg, a + b), id)
  {
    hide AllInv, Do, Lost, Spare, FailThreat;
    var s := At(cfg, a);
    if u :| FailThreat(cfg, s, id) && Spare(cfg, s, id, u) {
      b := OneMoreLoses(cfg, a, id, u);
    } else if u, v :| Hopeless(cfg, s, id) && GrantedTo(s, id) != map[] && u != v && Spare(cfg, s, id, u) && Spare(cfg, s, id, v) {
      b := TwoMoreLose(cfg, a, id, u, v);
    } else {
      var u, v, w :| u != v && v != w && u != w && Spare(cfg, s, id, u) && Spare(cfg, s, id, v) && Spare(cfg, s, id, w);
      b := ThreeMoreLose(cfg, a, id, u, v, w);
    }
  }

  /**
   * A row loses a granted approval in some continuation if and only if it has lost one, or a call
   * that may fail it holds fewer than were granted, or it is still Proposed and enough signers are
   * left to overtake a call that will fail.
   */
  lemma LostIff(cfg: Config, a: seq<Step>, id: string)
    requires id in Rows(At(cfg, a))
    ensures (exists b :: Lost(At(cfg, a + b), id)) <==> CanLose(cfg, At(cfg, a), id)
  {
    hide AllInv, Do, LossThreat, Overtakable, Lost;
    var s := At(cfg, a);
    if CanLose(cfg, s, id) {
      var b: seq<Step> := [];
      assert a + [] == a;
      if LossThreat(cfg, s, id) {
        b := ThreatLoses(cfg, a, id);
      } else if !Lost(s, id) {
        b := OvertakenLoses(cfg, a, id);
      }
      assert Lost(At(cfg, a + b), id);
    } else {
      forall b ensures !Lost(At(cfg, a + b), id) { NeverLost(cfg, a, b, id); }
    }
  }

  /** Past Proposed only the calls in flight matter. */
  lemma LostIffClosed(cfg: Config, a: seq<Step>, id: string)
    requires id in Rows(At(cfg, a)) && !Rows(At(cfg, a))[id].status.Proposed? && !Lost(At(cfg, a), id)
    ensures (exists b :: Lost(At(cfg, a + b), id)) <==> LossThreat(cfg, At(cfg, a), id)
  {
    hide AllInv, Do, LossThreat, Lost;
    LostIff(cfg, a, id);
  }
}
