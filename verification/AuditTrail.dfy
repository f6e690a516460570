/**
 * The audit log against the approvals and signatures it reports: each successful approval is
 * reported at most once, each transaction is reported signed at most once, and nothing is
 * reported that did not happen, however calls interleave and rows are overwritten.
 */
module AuditTrail {
  import opened Types
  import opened Setup
  import opened StoreSpec
  import opened Custody
  import opened Evolution
  import Chains
  import Signer = Signing

  function AuditLog(s: System): seq<AuditEvent> { s.world.store.audit }

  /** The two events report the same approval, or the same signing. */
  predicate SameReport(e: AuditEvent, f: AuditEvent) {
    && e.kind == f.kind && e.resourceID == f.resourceID
    && (e.kind.TransactionSigned? || (e.kind.TransactionApproved? && e.actor == f.actor))
  }

  /** The event that call state `f` is about to append, when it reports an approval or a signing. */
  predicate Due(f: Flow, e: AuditEvent) {
    || (f.Approved? && e.kind.TransactionApproved? && e.resourceID == f.snapshot.id && e.actor == f.signer)
    || (f.Marked? && e.kind.TransactionSigned? && e.resourceID == f.snapshot.id)
  }

  predicate Reporter(f: Flow) { f.Approved? || f.Marked? }

  /** Which call achieved what the event reports, if any did. */
  ghost predicate AchievedBy(s: System, e: AuditEvent, c: Call) {
    || (e.kind.TransactionApproved? && (e.resourceID, e.actor) in s.grantee && s.grantee[(e.resourceID, e.actor)] == c)
    || (e.kind.TransactionSigned? && e.resourceID in s.marker && s.marker[e.resourceID] == c)
  }

  ghost predicate EventOK(s: System, e: AuditEvent) {
    e.kind.TransactionApproved? || e.kind.TransactionSigned? ==>
      exists c :: AchievedBy(s, e, c) && (c in s.active ==> !Due(s.active[c], e))
  }

  ghost predicate CallOK(s: System, c: Call)
    requires c in s.active
  {
    && (s.active[c].Approved? ==>
          var k := (s.active[c].snapshot.id, s.active[c].signer); k in s.grantee && s.grantee[k] == c)
    && (s.active[c].Marked? ==> s.active[c].snapshot.id in s.marker && s.marker[s.active[c].snapshot.id] == c)
  }

  ghost predicate TrailInv(s: System) {
    && (forall i, j :: 0 <= i < j < |AuditLog(s)| ==> !SameReport(AuditLog(s)[i], AuditLog(s)[j]))
    && (forall i :: 0 <= i < |AuditLog(s)| ==> EventOK(s, AuditLog(s)[i]))
    && (forall c :: c in s.active ==> CallOK(s, c))
  }

  /** Call `c` achieves something new, or moves on without reporting an approval or a signing. */
  ghost predicate Unreported(s: System, t: System, c: Call) {
    && OtherCallsKept(s, t, c)
    && Submap(s.grantee, t.grantee) && Submap(s.marker, t.marker)
    && (c in t.active && Reporter(t.active[c]) ==>
          && CallOK(t, c)
          && (|| (c in s.active && t.active[c] == s.active[c])
              || (t.active[c].Approved? && (t.active[c].snapshot.id, t.active[c].signer) !in s.grantee)
              || (t.active[c].Marked? && t.active[c].snapshot.id !in s.marker)))
  }

  /** At most one event was appended, and it reports neither an approval nor a signing. */
  ghost predicate NoReport(before: seq<AuditEvent>, after: seq<AuditEvent>) {
    || after == before
    || (before < after && |after| == |before| + 1
        && !after[|before|].kind.TransactionApproved? && !after[|before|].kind.TransactionSigned?)
  }

  lemma UnreportedEvent(s: System, t: System, c: Call, e: AuditEvent)
    requires EventOK(s, e) && Unreported(s, t, c)
    ensures EventOK(t, e)
  {
    if e.kind.TransactionApproved? || e.kind.TransactionSigned? {
      var d :| AchievedBy(s, e, d) && (d in s.active ==> !Due(s.active[d], e));
      assert AchievedBy(t, e, d);
    }
  }

  lemma UnreportedTrail(s: System, t: System, c: Call)
    requires TrailInv(s) && Unreported(s, t, c)
    requires NoReport(AuditLog(s), AuditLog(t))
    ensures TrailInv(t)
  {
    hide EventOK, Submap;
    forall i | 0 <= i < |AuditLog(s)| ensures EventOK(t, AuditLog(s)[i]) {
      UnreportedEvent(s, t, c, AuditLog(s)[i]);
    }
    forall d | d in t.active ensures CallOK(t, d) { UnreportedCall(s, t, c, d); }
    forall i | 0 <= i < |AuditLog(t)| ensures EventOK(t, AuditLog(t)[i]) {
      if i == |AuditLog(s)| { PlainEvent(t, AuditLog(t)[i]); }
    }
  }

  lemma PlainEvent(t: System, e: AuditEvent)
    requires !e.kind.TransactionApproved? && !e.kind.TransactionSigned?
    ensures EventOK(t, e)
  {}

  lemma UnreportedCall(s: System, t: System, c: Call, d: Call)
    requires Unreported(s, t, c) && d in t.active
    requires d in s.active ==> CallOK(s, d)
    ensures CallOK(t, d)
  {}

  /** Call `c` appends the event it owes and moves on. */
  lemma ReportedTrail(s: System, t: System, c: Call, e: AuditEvent)
    requires TrailInv(s) && c in s.active && Due(s.active[c], e)
    requires AuditLog(t) == AuditLog(s) + [e]
    requires OtherCallsKept(s, t, c) && t.grantee == s.grantee && t.marker == s.marker
    requires c in t.active ==> !Reporter(t.active[c])
    ensures TrailInv(t)
  {
    assert CallOK(s, c);
    assert AchievedBy(s, e, c);
    SubmapRefl(s.grantee);
    SubmapRefl(s.marker);
    forall i | 0 <= i < |AuditLog(s)| ensures EventOK(t, AuditLog(s)[i]) && !SameReport(AuditLog(s)[i], e) {
      UnreportedEvent(s, t, c, AuditLog(s)[i]);
      FirstReport(s, c, AuditLog(s)[i], e);
    }
    assert EventOK(t, e) by { assert AchievedBy(t, e, c); }
    forall d | d in t.active ensures CallOK(t, d) { UnreportedCall(s, t, c, d); }
  }

  lemma FirstReport(s: System, c: Call, earlier: AuditEvent, e: AuditEvent)
    requires EventOK(s, earlier) && c in s.active && Due(s.active[c], e) && AchievedBy(s, e, c)
    ensures !SameReport(earlier, e)
  {}

  // ----- the steps

  /** Call `c` moves to a state that reports nothing, or ends; the history stands still. */
  lemma MovesOn(s: System, t: System, c: Call)
    requires TrailInv(s) && OtherCallsKept(s, t, c) && t.grantee == s.grantee && t.marker == s.marker
    requires c in t.active ==> !Reporter(t.active[c]) || (c in s.active && t.active[c] == s.active[c])
    requires NoReport(AuditLog(s), AuditLog(t))
    ensures TrailInv(t)
  {
    SubmapRefl(s.grantee);
    SubmapRefl(s.marker);
    if c in t.active && Reporter(t.active[c]) { assert CallOK(s, c); }
    UnreportedTrail(s, t, c);
  }

  /** Creation steps leave rows, calls and history alone and report no approval and no signing. */
  ghost predicate CreationLogged(s: System, t: System) {
    && Submap(Rows(s), Rows(t)) && (forall id :: id in Rows(t) && id !in Rows(s) ==> Rows(t)[id].status.Proposed?)
    && t.active == s.active && t.grantee == s.grantee && t.marker == s.marker && t.winners == s.winners
    && (forall id :: id in Rows(s) ==> GrantedTo(t, id) == GrantedTo(s, id))
    && NoReport(AuditLog(s), AuditLog(t))
  }

  lemma StoreWalletLogged(s: System, c: Call, w: Wallet, key: string, now: Time, live: bool)
    ensures CreationLogged(s, DoStoreWallet(s, c, w, key, now, live))
  {
    hide IdempotencyKey, WalletScope;
    var t := DoStoreWallet(s, c, w, key, now, live);
    assert AuditLog(t) == AuditLog(s) && Rows(t) == Rows(s);
  }

  lemma StoreProposalLogged(s: System, c: Call, b: Creation, id: string, trace: map<string, string>, now: Time, live: bool)
    requires b.RequestBuilt?
    ensures CreationLogged(s, DoStoreProposal(s, c, b, id, trace, now, live))
  {
    hide IdempotencyKey, TransactionScope, Settle, Submap;
    var t := DoStoreProposal(s, c, b, id, trace, now, live);
    assert AuditLog(t) == AuditLog(s);
    SubmapRefl(Rows(s));
    if Stores(s, b, id, live) {
      SubmapAdd(Rows(s), id, NewProposal(id, b.source, b.request, b.raw, trace, now));
      assert Rows(t) == Rows(s)[id := NewProposal(id, b.source, b.request, b.raw, trace, now)];
    }
  }

  lemma BuildLogged(cfg: Config, s: System, c: Call, w: Wallet, r: Request, key: string, live: bool)
    ensures CreationLogged(s, DoBuildRaw(cfg, s, c, w, r, key, live))
  {
    hide Chains.Build, Issue, Submap;
    SubmapRefl(Rows(s));
    var t := DoBuildRaw(cfg, s, c, w, r, key, live);
    if live && Chains.Build(cfg, s.world.nonces, w, r).1.Ok? {
      assert t.world.store == s.world.store;
    } else {
      assert t == EndCreation(s, c);
    }
  }

  lemma EndLogged(s: System, c: Call, e: AuditEvent, live: bool)
    requires !e.kind.TransactionApproved? && !e.kind.TransactionSigned?
    ensures CreationLogged(s, EndCreation(Log(s, e, live), c))
    ensures CreationLogged(s, s)
  {}

  /** The calls and what they achieved are as they were, and so are rows and log. */
  lemma QuietLogged(s: System, t: System)
    requires Rows(t) == Rows(s) && AuditLog(t) == AuditLog(s) && t.granted == s.granted && t.active == s.active
    requires t.grantee == s.grantee && t.marker == s.marker && t.winners == s.winners
    ensures CreationLogged(s, t)
  {
    SubmapRefl(Rows(s));
    hide Submap;
  }

  lemma StartLogged(cfg: Config, s: System, x: Step)
    requires x.KeyWallet? || x.LoadRequest?
    ensures CreationLogged(s, DoCreation(cfg, s, x))
  {
    hide Registered, IsId, AmountAllowed, Signer.RecordFor, CreationLogged;
    QuietLogged(s, DoCreation(cfg, s, x));
  }

  lemma CreationLogs(cfg: Config, s: System, x: Step)
    requires IsCreation(x)
    ensures CreationLogged(s, DoCreation(cfg, s, x))
  {
    hide CreationLogged, DoKeyWallet, DoLoadRequest, DoStoreWallet, DoBuildRaw, DoStoreProposal, EndCreation, Log;
    EndLogged(s, x.c, AuditEvent(WalletCreated, "", "", "", 0), false);
    if x.KeyWallet? || x.LoadRequest? {
      StartLogged(cfg, s, x);
    } else if x.c in s.pending {
      var b := s.pending[x.c];
      match x
      case StoreWallet(c, now, live) => if b.WalletKeyed? { StoreWalletLogged(s, c, b.wallet, b.key, now, live); }
      case BuildRaw(c, live) => if b.RequestLoaded? { BuildLogged(cfg, s, c, b.source, b.request, b.key, live); }
      case StoreProposal(c, id, trace, now, live) => if b.RequestBuilt? { StoreProposalLogged(s, c, b, id, trace, now, live); }
      case AuditCreation(c, now, live) =>
        if b.WalletStored? {
          EndLogged(s, c, AuditEvent(WalletCreated, "", b.wallet.id, b.wallet.chain, now), live);
        } else if b.ProposalStored? {
          EndLogged(s, c, Event(TransactionProposed, "", b.proposal, now), live);
        }
      case _ =>
    }
  }

  lemma GrantIsNew(cfg: Config, s: System, c: Call, tx: string, signer: string, now: Time, live: bool)
    requires Inv(cfg, s) && Grants(cfg, s, c, tx, signer, now, live)
    ensures signer !in GrantedTo(s, tx) && (tx, signer) !in s.grantee && HistoryOK(s)
  {
    hide FlowOK, SignersOK, SignedOver, Submap;
    assert RowOK(cfg, s, tx);
  }

  lemma ApprovalTrail(cfg: Config, s: System, c: Call, tx: string, signer: string, now: Time, live: bool)
    requires TrailInv(s) && Inv(cfg, s)
    ensures TrailInv(DoApproval(cfg, s, c, tx, signer, now, live))
  {
    hide TrailInv, Inv, HistoryOK, SharedKept, OtherRowsKept, Submap;
    var t := DoApproval(cfg, s, c, tx, signer, now, live);
    if Grants(cfg, s, c, tx, signer, now, live) {
      GrantIsNew(cfg, s, c, tx, signer, now, live);
      RowNamed(cfg, s, tx);
      ApprovalFrame(cfg, s, c, tx, signer, now, live);
      assert Unreported(s, t, c);
      UnreportedTrail(s, t, c);
    }
  }

  lemma WinIsNew(cfg: Config, s: System, id: string, live: bool)
    requires Inv(cfg, s) && Wins(s, id, live)
    ensures id !in s.winners && id !in s.marker && HistoryOK(s)
  {
    hide FlowOK, SignersOK, SignedOver, Submap;
    assert RowOK(cfg, s, id);
  }

  lemma RowNamed(cfg: Config, s: System, id: string)
    requires Inv(cfg, s)
    ensures id in Rows(s) ==> Rows(s)[id].id == id
  {
    hide FlowOK, HistoryOK;
    if id in Rows(s) { assert RowOK(cfg, s, id); }
  }

  lemma MarkTrail(cfg: Config, s: System, c: Call, p: Proposal, signed: SignedTx, stamp: Option<Time>, live: bool)
    requires TrailInv(s) && Inv(cfg, s) && c in s.active
    requires p.id in Rows(s) ==> Rows(s)[p.id].id == p.id
    ensures TrailInv(DoMark(s, c, p, signed, stamp, live))
  {
    hide TrailInv, Inv, HistoryOK, SharedKept, OtherRowsKept, Submap;
    var t := DoMark(s, c, p, signed, stamp, live);
    if Wins(s, p.id, live) {
      WinIsNew(cfg, s, p.id, live);
      MarkFrame(s, c, p, signed, stamp, live);
      assert Unreported(s, t, c);
      UnreportedTrail(s, t, c);
    } else {
      MovesOn(s, t, c);
    }
  }

  lemma AuditApprovalTrail(s: System, c: Call, now: Time, live: bool)
    requires TrailInv(s) && c in s.active && s.active[c].Approved?
    ensures TrailInv(DoAuditApproval(s, c, s.active[c].snapshot, s.active[c].signer, now, live))
  {
    hide TrailInv, EventOK;
    var t := DoAuditApproval(s, c, s.active[c].snapshot, s.active[c].signer, now, live);
    var p := s.active[c].snapshot;
    var e := Event(TransactionApproved, s.active[c].signer, p, now);
    if live && p.status == Proposed && |p.approvals| >= 2 {
      ReportedTrail(s, Log(s, e, live).(active := s.active[c := Quorum(p)]), c, e);
    } else if live {
      ReportedTrail(s, EndSigning(Log(s, e, live), c), c, e);
    } else {
      MovesOn(s, t, c);
    }
  }

  lemma EndTrail(s: System, c: Call, e: AuditEvent, live: bool)
    requires TrailInv(s) && c in s.active
    requires Due(s.active[c], e) || (!e.kind.TransactionApproved? && !e.kind.TransactionSigned?)
    ensures TrailInv(EndSigning(Log(s, e, live), c))
  {
    hide TrailInv, EventOK;
    var t := EndSigning(Log(s, e, live), c);
    if live && Due(s.active[c], e) {
      ReportedTrail(s, t, c, e);
    } else {
      MovesOn(s, t, c);
    }
  }

  lemma CoSignTrail(cfg: Config, s: System, x: Step)
    requires TrailInv(s) && Inv(cfg, s) && IsCoSign(x)
    ensures TrailInv(DoCoSign(cfg, s, x))
  {
    hide TrailInv, Inv, DoApproval, DoMark, DoAuditApproval, EndSigning, Log;
    if x.GrantApproval? {
      ApprovalTrail(cfg, s, x.c, x.tx, x.signer, x.now, x.live);
    } else if x.c in s.active {
      var f := s.active[x.c];
      match x
      case Mark(c, stamp, live) => if f.Enveloped? { RowNamed(cfg, s, f.snapshot.id); MarkTrail(cfg, s, c, f.snapshot, f.signed, stamp, live); }
      case AuditApproval(c, now, live) => if f.Approved? { AuditApprovalTrail(s, c, now, live); }
      case SignQuorum(c, salt, live) => if f.Quorum? { SignTrail(cfg, s, c, f.snapshot, salt, live); }
      case AuditSigned(c, now, live) => if f.Marked? { EndTrail(s, c, Event(TransactionSigned, "", f.snapshot, now), live); }
      case _ =>
    }
  }

  lemma SignTrail(cfg: Config, s: System, c: Call, p: Proposal, salt: int, live: bool)
    requires TrailInv(s)
    ensures TrailInv(DoSign(cfg, s, c, p, salt, live))
  {
    hide TrailInv, EventOK, Signer.Sign;
    if !live {
      MovesOn(s, EndSigning(s, c), c);
    } else {
      match Signer.Sign(cfg, s.world.records, p, salt)
      case Ok(signed) => MovesOn(s, s.(active := s.active[c := Enveloped(p, signed)]), c);
      case Err(cause) => MovesOn(s, s.(active := s.active[c := Broken(p, cause)]), c);
    }
  }

  lemma LoadTrail(cfg: Config, s: System, c: Call, tx: string, live: bool)
    requires TrailInv(s)
    ensures TrailInv(DoLoad(cfg, s, c, tx, live))
  {
    hide TrailInv, EventOK, Loads;
    if Loads(cfg, s, c, tx, live) { MovesOn(s, DoLoad(cfg, s, c, tx, live), c); }
  }

  lemma SubmitTrail(cfg: Config, s: System, c: Call, p: Proposal, refusal: Option<string>, live: bool)
    requires TrailInv(s)
    ensures TrailInv(DoSubmit(cfg, s, c, p, refusal, live))
  {
    hide TrailInv, EventOK, Chains.Send;
    if !live {
      MovesOn(s, EndSigning(s, c), c);
    } else {
      match Chains.Send(cfg, p, refusal)
      case Ok(hash) => MovesOn(s, s.(active := s.active[c := Submitted(p, hash)]), c);
      case Err(cause) => MovesOn(s, s.(active := s.active[c := Broken(p, cause)]), c);
    }
  }

  lemma RecordTrail(s: System, c: Call, p: Proposal, hash: string, now: Time, live: bool)
    requires TrailInv(s)
    ensures TrailInv(DoRecordBroadcast(s, c, p, hash, now, live))
  {
    hide TrailInv, EventOK;
    MovesOn(s, DoRecordBroadcast(s, c, p, hash, now, live), c);
  }

  lemma FailTrail(s: System, c: Call, p: Proposal, cause: string, now: Time, live: bool)
    requires TrailInv(s)
    ensures TrailInv(DoRecordFailure(s, c, p, cause, now, live))
  {
    hide TrailInv, EventOK;
    MovesOn(s, DoRecordFailure(s, c, p, cause, now, live), c);
  }

  lemma BroadcastTrail(cfg: Config, s: System, x: Step)
    requires TrailInv(s)
    ensures TrailInv(DoBroadcast(cfg, s, x))
  {
    hide TrailInv, DoLoad, DoSubmit, DoRecordBroadcast, DoRecordFailure, EndSigning, Log;
    if x.Load? {
      LoadTrail(cfg, s, x.c, x.tx, x.live);
    } else if x.c in s.active {
      var f := s.active[x.c];
      match x
      case Submit(c, refusal, live) => SubmitTrail(cfg, s, c, f.snapshot, refusal, live);
      case RecordBroadcast(c, now, live) => if f.Submitted? { RecordTrail(s, c, f.snapshot, f.hash, now, live); }
      case RecordFailure(c, now, live) => if f.Broken? { FailTrail(s, c, f.snapshot, f.cause, now, live); }
      case AuditBroadcast(c, now, live) => EndTrail(s, c, Event(TransactionBroadcast, "", f.snapshot, now), live);
      case AuditFailure(c, now, live) => EndTrail(s, c, Event(TransactionFailed, "", f.snapshot, now), live);
      case _ =>
    }
  }

  lemma TrailStepOK(cfg: Config, s: System, x: Step)
    requires TrailInv(s) && Inv(cfg, s)
    ensures TrailInv(Do(cfg, s, x))
  {
    hide TrailInv, Inv, DoCreation, DoCoSign, DoBroadcast;
    if IsCreation(x) {
      CreationLogs(cfg, s, x);
      MovesOn(s, DoCreation(cfg, s, x), 0);
    } else if IsCoSign(x) {
      CoSignTrail(cfg, s, x);
    } else {
      BroadcastTrail(cfg, s, x);
    }
  }
}
