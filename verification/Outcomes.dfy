/**
 * What a row says about how it ended, in every interleaving: a Broadcast row carries the hash of its own
 * signed transaction, and a Failed row the text with which the signer or the node refused it.
 */
module Outcomes {
  import opened Types
  import opened Setup
  import opened Amounts
  import opened StoreSpec
  import opened Custody
  import opened Evolution
  import opened Runs
  import AuditTrail
  import Chains
  import Creations
  import Nonces
  import Signer = Signing

  /** The texts with which a node has refused in the run. */
  function Refusals(steps: seq<Step>): set<string> {
    set x | x in steps && x.Submit? && x.refusal.Some? :: x.refusal.value
  }

  /** The text is the signer's for this payload, or one of the node's. */
  ghost predicate CauseOK(cfg: Config, texts: set<string>, p: Proposal, cause: string) {
    || (Signer.Unsignable(cfg, p.chain, p.raw) && cause == Signer.WhyUnsignable(p.chain, p.raw))
    || (Refusable(cfg, p.chain) && cause in texts)
  }

  ghost predicate RowTells(cfg: Config, texts: set<string>, p: Proposal) {
    && (p.status.Broadcast? ==> !p.signed.Unsigned? && p.hash == cfg.hash(p.chain, p.signed))
    && (p.status.Failed? ==> CauseOK(cfg, texts, p, p.error))
  }

  ghost predicate FlowTells(cfg: Config, texts: set<string>, f: Flow) {
    && (f.Loaded? || f.Submitted? ==> !f.snapshot.signed.Unsigned?)
    && (f.Submitted? ==> f.hash == cfg.hash(f.snapshot.chain, f.snapshot.signed))
    && (f.Broken? ==> CauseOK(cfg, texts, f.snapshot, f.cause))
  }

  ghost predicate AllTell(cfg: Config, texts: set<string>, s: System) {
    && (forall id :: id in Rows(s) ==> RowTells(cfg, texts, Rows(s)[id]))
    && (forall c :: c in s.active ==> FlowTells(cfg, texts, s.active[c]))
  }

  /** What is new in `t` tells as it should. */
  ghost predicate NewTell(cfg: Config, texts: set<string>, s: System, t: System) {
    && (forall id :: id in Rows(t) ==> (id in Rows(s) && Rows(t)[id] == Rows(s)[id]) || RowTells(cfg, texts, Rows(t)[id]))
    && (forall c :: c in t.active ==> (c in s.active && t.active[c] == s.active[c]) || FlowTells(cfg, texts, t.active[c]))
  }

  lemma TellsOn(cfg: Config, texts: set<string>, more: set<string>, s: System, t: System)
    requires AllTell(cfg, texts, s) && NewTell(cfg, more, s, t) && texts <= more
    ensures AllTell(cfg, more, t)
  {
    hide Signer.Unsignable, Signer.WhyUnsignable, Refusable;
  }

  lemma CallTells(cfg: Config, texts: set<string>, s: System, t: System, c: Call)
    requires Rows(t) == Rows(s)
    requires forall d :: d in t.active && d != c ==> d in s.active && t.active[d] == s.active[d]
    requires c in t.active ==> FlowTells(cfg, texts, t.active[c])
    ensures NewTell(cfg, texts, s, t)
  {
    hide FlowTells, RowTells;
  }

  lemma SignTells(cfg: Config, texts: set<string>, s: System, c: Call, salt: int, live: bool)
    requires AllInv(cfg, s) && c in s.active && s.active[c].Quorum?
    ensures NewTell(cfg, texts, s, DoSign(cfg, s, c, s.active[c].snapshot, salt, live))
  {
    hide AllInv, Signer.Sign, Signer.Unsignable, Signer.WhyUnsignable, NewTell;
    var p := s.active[c].snapshot;
    QuorumWhy(cfg, s, c, salt);
    if !live {
      CallTells(cfg, texts, s, EndSigning(s, c), c);
    } else {
      match Signer.Sign(cfg, s.world.records, p, salt)
      case Ok(signed) => CallTells(cfg, texts, s, s.(active := s.active[c := Enveloped(p, signed)]), c);
      case Err(cause) => CallTells(cfg, texts, s, s.(active := s.active[c := Broken(p, cause)]), c);
    }
  }

  lemma QuorumWhy(cfg: Config, s: System, c: Call, salt: int)
    requires AllInv(cfg, s) && c in s.active && s.active[c].Quorum?
    ensures var p := s.active[c].snapshot; var out := Signer.Sign(cfg, s.world.records, p, salt);
      out.Err? ==> Signer.Unsignable(cfg, p.chain, p.raw) && out.error == Signer.WhyUnsignable(p.chain, p.raw)
  {
    hide Creations.PendingOK, Creations.RecordOK, Nonces.LedgerInv, AuditTrail.TrailInv, IsId, SignersOK, RowOK, HistoryOK,
         SignedOver, Creations.RawOK, Signer.Sign, Signer.Unsignable, Signer.WhyUnsignable;
    var p := s.active[c].snapshot;
    assert FlowOK(s, s.active[c]);
    assert Creations.ProposalOK(cfg, s, Rows(s)[p.id]);
    assert Creations.WalletOK(cfg, s, Creations.Wallets(s)[p.walletID]);
    Signer.SignDecides(cfg, s.world.records, p, salt);
  }

  lemma SubmitTells(cfg: Config, texts: set<string>, s: System, c: Call, refusal: Option<string>, live: bool)
    requires c in s.active && s.active[c].Loaded? && FlowTells(cfg, texts, s.active[c])
    requires refusal.Some? ==> refusal.value in texts
    ensures NewTell(cfg, texts, s, DoSubmit(cfg, s, c, s.active[c].snapshot, refusal, live))
  {
    hide Signer.Unsignable, Signer.WhyUnsignable, NewTell;
    var p := s.active[c].snapshot;
    if !live {
      CallTells(cfg, texts, s, EndSigning(s, c), c);
    } else {
      match Chains.Send(cfg, p, refusal)
      case Ok(hash) => CallTells(cfg, texts, s, s.(active := s.active[c := Submitted(p, hash)]), c);
      case Err(cause) => CallTells(cfg, texts, s, s.(active := s.active[c := Broken(p, cause)]), c);
    }
  }

  lemma LoadTells(cfg: Config, texts: set<string>, s: System, c: Call, tx: string, live: bool)
    ensures NewTell(cfg, texts, s, DoLoad(cfg, s, c, tx, live))
  {
    hide Registered, CauseOK;
  }

  lemma EndTells(cfg: Config, texts: set<string>, s: System, c: Call, e: AuditEvent, live: bool)
    ensures NewTell(cfg, texts, s, EndSigning(Log(s, e, live), c)) && NewTell(cfg, texts, s, s)
  {
    hide FlowTells, RowTells;
  }

  /** A write of a row that tells, by a call that then holds nothing to tell. */
  lemma WriteTells(cfg: Config, texts: set<string>, s: System, c: Call, q: Proposal, g: Flow)
    requires RowTells(cfg, texts, q) && FlowTells(cfg, texts, g)
    ensures NewTell(cfg, texts, s, WithStore(s, UpdateTransaction(s.world.store, q).0).(active := s.active[c := g]))
  {
    hide FlowTells, RowTells;
  }

  lemma RecordTells(cfg: Config, texts: set<string>, s: System, c: Call, now: Time, live: bool)
    requires c in s.active && s.active[c].Submitted? && FlowTells(cfg, texts, s.active[c])
    ensures NewTell(cfg, texts, s, DoRecordBroadcast(s, c, s.active[c].snapshot, s.active[c].hash, now, live))
  {
    hide NewTell, CauseOK;
    var q := AsBroadcast(s.active[c].snapshot, s.active[c].hash, now);
    EndTells(cfg, texts, s, c, Event(TransactionBroadcast, "", q, now), false);
    WriteTells(cfg, texts, s, c, q, Recorded(q));
  }

  lemma FailTells(cfg: Config, texts: set<string>, s: System, c: Call, now: Time, live: bool)
    requires c in s.active && s.active[c].Broken? && FlowTells(cfg, texts, s.active[c])
    ensures NewTell(cfg, texts, s, DoRecordFailure(s, c, s.active[c].snapshot, s.active[c].cause, now, live))
  {
    hide NewTell, Signer.Unsignable, Signer.WhyUnsignable;
    var q := AsFailed(s.active[c].snapshot, s.active[c].cause, now);
    WriteTells(cfg, texts, s, c, q, Failing(q));
    CallTells(cfg, texts, s, s.(active := s.active[c := Failing(q)]), c);
  }

  lemma ApprovalTells(cfg: Config, texts: set<string>, s: System, x: Step)
    requires x.GrantApproval?
    ensures NewTell(cfg, texts, s, DoApproval(cfg, s, x.c, x.tx, x.signer, x.now, x.live))
  {
    hide CauseOK, SignerAllowed;
    if Grants(cfg, s, x.c, x.tx, x.signer, x.now, x.live) {
      ApprovalParts(cfg, s, x.c, x.tx, x.signer, x.now, x.live);
      hide Grants;
    }
  }

  lemma MarkTells(cfg: Config, texts: set<string>, s: System, c: Call, p: Proposal, signed: SignedTx, stamp: Option<Time>, live: bool)
    ensures NewTell(cfg, texts, s, DoMark(s, c, p, signed, stamp, live))
  {
    hide CauseOK;
    if Wins(s, p.id, live) { MarkParts(s, c, p, signed, stamp, live); }
  }

  lemma AuditApprovalTells(cfg: Config, texts: set<string>, s: System, c: Call, p: Proposal, signer: string, now: Time, live: bool)
    ensures NewTell(cfg, texts, s, DoAuditApproval(s, c, p, signer, now, live))
  {
    hide NewTell, EndSigning, CauseOK;
    var e := Event(TransactionApproved, signer, p, now);
    EndTells(cfg, texts, s, c, e, live);
    if live && p.status == Proposed && |p.approvals| >= 2 {
      CallTells(cfg, texts, s, Log(s, e, live).(active := s.active[c := Quorum(p)]), c);
    }
  }

  lemma CreationTells(cfg: Config, texts: set<string>, s: System, x: Step)
    requires IsCreation(x)
    ensures NewTell(cfg, texts, s, DoCreation(cfg, s, x))
  {
    hide DoCreation, CauseOK;
    AuditTrail.CreationLogs(cfg, s, x);
  }

  lemma CoSignTells(cfg: Config, texts: set<string>, s: System, x: Step)
    requires AllInv(cfg, s) && IsCoSign(x)
    ensures NewTell(cfg, texts, s, DoCoSign(cfg, s, x))
  {
    hide AllInv, NewTell, DoApproval, DoMark, DoAuditApproval, DoSign, EndSigning, Log;
    EndTells(cfg, texts, s, x.c, AuditEvent(WalletCreated, "", "", "", 0), false);
    if x.GrantApproval? {
      ApprovalTells(cfg, texts, s, x);
    } else if x.c in s.active {
      var f := s.active[x.c];
      match x
      case Mark(c, stamp, live) => if f.Enveloped? { MarkTells(cfg, texts, s, c, f.snapshot, f.signed, stamp, live); }
      case AuditApproval(c, now, live) => if f.Approved? { AuditApprovalTells(cfg, texts, s, c, f.snapshot, f.signer, now, live); }
      case SignQuorum(c, salt, live) => if f.Quorum? { SignTells(cfg, texts, s, c, salt, live); }
      case AuditSigned(c, now, live) => EndTells(cfg, texts, s, c, Event(TransactionSigned, "", f.snapshot, now), live);
      case _ =>
    }
  }

  lemma BroadcastTells(cfg: Config, texts: set<string>, s: System, x: Step)
    requires forall c :: c in s.active ==> FlowTells(cfg, texts, s.active[c])
    requires x.Submit? && x.refusal.Some? ==> x.refusal.value in texts
    ensures NewTell(cfg, texts, s, DoBroadcast(cfg, s, x))
  {
    hide NewTell, FlowTells, DoLoad, DoSubmit, DoRecordBroadcast, DoRecordFailure, EndSigning, Log;
    EndTells(cfg, texts, s, x.c, AuditEvent(WalletCreated, "", "", "", 0), false);
    if x.Load? {
      LoadTells(cfg, texts, s, x.c, x.tx, x.live);
    } else if x.c in s.active {
      var f := s.active[x.c];
      match x
      case Submit(c, refusal, live) => if f.Loaded? { SubmitTells(cfg, texts, s, c, refusal, live); }
      case RecordBroadcast(c, now, live) => if f.Submitted? { RecordTells(cfg, texts, s, c, now, live); }
      case RecordFailure(c, now, live) => if f.Broken? { FailTells(cfg, texts, s, c, now, live); }
      case AuditBroadcast(c, now, live) => EndTells(cfg, texts, s, c, Event(TransactionBroadcast, "", f.snapshot, now), live);
      case AuditFailure(c, now, live) => EndTells(cfg, texts, s, c, Event(TransactionFailed, "", f.snapshot, now), live);
      case _ =>
    }
  }

  lemma StepTells(cfg: Config, texts: set<string>, more: set<string>, s: System, x: Step)
    requires AllInv(cfg, s) && AllTell(cfg, texts, s) && texts <= more
    requires x.Submit? && x.refusal.Some? ==> x.refusal.value in more
    ensures AllTell(cfg, more, Do(cfg, s, x))
  {
    hide AllInv, NewTell, DoCreation, DoCoSign, DoBroadcast, FlowTells, RowTells;
    if IsCreation(x) {
      CreationTells(cfg, more, s, x);
    } else if IsCoSign(x) {
      CoSignTells(cfg, more, s, x);
    } else {
      MoreTexts(cfg, texts, more, s);
      BroadcastTells(cfg, more, s, x);
    }
    TellsOn(cfg, texts, more, s, Do(cfg, s, x));
  }

  lemma MoreTexts(cfg: Config, texts: set<string>, more: set<string>, s: System)
    requires AllTell(cfg, texts, s) && texts <= more
    ensures AllTell(cfg, more, s)
  {
    EndTells(cfg, more, s, 0, AuditEvent(WalletCreated, "", "", "", 0), false);
    hide NewTell;
    TellsOn(cfg, texts, more, s, s);
  }

  lemma {:induction false} RunTells(cfg: Config, steps: seq<Step>)
    ensures AllTell(cfg, Refusals(steps), At(cfg, steps))
    decreases |steps|
  {
    hide AllInv, Do, FlowTells, RowTells;
    if steps != [] {
      var n := |steps| - 1;
      RunTells(cfg, steps[..n]);
      RunOK(cfg, steps[..n]);
      hide AllTell;
      assert steps[n] in steps && forall x :: x in steps[..n] ==> x in steps;
      StepTells(cfg, Refusals(steps[..n]), Refusals(steps), At(cfg, steps[..n]), steps[n]);
    }
  }

  // ----- the theorems

  /** In every reachable state a Broadcast row is signed and carries the hash of its own signed transaction. */
  lemma BroadcastHasHash(cfg: Config, steps: seq<Step>, id: string)
    requires id in Rows(At(cfg, steps)) && Rows(At(cfg, steps))[id].status.Broadcast?
    ensures var p := Rows(At(cfg, steps))[id]; !p.signed.Unsigned? && p.hash == cfg.hash(p.chain, p.signed)
  {
    hide Do, CauseOK;
    RunTells(cfg, steps);
    assert RowTells(cfg, Refusals(steps), Rows(At(cfg, steps))[id]);
  }

  /**
   * In every reachable state the error of a Failed row is a text with which a node refused in this run, or
   * says what the signer could not read of the request.
   */
  lemma FailureHasCause(cfg: Config, steps: seq<Step>, id: string)
    requires id in Rows(At(cfg, steps)) && Rows(At(cfg, steps))[id].status.Failed?
    ensures var p := Rows(At(cfg, steps))[id];
      || (cfg.node && p.chain == "evm" && exists i :: 0 <= i < |steps| && steps[i].Submit? && steps[i].refusal == Some(p.error))
      || (p.chain == "evm" && (forall n :: !Denotes(p.request.maxFeePerGas, n))
          && p.error == "evm max_fee_per_gas must be a base-10 integer")
      || (p.chain == "evm" && (forall b :: !Signer.CallData(p.request.data, b)) && p.error == "encoding/hex: invalid data")
      || (cfg.refuses(p.raw) && p.error == Signer.REFUSED)
  {
    hide Do, Signer.Unsignable, Signer.WhyUnsignable, Denotes, Signer.CallData;
    RunTells(cfg, steps);
    RunOK(cfg, steps);
    var s := At(cfg, steps);
    var p := Rows(s)[id];
    assert RowTells(cfg, Refusals(steps), p);
    if Refusable(cfg, p.chain) && p.error in Refusals(steps) {
      var x :| x in steps && x.Submit? && x.refusal == Some(p.error);
      var i :| 0 <= i < |steps| && steps[i] == x;
    } else {
      hide RowTells;
      WhyFailed(cfg, s, id);
    }
  }

  /** The signer's text, by the request. */
  lemma WhyFailed(cfg: Config, s: System, id: string)
    requires AllInv(cfg, s) && id in Rows(s) && Signer.Unsignable(cfg, Rows(s)[id].chain, Rows(s)[id].raw)
    ensures var p := Rows(s)[id]; var why := Signer.WhyUnsignable(p.chain, p.raw);
      || (p.chain == "evm" && (forall n :: !Denotes(p.request.maxFeePerGas, n)) && why == "evm max_fee_per_gas must be a base-10 integer")
      || (p.chain == "evm" && (forall b :: !Signer.CallData(p.request.data, b)) && why == "encoding/hex: invalid data")
      || (cfg.refuses(p.raw) && why == Signer.REFUSED)
  {
    hide Inv, Creations.PendingOK, Creations.RecordOK, Nonces.LedgerInv, AuditTrail.TrailInv, IsId,
         ParseDecimal, Signer.DecodeHex, Signer.CallData, Denotes, Signer.TrimHexPrefix;
    var p := Rows(s)[id];
    assert Creations.ProposalOK(cfg, s, p);
    forall n ensures ParseDecimal(p.request.maxFeePerGas) == Some(n) <==> Denotes(p.request.maxFeePerGas, n) {
      ParseDenotes(p.request.maxFeePerGas, n);
    }
    forall b ensures Signer.DecodeHex(Signer.TrimHexPrefix(p.request.data)) == Some(b) <==> Signer.CallData(p.request.data, b) {
      Signer.CallDataIff(p.request.data, b);
    }
  }
}
