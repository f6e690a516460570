/**
 * What CreateWallet and ProposeTransaction establish and every later step keeps: stored wallets
 * agree with the signer's key records, stored payloads with their requests and the amount policy,
 * and idempotency records with the resources they name.
 */
module Creations {
  import opened Types
  import opened Amounts
  import opened Setup
  import opened StoreSpec
  import opened Chains
  import opened Custody
  import opened Evolution
  import Signer = Signing

  function Wallets(s: System): map<string, Wallet> { s.world.store.wallets }

  function Idempotency(s: System): map<string, IdempotencyRecord> { s.world.store.idempotency }

  /** The signer holds a key for this wallet, of its chain, whose address is the wallet's. */
  ghost predicate WalletOK(cfg: Config, s: System, w: Wallet) {
    && IsId("wlt", w.id) && Registered(cfg, w.chain)
    && w.id in s.world.records
    && var r := s.world.records[w.id];
       && r.chain == w.chain && r.address == w.address && w.address == cfg.address(w.chain, r.key)
       && r.publicKey == w.publicKey && w.publicKey == cfg.publicKey(w.chain, r.key)
       && (w.chain == EVM && cfg.devKey.Some? ==> r.key == cfg.devKey.value)
  }

  /** `raw` is the payload that this wallet's adapter builds for the request, with some nonce. */
  ghost predicate RawOK(cfg: Config, w: Wallet, r: Request, raw: Payload) {
    && r.walletID == w.id && AmountAllowed(cfg, w.chain, r.amount)
    && if w.chain == EVM then raw.EvmPayload? && raw == EvmRaw(cfg, w, r, raw.nonce)
       else ParseInt64(r.amount).Some? && raw == BitcoinRaw(cfg, w, r)
  }

  ghost predicate ProposalOK(cfg: Config, s: System, p: Proposal) {
    && p.walletID in Wallets(s)
    && p.chain == Wallets(s)[p.walletID].chain
    && RawOK(cfg, Wallets(s)[p.walletID], p.request, p.raw)
  }

  ghost predicate SourceOK(cfg: Config, s: System, w: Wallet, r: Request) {
    w.id in Wallets(s) && Wallets(s)[w.id] == w && r.walletID == w.id && AmountAllowed(cfg, w.chain, r.amount)
  }

  ghost predicate PendingOK(cfg: Config, s: System, b: Creation) {
    match b
    case WalletKeyed(w, _) => WalletOK(cfg, s, w)
    case RequestLoaded(w, r, _) => SourceOK(cfg, s, w, r)
    case RequestBuilt(w, r, raw, _, _) => SourceOK(cfg, s, w, r) && RawOK(cfg, w, r, raw)
    case _ => true
  }

  /** The record is filed under its own scope and key and names a stored resource of that scope. */
  ghost predicate RecordOK(s: System, k: string, r: IdempotencyRecord) {
    && k == IdempotencyKey(r.scope, r.key)
    && (|| (r.resourceID in Wallets(s) && r.scope == WalletScope(Wallets(s)[r.resourceID].chain))
        || (r.resourceID in Rows(s) && r.scope == TransactionScope(Rows(s)[r.resourceID].walletID)))
  }

  ghost predicate CreationInv(cfg: Config, s: System) {
    && (forall id :: id in Wallets(s) ==> Wallets(s)[id].id == id && WalletOK(cfg, s, Wallets(s)[id]))
    && (forall id :: id in Rows(s) ==> ProposalOK(cfg, s, Rows(s)[id]))
    && (forall c :: c in s.pending ==> PendingOK(cfg, s, s.pending[c]))
    && (forall k :: k in Idempotency(s) ==> RecordOK(s, k, Idempotency(s)[k]))
  }

  // ----- stability: nothing established is undone by a later step

  lemma WalletStable(cfg: Config, s: System, t: System, w: Wallet)
    requires WalletOK(cfg, s, w) && Evolves(s, t)
    ensures WalletOK(cfg, t, w)
  {
    hide RowsEvolve, IsId, Registered;
  }

  lemma ProposalStable(cfg: Config, s: System, t: System, id: string)
    requires id in Rows(s) && ProposalOK(cfg, s, Rows(s)[id]) && Evolves(s, t)
    ensures id in Rows(t) && ProposalOK(cfg, t, Rows(t)[id])
  {
    hide RawOK;
    assert RowEvolves(s, t, id);
  }

  lemma PendingStable(cfg: Config, s: System, t: System, b: Creation)
    requires PendingOK(cfg, s, b) && Evolves(s, t)
    ensures PendingOK(cfg, t, b)
  {
    hide RowsEvolve, RawOK, WalletOK;
    if b.WalletKeyed? { WalletStable(cfg, s, t, b.wallet); }
  }

  lemma RecordStable(s: System, t: System, k: string, r: IdempotencyRecord)
    requires RecordOK(s, k, r) && Evolves(s, t)
    ensures RecordOK(t, k, r)
  {
    hide IdempotencyKey, WalletScope, TransactionScope;
    if r.resourceID in Rows(s) { assert RowEvolves(s, t, r.resourceID); }
  }

  /** It suffices to check what a step adds. */
  lemma AddedOnly(cfg: Config, s: System, t: System)
    requires CreationInv(cfg, s) && Evolves(s, t)
    requires forall id :: id in Wallets(t) && id !in Wallets(s) ==> Wallets(t)[id].id == id && WalletOK(cfg, t, Wallets(t)[id])
    requires forall id :: id in Rows(t) && id !in Rows(s) ==> ProposalOK(cfg, t, Rows(t)[id])
    requires forall c :: c in t.pending && !(c in s.pending && t.pending[c] == s.pending[c]) ==> PendingOK(cfg, t, t.pending[c])
    requires forall k :: k in Idempotency(t) && k !in Idempotency(s) ==> RecordOK(t, k, Idempotency(t)[k])
    ensures CreationInv(cfg, t)
  {
    hide WalletOK, ProposalOK, PendingOK, RecordOK, RowsEvolve;
    forall id | id in Wallets(t) ensures Wallets(t)[id].id == id && WalletOK(cfg, t, Wallets(t)[id]) {
      if id in Wallets(s) { WalletStable(cfg, s, t, Wallets(s)[id]); }
    }
    forall id | id in Rows(t) ensures ProposalOK(cfg, t, Rows(t)[id]) {
      if id in Rows(s) { ProposalStable(cfg, s, t, id); }
    }
    forall c | c in t.pending ensures PendingOK(cfg, t, t.pending[c]) {
      if c in s.pending && t.pending[c] == s.pending[c] { PendingStable(cfg, s, t, s.pending[c]); }
    }
    forall k | k in Idempotency(t) ensures RecordOK(t, k, Idempotency(t)[k]) {
      if k in Idempotency(s) { RecordStable(s, t, k, Idempotency(s)[k]); }
    }
  }

  // ----- CoSign and Broadcast steps leave all of this alone

  ghost predicate CreationKept(s: System, t: System) {
    && t.pending == s.pending && t.ledger == s.ledger && t.world.nonces == s.world.nonces
    && Wallets(t) == Wallets(s) && Idempotency(t) == Idempotency(s) && t.world.records == s.world.records
    && Rows(t).Keys == Rows(s).Keys
  }

  lemma ApprovalKeeps(cfg: Config, s: System, c: Call, tx: string, signer: string, now: Time, live: bool)
    ensures CreationKept(s, DoApproval(cfg, s, c, tx, signer, now, live))
  {}

  lemma MarkKeeps(s: System, c: Call, p: Proposal, signed: SignedTx, stamp: Option<Time>, live: bool)
    ensures CreationKept(s, DoMark(s, c, p, signed, stamp, live))
  {}

  lemma AuditApprovalKeeps(s: System, c: Call, p: Proposal, signer: string, now: Time, live: bool)
    ensures CreationKept(s, DoAuditApproval(s, c, p, signer, now, live))
  {
    var s1 := Log(s, Event(TransactionApproved, signer, p, now), live);
    assert CreationKept(s, s1);
    var t := DoAuditApproval(s, c, p, signer, now, live);
    assert t.pending == s1.pending && t.ledger == s1.ledger && t.world == s1.world;
  }

  lemma CallsAside(s: System, active: map<Call, Flow>)
    ensures CreationKept(s, s.(active := active))
  {}

  lemma SignKeeps(cfg: Config, s: System, c: Call, p: Proposal, salt: int, live: bool)
    ensures CreationKept(s, DoSign(cfg, s, c, p, salt, live))
  {
    hide Signer.Sign, CreationKept;
    CallsAside(s, s.active - {c});
    if live {
      match Signer.Sign(cfg, s.world.records, p, salt)
      case Ok(signed) => CallsAside(s, s.active[c := Enveloped(p, signed)]);
      case Err(cause) => CallsAside(s, s.active[c := Broken(p, cause)]);
    }
  }

  lemma EndKeeps(s: System, c: Call, e: AuditEvent, live: bool)
    ensures CreationKept(s, EndSigning(Log(s, e, live), c))
    ensures CreationKept(s, s)
  {}

  lemma LoadKeeps(cfg: Config, s: System, c: Call, tx: string, live: bool)
    ensures CreationKept(s, DoLoad(cfg, s, c, tx, live))
  {
    hide Loads;
  }

  lemma SubmitKeeps(cfg: Config, s: System, c: Call, p: Proposal, refusal: Option<string>, live: bool)
    ensures CreationKept(s, DoSubmit(cfg, s, c, p, refusal, live))
  {
    hide Send, CreationKept;
    CallsAside(s, s.active - {c});
    if live {
      match Send(cfg, p, refusal)
      case Ok(hash) => CallsAside(s, s.active[c := Submitted(p, hash)]);
      case Err(cause) => CallsAside(s, s.active[c := Broken(p, cause)]);
    }
  }

  lemma RecordKeeps(s: System, c: Call, p: Proposal, hash: string, now: Time, live: bool)
    ensures CreationKept(s, DoRecordBroadcast(s, c, p, hash, now, live))
  {}

  lemma FailKeeps(s: System, c: Call, p: Proposal, cause: string, now: Time, live: bool)
    ensures CreationKept(s, DoRecordFailure(s, c, p, cause, now, live))
  {}

  lemma CoSignKeeps(cfg: Config, s: System, x: Step)
    requires IsCoSign(x)
    ensures CreationKept(s, DoCoSign(cfg, s, x))
  {
    hide CreationKept, DoApproval, DoMark, DoSign, DoAuditApproval, EndSigning, Log;
    EndKeeps(s, x.c, AuditEvent(WalletCreated, "", "", "", 0), false);
    if x.GrantApproval? {
      ApprovalKeeps(cfg, s, x.c, x.tx, x.signer, x.now, x.live);
    } else if x.c in s.active {
      var f := s.active[x.c];
      match x
      case Mark(c, stamp, live) => if f.Enveloped? { MarkKeeps(s, c, f.snapshot, f.signed, stamp, live); }
      case AuditApproval(c, now, live) => if f.Approved? { AuditApprovalKeeps(s, c, f.snapshot, f.signer, now, live); }
      case SignQuorum(c, salt, live) => SignKeeps(cfg, s, c, f.snapshot, salt, live);
      case AuditSigned(c, now, live) => EndKeeps(s, c, Event(TransactionSigned, "", f.snapshot, now), live);
      case _ =>
    }
  }

  lemma BroadcastKeeps(cfg: Config, s: System, x: Step)
    ensures CreationKept(s, DoBroadcast(cfg, s, x))
  {
    hide CreationKept, DoLoad, DoSubmit, DoRecordBroadcast, DoRecordFailure, EndSigning, Log;
    EndKeeps(s, x.c, AuditEvent(WalletCreated, "", "", "", 0), false);
    if x.Load? {
      LoadKeeps(cfg, s, x.c, x.tx, x.live);
    } else if x.c in s.active {
      var f := s.active[x.c];
      match x
      case Submit(c, refusal, live) => SubmitKeeps(cfg, s, c, f.snapshot, refusal, live);
      case RecordBroadcast(c, now, live) => if f.Submitted? { RecordKeeps(s, c, f.snapshot, f.hash, now, live); }
      case RecordFailure(c, now, live) => if f.Broken? { FailKeeps(s, c, f.snapshot, f.cause, now, live); }
      case AuditBroadcast(c, now, live) => EndKeeps(s, c, Event(TransactionBroadcast, "", f.snapshot, now), live);
      case AuditFailure(c, now, live) => EndKeeps(s, c, Event(TransactionFailed, "", f.snapshot, now), live);
      case _ =>
    }
  }

  lemma SigningKeeps(cfg: Config, s: System, x: Step)
    requires !IsCreation(x)
    ensures CreationKept(s, Do(cfg, s, x))
  {
    hide CreationKept, DoCoSign, DoBroadcast;
    if IsCoSign(x) { CoSignKeeps(cfg, s, x); }
    BroadcastKeeps(cfg, s, x);
  }

  // ----- creation steps

  lemma KeyWalletParts(cfg: Config, s: System, c: Call, id: string, chain: Chain, key: string, generated: Key, now: Time)
    ensures var t := DoKeyWallet(cfg, s, c, id, chain, key, generated, now);
      && Rows(t) == Rows(s) && Wallets(t) == Wallets(s) && Idempotency(t) == Idempotency(s)
      && (t.pending == s.pending
          || (c in t.pending && t.pending == s.pending[c := t.pending[c]] && PendingOK(cfg, t, t.pending[c])))
  {
    hide IsId, Registered;
  }

  lemma KeyWalletAdds(cfg: Config, s: System, c: Call, id: string, chain: Chain, key: string, generated: Key, now: Time)
    requires CreationInv(cfg, s)
    requires Evolves(s, DoKeyWallet(cfg, s, c, id, chain, key, generated, now))
    ensures CreationInv(cfg, DoKeyWallet(cfg, s, c, id, chain, key, generated, now))
  {
    hide Evolves, CreationInv, PendingOK, DoKeyWallet;
    KeyWalletParts(cfg, s, c, id, chain, key, generated, now);
    AddedOnly(cfg, s, DoKeyWallet(cfg, s, c, id, chain, key, generated, now));
  }

  lemma StoreWalletAdds(cfg: Config, s: System, c: Call, w: Wallet, key: string, now: Time, live: bool)
    requires CreationInv(cfg, s) && WalletOK(cfg, s, w)
    requires Evolves(s, DoStoreWallet(s, c, w, key, now, live))
    ensures CreationInv(cfg, DoStoreWallet(s, c, w, key, now, live))
  {
    hide Evolves, RowOK, ProposalOK, IsId, Registered, IdempotencyKey, WalletScope, TransactionScope;
    AddedOnly(cfg, s, DoStoreWallet(s, c, w, key, now, live));
  }

  lemma LoadRequestAdds(cfg: Config, s: System, c: Call, r: Request, key: string, live: bool)
    requires CreationInv(cfg, s)
    requires Evolves(s, DoLoadRequest(cfg, s, c, r, key, live))
    ensures CreationInv(cfg, DoLoadRequest(cfg, s, c, r, key, live))
  {
    hide Evolves, RowOK, ProposalOK, WalletOK, RecordOK, IsId, Registered, AmountAllowed;
    AddedOnly(cfg, s, DoLoadRequest(cfg, s, c, r, key, live));
  }

  lemma BuildIsRaw(cfg: Config, nonces: map<string, nat>, w: Wallet, r: Request)
    requires r.walletID == w.id && AmountAllowed(cfg, w.chain, r.amount)
    requires Build(cfg, nonces, w, r).1.Ok?
    ensures RawOK(cfg, w, r, Build(cfg, nonces, w, r).1.value)
    ensures w.chain == EVM <==> Build(cfg, nonces, w, r).1.value.EvmPayload?
  {
    hide ParseInt64, ParseDecimal;
  }

  lemma BuildAdds(cfg: Config, s: System, c: Call, w: Wallet, r: Request, key: string, live: bool)
    requires CreationInv(cfg, s) && SourceOK(cfg, s, w, r)
    requires Evolves(s, DoBuildRaw(cfg, s, c, w, r, key, live))
    ensures CreationInv(cfg, DoBuildRaw(cfg, s, c, w, r, key, live))
  {
    hide Evolves, RowOK, ProposalOK, WalletOK, RecordOK, RawOK, AmountAllowed, Build;
    if Build(cfg, s.world.nonces, w, r).1.Ok? {
      BuildIsRaw(cfg, s.world.nonces, w, r);
    }
    AddedOnly(cfg, s, DoBuildRaw(cfg, s, c, w, r, key, live));
  }

  lemma StoreProposalAdds(cfg: Config, s: System, c: Call, b: Creation, id: string, trace: map<string, string>, now: Time, live: bool)
    requires CreationInv(cfg, s) && b.RequestBuilt? && PendingOK(cfg, s, b)
    requires Evolves(s, DoStoreProposal(s, c, b, id, trace, now, live))
    ensures CreationInv(cfg, DoStoreProposal(s, c, b, id, trace, now, live))
  {
    hide Evolves, RowOK, WalletOK, RawOK, AmountAllowed, IdempotencyKey, WalletScope, TransactionScope, Settle;
    AddedOnly(cfg, s, DoStoreProposal(s, c, b, id, trace, now, live));
  }

  lemma EndAdds(cfg: Config, s: System, c: Call, e: AuditEvent, live: bool)
    requires CreationInv(cfg, s)
    requires Evolves(s, EndCreation(Log(s, e, live), c))
    ensures CreationInv(cfg, EndCreation(Log(s, e, live), c))
  {
    hide Evolves, RowOK, ProposalOK, WalletOK, RecordOK, PendingOK;
    AddedOnly(cfg, s, EndCreation(Log(s, e, live), c));
  }

  lemma CreationAdds(cfg: Config, s: System, x: Step)
    requires CreationInv(cfg, s) && Evolves(s, DoCreation(cfg, s, x)) && IsCreation(x)
    ensures CreationInv(cfg, DoCreation(cfg, s, x))
  {
    hide Evolves, WalletOK, ProposalOK, RecordOK, RawOK, SourceOK,
      DoKeyWallet, DoLoadRequest, DoStoreWallet, DoBuildRaw, DoStoreProposal, EndCreation, Log;
    if x.KeyWallet? {
      KeyWalletAdds(cfg, s, x.c, x.id, x.chain, x.key, x.generated, x.now);
    } else if x.LoadRequest? {
      LoadRequestAdds(cfg, s, x.c, x.request, x.key, x.live);
    } else if x.c in s.pending {
      var b := s.pending[x.c];
      match x
      case StoreWallet(c, now, live) => if b.WalletKeyed? { StoreWalletAdds(cfg, s, c, b.wallet, b.key, now, live); }
      case BuildRaw(c, live) => if b.RequestLoaded? { BuildAdds(cfg, s, c, b.source, b.request, b.key, live); }
      case StoreProposal(c, id, trace, now, live) => if b.RequestBuilt? { StoreProposalAdds(cfg, s, c, b, id, trace, now, live); }
      case AuditCreation(c, now, live) =>
        if b.WalletStored? {
          EndAdds(cfg, s, c, AuditEvent(WalletCreated, "", b.wallet.id, b.wallet.chain, now), live);
        } else if b.ProposalStored? {
          EndAdds(cfg, s, c, Event(TransactionProposed, "", b.proposal, now), live);
        }
      case _ =>
    }
  }

  lemma CreationStepOK(cfg: Config, s: System, x: Step)
    requires CreationInv(cfg, s) && Evolves(s, Do(cfg, s, x))
    ensures CreationInv(cfg, Do(cfg, s, x))
  {
    hide Evolves, DoCreation, DoCoSign, DoBroadcast, WalletOK, ProposalOK, PendingOK, RecordOK;
    if IsCreation(x) {
      CreationAdds(cfg, s, x);
    } else {
      SigningKeeps(cfg, s, x);
      AddedOnly(cfg, s, Do(cfg, s, x));
    }
  }
}
