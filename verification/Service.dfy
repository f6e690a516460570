/**
 * The service object (internal/wallet/service.go) over the in-memory store, the demo signer and the
 * EVM adapter: each method, with its early returns and its rewriting of a local proposal, is
 * proved to do what the function of the same name in module Calls says.
 */
module Services {
  import opened Types
  import opened Setup
  import opened StoreSpec
  import opened MemoryStores
  import opened Custody
  import opened Chains
  import Calls
  import Signer = Signing

  /** The record returned stands for the proposal `r` returns, or both are the same error. */
  ghost predicate Agrees(out: Result<Record, Error>, r: Result<Proposal, Error>)
    reads if out.Ok? then Tables(out.value) else {}
  {
    match r
    case Ok(p) => out.Ok? && StandsFor(out.value, p)
    case Err(e) => out == Err(e)
  }

  /** `err.Error()` of what the signer and the adapters return. */
  function ErrorText(e: Error): string {
    if e.Other? then e.message else "context canceled"
  }

  class Service {
    const cfg: Config
    const store: MemoryStore
    const signer: Signer.DemoQuorumBackend
    const evm: EvmAdapter

    constructor (cfg: Config)
      ensures Valid() && this.cfg == cfg && World() == Calls.EMPTY_WORLD
      ensures fresh(store) && fresh(store.repr) && fresh(signer) && fresh(evm)
    {
      this.cfg := cfg;
      store := new MemoryStore();
      signer := new Signer.DemoQuorumBackend();
      evm := new EvmAdapter();
    }

    ghost predicate Valid()
      reads store, store.repr
    {
      store.Valid() && signer !in store.repr && evm !in store.repr
    }

    ghost function World(): World
      reads store, signer, evm
    {
      Custody.World(store.View(), signer.records, evm.nonces)
    }

    method AppendAudit(e: AuditEvent, now: Time, live: bool) returns (ok: bool)
      requires Valid()
      modifies store`auditEvents
      ensures Valid() && ok == live
      ensures World() == if live then Calls.Logged(old(World()), e.(createdAt := now)) else old(World())
    {
      ok := store.AppendAuditEvent(e.(createdAt := now), live);
    }

    method FailTransaction(p: Record, cause: string, now: Time, live: bool)
      requires Valid()
      modifies store`transactions, store`rows, store`repr
      ensures Valid() && old(store.repr) <= store.repr && fresh(store.repr - old(store.repr))
      ensures var q := AsFailed(old(Value(p)), cause, now);
        World() == if live then old(World()).(store := UpdateTransaction(old(World()).store, q).0) else old(World())
    {
      var q := p.(status := Failed, error := cause, updatedAt := now);
      assert Value(q) == AsFailed(Value(p), cause, now);
      var _ := store.UpdateTransaction(q, live);
    }

    /** What CoSign and Broadcast do when the signer or the adapter refuses. */
    method Fail(p: Record, cause: string, env: Calls.Env, k: nat)
      requires Valid()
      modifies store`transactions, store`rows, store`repr, store`auditEvents
      ensures Valid() && old(store.repr) <= store.repr && fresh(store.repr - old(store.repr))
      ensures World() == Calls.Fail(old(World()), old(Value(p)), cause, env, k)
    {
      hide StandsFor, RowsValid;
      FailTransaction(p, cause, env.now(k), env.live(k));
      var _ := AppendAudit(AuditEvent(TransactionFailed, "", p.id, p.chain, 0), env.now(k + 1), env.live(k + 1));
    }

    /** The part of CoSign after quorum. */
    method SignAndMark(p: Record, salt: int, env: Calls.Env) returns (out: Result<Record, Error>)
      requires Valid()
      modifies store`transactions, store`rows, store`repr, store`auditEvents
      ensures Valid() && old(store.repr) <= store.repr && fresh(store.repr - old(store.repr))
      ensures
        var (w, r) := Calls.SignAndMark(cfg, old(World()), old(Value(p)), salt, env);
        World() == w && Agrees(out, r)
    {
      hide RowsValid, Signer.Sign, Calls.Fail;
      var signature := signer.SignTransaction(cfg, Value(p), salt, env.live(2));
      if signature.Err? {
        Calls.DeadFails(World(), Value(p), ErrorText(signature.error), env, 3);
        Fail(p, ErrorText(signature.error), env, 3);
        return Err(signature.error);
      }
      var marked := store.MarkTransactionSigned(p.id, signature.value, env.live(3));
      if marked.Err? { return Err(marked.error); }
      var (q, won) := marked.value;
      if won {
        var ok := AppendAudit(AuditEvent(TransactionSigned, "", q.id, q.chain, 0), env.now(4), env.live(4));
        if !ok { return Err(ContextDone); }
      }
      out := Ok(q);
    }

    method CoSign(tx: string, signerID: string, salt: int, env: Calls.Env) returns (out: Result<Record, Error>)
      requires Valid()
      modifies store, store.repr
      ensures Valid() && old(store.repr) <= store.repr && fresh(store.repr - old(store.repr))
      ensures
        var (w, r) := Calls.CoSign(cfg, old(World()), tx, signerID, salt, env);
        World() == w && Agrees(out, r)
    {
      hide RowsValid, Calls.SignAndMark;
      if signerID == "" { return Err(SignerRequired); }
      if !SignerAllowed(cfg, signerID) { return Err(UnauthorizedSigner); }
      var approved := store.AddApproval(tx, Approval(signerID, env.now(0)), env.live(0));
      if approved.Err? { return Err(approved.error); }
      var p := approved.value;
      var ok := AppendAudit(AuditEvent(TransactionApproved, signerID, p.id, p.chain, 0), env.now(1), env.live(1));
      if !ok { return Err(ContextDone); }
      if p.status == Proposed && |Value(p).approvals| >= 2 {
        out := SignAndMark(p, salt, env);
      } else {
        out := Ok(p);
      }
    }

    method Broadcast(tx: string, refusal: Option<string>, env: Calls.Env) returns (out: Result<Record, Error>)
      requires Valid()
      modifies store, store.repr
      ensures Valid() && old(store.repr) <= store.repr && fresh(store.repr - old(store.repr))
      ensures
        var (w, r) := Calls.Broadcast(cfg, old(World()), tx, refusal, env);
        World() == w && Agrees(out, r)
    {
      hide RowsValid, Calls.Fail, Calls.RecordSent, Send;
      var loaded := store.GetTransaction(tx, env.live(0));
      if loaded.Err? { return Err(loaded.error); }
      var p := loaded.value;
      if p.status != Signed || p.signed == Unsigned { return Err(TransactionNotSigned); }
      if !Registered(cfg, p.chain) { return Err(UnsupportedChain); }
      var sent := Chains.Broadcast(cfg, Value(p), refusal, env.live(1));
      if sent.Err? {
        Calls.DeadFails(World(), Value(p), ErrorText(sent.error), env, 2);
        Fail(p, ErrorText(sent.error), env, 2);
        return Err(sent.error);
      }
      out := RecordSent(p, sent.value, env);
    }

    /** The part of Broadcast after the adapter has accepted the transaction. */
    method RecordSent(p: Record, hash: string, env: Calls.Env) returns (out: Result<Record, Error>)
      requires Valid() && store.Private(p)
      modifies store`transactions, store`rows, store`repr, store`auditEvents
      ensures Valid() && old(store.repr) <= store.repr && fresh(store.repr - old(store.repr))
      ensures
        var (w, r) := Calls.RecordSent(old(World()), old(Value(p)), hash, env);
        World() == w && Agrees(out, r)
    {
      hide RowsValid;
      var q := p.(status := Types.Broadcast, hash := hash, updatedAt := env.now(2));
      assert StandsFor(q, AsBroadcast(Value(p), hash, env.now(2)));
      var updated := store.UpdateTransaction(q, env.live(2));
      if updated.Err? { return Err(updated.error); }
      var ok := AppendAudit(AuditEvent(TransactionBroadcast, "", q.id, q.chain, 0), env.now(3), env.live(3));
      if !ok { return Err(ContextDone); }
      out := Ok(q);
    }

    /** The part of CreateWallet after the key is made. */
    method StoreWallet(wallet: Wallet, key: string, env: Calls.Env) returns (out: Result<Wallet, Error>)
      requires Valid()
      modifies store`wallets, store`idempotency, store`auditEvents
      ensures Valid() && (World(), out) == Calls.StoreWallet(old(World()), wallet, key, env)
    {
      hide RowsValid, IdempotencyKey, WalletScope;
      var w, created := wallet, true;
      if key == "" {
        var stored := store.CreateWallet(w, env.live(1));
        if stored.Err? { return Err(stored.error); }
      } else {
        var record := IdempotencyRecord(WalletScope(w.chain), key, "wallet", w.id, env.now(1));
        var stored := store.CreateWalletIdempotently(w, record, env.live(1));
        if stored.Err? { return Err(stored.error); }
        w, created := stored.value.resource, stored.value.isNew;
      }
      if !created { return Ok(w); }
      var ok := AppendAudit(AuditEvent(WalletCreated, "", w.id, wallet.chain, 0), env.now(2), env.live(2));
      if !ok { return Err(ContextDone); }
      out := Ok(w);
    }

    method CreateWallet(chain: Chain, key: string, id: string, generated: Key, env: Calls.Env) returns (out: Result<Wallet, Error>)
      requires Valid()
      modifies store`wallets, store`idempotency, store`auditEvents, signer
      ensures Valid() && (World(), out) == Calls.CreateWallet(cfg, old(World()), chain, key, id, generated, env)
    {
      hide RowsValid, Calls.StoreWallet;
      if !Registered(cfg, chain) { return Err(UnsupportedChain); }
      if !env.live(0) { return Err(ContextDone); }
      var address, publicKey := signer.CreateWallet(cfg, id, chain, generated);
      out := StoreWallet(Wallet(id, chain, address, publicKey, env.now(0)), key, env);
    }

    /** `adapter.BuildTransaction` of the adapter found for the wallet's chain. */
    method BuildTransaction(source: Wallet, request: Request) returns (out: Result<Payload, string>)
      requires Valid() && Registered(cfg, source.chain)
      modifies evm
      ensures Valid() && (evm.nonces, out) == Build(cfg, old(evm.nonces), source, request)
    {
      if source.chain == EVM {
        out := evm.BuildTransaction(cfg, source, request);
      } else {
        out := BuildBitcoin(cfg, source, request);
      }
    }

    /** The part of ProposeTransaction after the payload is built. */
    method StoreNew(p: Record, key: string, env: Calls.Env) returns (out: Result<Record, Error>)
      requires Valid()
      modifies store`transactions, store`rows, store`repr, store`idempotency, store`auditEvents
      ensures Valid() && old(store.repr) <= store.repr && fresh(store.repr - old(store.repr))
      ensures
        var (w, r) := Calls.StoreNew(old(World()), old(Value(p)), key, env);
        World() == w && Agrees(out, r)
    {
      hide RowsValid, IdempotencyKey, TransactionScope;
      var q, created := p, true;
      if key == "" {
        var stored := store.CreateTransaction(q, env.live(2));
        if stored.Err? { return Err(stored.error); }
      } else {
        var record := IdempotencyRecord(TransactionScope(p.request.walletID), key, "transaction", p.id, env.now(0));
        var stored := store.CreateTransactionIdempotently(q, record, env.live(2));
        if stored.Err? { return Err(stored.error); }
        q, created := stored.value.resource, stored.value.isNew;
      }
      if !created { return Ok(q); }
      var ok := AppendAudit(AuditEvent(TransactionProposed, "", q.id, q.chain, 0), env.now(1), env.live(3));
      if !ok { return Err(ContextDone); }
      out := Ok(q);
    }

    method ProposeTransaction(request: Request, key: string, id: string, trace: map<string, string>, env: Calls.Env)
      returns (out: Result<Record, Error>)
      requires Valid()
      modifies store`transactions, store`rows, store`repr, store`idempotency, store`auditEvents, evm
      ensures Valid() && old(store.repr) <= store.repr && fresh(store.repr - old(store.repr))
      ensures
        var (w, r) := Calls.Propose(cfg, old(World()), request, key, id, trace, env);
        World() == w && Agrees(out, r)
    {
      hide RowsValid, Calls.StoreNew, Build, AmountAllowed;
      var found := store.GetWallet(request.walletID, env.live(0));
      if found.Err? { return Err(found.error); }
      var source := found.value;
      if !AmountAllowed(cfg, source.chain, request.amount) { return Err(PolicyViolation); }
      if !Registered(cfg, source.chain) { return Err(UnsupportedChain); }
      if !env.live(1) { return Err(ContextDone); }
      var built := BuildTransaction(source, request);
      if built.Err? { return Err(Other(built.error)); }
      var approvals := new Table<Approval>(id);
      var links := new Table<string>(id);
      links.entries := trace;
      var p := Record(id, source.id, source.chain, Proposed, request, built.value, approvals,
                      Unsigned, "", "", links, env.now(0), env.now(0));
      assert Value(p) == NewProposal(id, source, request, built.value, trace, env.now(0));
      out := StoreNew(p, key, env);
    }
  }

  /** Calls made one after the other on a new service leave the world module Calls describes. */
  method Serve(cfg: Config, ops: seq<Calls.Op>) returns (service: Service)
    ensures fresh(service) && service.Valid() && service.cfg == cfg && service.World() == Calls.After(cfg, ops)
  {
    hide Calls.Propose, Calls.CoSign, Calls.Broadcast, Calls.CreateWallet, Agrees;
    service := new Service(cfg);
    for i := 0 to |ops|
      invariant fresh(service) && fresh(service.store) && fresh(service.store.repr) && fresh(service.signer) && fresh(service.evm)
      invariant service.Valid() && service.cfg == cfg && service.World() == Calls.After(cfg, ops[..i])
    {
      assert ops[..i + 1][..i] == ops[..i];
      match ops[i]
      case CreateWalletOp(chain, key, id, generated, env) =>
        var _ := service.CreateWallet(chain, key, id, generated, env);
      case ProposeOp(r, key, id, trace, env) => var _ := service.ProposeTransaction(r, key, id, trace, env);
      case CoSignOp(tx, signer, salt, env) => var _ := service.CoSign(tx, signer, salt, env);
      case BroadcastOp(tx, refusal, env) => var _ := service.Broadcast(tx, refusal, env);
    }
    assert ops[..|ops|] == ops;
  }
}
