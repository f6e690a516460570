/**
 * What a service call answers and what it leaves stored (internal/wallet/service.go), field by field and
 * error by error, when it runs alone from any world that a run can reach.
 */
module Answers {
  import opened Types
  import opened Setup
  import opened Amounts
  import opened StoreSpec
  import opened StoreFacts
  import opened Chains
  import opened Custody
  import opened Calls
  import opened Guarantees
  import Runs
  import Evolution
  import Creations
  import Nonces
  import AuditTrail
  import Signer = Signing

  /** Rows and wallets are stored under their own ids. */
  ghost predicate Named(w: World) {
    && (forall id :: id in w.store.transactions ==> w.store.transactions[id].id == id)
    && (forall id :: id in w.store.wallets ==> w.store.wallets[id].id == id)
  }

  lemma ReachableNamed(cfg: Config, steps: seq<Step>)
    ensures Named(Runs.At(cfg, steps).world)
  {
    hide Custody.Do, Nonces.LedgerInv, AuditTrail.TrailInv, Evolution.FlowOK, Evolution.HistoryOK, IsId;
    Runs.RunOK(cfg, steps);
    var s := Runs.At(cfg, steps);
    forall id | id in s.world.store.transactions ensures s.world.store.transactions[id].id == id {
      assert id in Evolution.Rows(s) && Evolution.RowOK(cfg, s, id);
    }
    forall id | id in s.world.store.wallets ensures s.world.store.wallets[id].id == id {
      WalletHasKey(cfg, steps, id);
    }
  }

  /** Only row `tx` and the log differ, and the log by exactly these events. */
  ghost predicate Leaves(w: World, v: World, tx: string, events: seq<AuditEvent>) {
    && v.records == w.records && v.nonces == w.nonces
    && v.store.wallets == w.store.wallets && v.store.idempotency == w.store.idempotency
    && v.store.audit == w.store.audit + events
    && tx in w.store.transactions && v.store.transactions.Keys == w.store.transactions.Keys
    && (forall j :: j in w.store.transactions && j != tx ==> v.store.transactions[j] == w.store.transactions[j])
  }

  // ----- CoSign

  /** What the call does with a granted approval `p` that reaches quorum. */
  lemma SignAndMarkTells(cfg: Config, w: World, p: Proposal, salt: int, env: Env)
    requires p.id in w.store.transactions && w.store.transactions[p.id] == p && p.status == Proposed
    ensures var (v, out) := SignAndMark(cfg, w, p, salt, env); var sign := Signer.Sign(cfg, w.records, p, salt);
      && (out.Err? ==> out.error == ContextDone || out.error.Other?)
      && (out.Ok? ==>
            && sign.Ok? && Leaves(w, v, p.id, [AuditEvent(TransactionSigned, "", p.id, p.chain, env.now(4))])
            && v.store.transactions[p.id] == out.value && SameOrigin(p, out.value)
            && out.value.status == Signed && out.value.signed == sign.value && out.value.approvals == p.approvals
            && IsLatest(out.value.updatedAt, p.updatedAt, p.approvals))
      && (env.cancelled.None? && sign.Err? ==>
            && out == Err(Other(sign.error))
            && Leaves(w, v, p.id, [AuditEvent(TransactionFailed, "", p.id, p.chain, env.now(4))])
            && var q := v.store.transactions[p.id];
               && SameOrigin(p, q) && q.status == Failed && q.error == sign.error && q.updatedAt == env.now(3)
               && q.approvals == p.approvals && q.signed == p.signed)
      && (env.cancelled.None? && sign.Ok? ==> out.Ok?)
  {
    hide Signer.Sign;
    match Signer.Sign(cfg, w.records, p, salt)
    case Ok(signed) =>
      MarkSignedTells(w.store, p.id, signed, None);
      hide MarkSigned;
    case Err(cause) => UpdateTells(w.store, AsFailed(p, cause, env.now(3)));
  }

  /** The call passes the checks of CoSign and the store's. */
  ghost predicate CanApprove(cfg: Config, w: World, tx: string, signer: string, env: Env) {
    && signer != "" && (cfg.allowedSigners == {} || signer in cfg.allowedSigners) && env.live(0)
    && tx in w.store.transactions && w.store.transactions[tx].status == Proposed
    && signer !in w.store.transactions[tx].approvals
  }

  /** Each refusal of CoSign, exactly; none of them changes anything. */
  lemma CoSignRefuses(cfg: Config, w: World, tx: string, signer: string, salt: int, env: Env)
    requires Named(w)
    ensures var (v, out) := CoSign(cfg, w, tx, signer, salt, env);
      var open := signer != "" && (cfg.allowedSigners == {} || signer in cfg.allowedSigners) && env.live(0);
      && (out == Err(SignerRequired) <==> signer == "")
      && (out == Err(UnauthorizedSigner) <==> signer != "" && cfg.allowedSigners != {} && signer !in cfg.allowedSigners)
      && (out == Err(TransactionNotFound) <==> open && tx !in w.store.transactions)
      && (out == Err(TransactionNotProposed) <==> open && tx in w.store.transactions && w.store.transactions[tx].status != Proposed)
      && (out == Err(DuplicateApproval) <==>
            && open && tx in w.store.transactions && w.store.transactions[tx].status == Proposed
            && signer in w.store.transactions[tx].approvals)
      && (!CanApprove(cfg, w, tx, signer, env) ==> out.Err? && v == w)
  {
    var a := Approval(signer, env.now(0));
    AddApprovalTells(w.store, tx, a);
    if CanApprove(cfg, w, tx, signer, env) {
      var (store, granted) := AddApproval(w.store, tx, a);
      var w2 := Logged(w.(store := store), Event(TransactionApproved, signer, granted.value, env.now(1)));
      SignAndMarkTells(cfg, w2, granted.value, salt, env);
    }
    hide SignAndMark, AddApproval;
  }

  /** One change after another. */
  lemma LeavesOn(w: World, v: World, u: World, tx: string, e: seq<AuditEvent>, f: seq<AuditEvent>)
    requires Leaves(w, v, tx, e) && Leaves(v, u, tx, f)
    ensures Leaves(w, u, tx, e + f)
  {}

  /** The world and the row once the approval is stored and logged. */
  lemma Approving(cfg: Config, w: World, tx: string, signer: string, env: Env) returns (v: World, q: Proposal)
    requires Named(w) && CanApprove(cfg, w, tx, signer, env)
    ensures var a := Approval(signer, env.now(0)); var p := w.store.transactions[tx];
      && (v.store, Ok(q)) == (Append(AddApproval(w.store, tx, a).0, AuditEvent(TransactionApproved, signer, tx, p.chain, env.now(1))),
                              AddApproval(w.store, tx, a).1)
      && v == Logged(w.(store := AddApproval(w.store, tx, a).0), Event(TransactionApproved, signer, q, env.now(1)))
      && Leaves(w, v, tx, [AuditEvent(TransactionApproved, signer, tx, p.chain, env.now(1))])
      && q.id == tx && v.store.transactions[tx] == q && SameOrigin(p, q) && q.status == Proposed
      && OneMore(p.approvals, q.approvals, a) && q.updatedAt == env.now(0) && q.signed == p.signed
  {
    var a := Approval(signer, env.now(0));
    AddApprovalTells(w.store, tx, a);
    q := AddApproval(w.store, tx, a).1.value;
    v := Logged(w.(store := AddApproval(w.store, tx, a).0), Event(TransactionApproved, signer, q, env.now(1)));
    hide AddApproval;
  }

  lemma ApprovalsGrow(before: map<string, Approval>, after: map<string, Approval>, a: Approval)
    requires OneMore(before, after, a) && a.signerID !in before
    ensures |after| == |before| + 1
  {
    assert after.Keys == before.Keys + {a.signerID};
    assert |after.Keys| == |before.Keys| + 1;
  }

  /** A first approval: the row stays Proposed and is what the call answers. */
  lemma FirstCoSign(cfg: Config, w: World, tx: string, signer: string, salt: int, env: Env)
    requires Named(w) && CanApprove(cfg, w, tx, signer, env) && w.store.transactions[tx].approvals == map[] && env.live(1)
    ensures var (v, out) := CoSign(cfg, w, tx, signer, salt, env); var p := w.store.transactions[tx];
      && Leaves(w, v, tx, [AuditEvent(TransactionApproved, signer, tx, p.chain, env.now(1))])
      && out == Ok(v.store.transactions[tx])
      && var q := v.store.transactions[tx];
         && SameOrigin(p, q) && q.status == Proposed && q.approvals == map[signer := Approval(signer, env.now(0))]
         && q.updatedAt == env.now(0) && q.signed == p.signed
  {
    var v, q := Approving(cfg, w, tx, signer, env);
    ApprovalsGrow(w.store.transactions[tx].approvals, q.approvals, Approval(signer, env.now(0)));
    hide AddApproval, SignAndMark, Leaves;
  }

  /** The approval that reaches quorum: the row is signed, or failed with the signer's own words, and the call answers so. */
  lemma QuorumCoSign(cfg: Config, w: World, tx: string, signer: string, salt: int, env: Env)
    requires Named(w) && CanApprove(cfg, w, tx, signer, env) && w.store.transactions[tx].approvals != map[] && env.cancelled.None?
    ensures var (v, out) := CoSign(cfg, w, tx, signer, salt, env); var p := w.store.transactions[tx];
      var approved := AuditEvent(TransactionApproved, signer, tx, p.chain, env.now(1));
      && tx in v.store.transactions
      && var q := v.store.transactions[tx];
         && SameOrigin(p, q) && OneMore(p.approvals, q.approvals, Approval(signer, env.now(0)))
         && var sign := Signer.Sign(cfg, w.records, p.(approvals := q.approvals, updatedAt := env.now(0)), salt);
            && (sign.Ok? ==>
                  && out == Ok(q) && q.status == Signed && q.signed == sign.value && !q.signed.Unsigned?
                  && IsLatest(q.updatedAt, env.now(0), q.approvals)
                  && Leaves(w, v, tx, [approved, AuditEvent(TransactionSigned, "", tx, p.chain, env.now(4))]))
            && (sign.Err? ==>
                  && out == Err(Other(sign.error)) && q.status == Failed && q.error == sign.error && q.updatedAt == env.now(3)
                  && q.signed == p.signed
                  && Leaves(w, v, tx, [approved, AuditEvent(TransactionFailed, "", tx, p.chain, env.now(4))]))
  {
    var a, p := Approval(signer, env.now(0)), w.store.transactions[tx];
    var v1, q := Approving(cfg, w, tx, signer, env);
    CoSignShape(cfg, w, tx, signer, salt, env, v1, q);
    GrantedRow(w, tx, a);
    hide CoSign, AddApproval, CanApprove, Signer.Sign;
    var v := CoSign(cfg, w, tx, signer, salt, env).0;
    SignAndMarkTells(cfg, v1, q, salt, env);
    Signer.SignTells(cfg, v1.records, q, salt);
    SameOriginTrans(p, q);
    assert v1.records == w.records && tx in v.store.transactions;
    hide SignAndMark, SameOrigin, OneMore, IsLatest, Leaves;
    var approved := AuditEvent(TransactionApproved, signer, tx, p.chain, env.now(1));
    var signed := AuditEvent(TransactionSigned, "", tx, p.chain, env.now(4));
    var failed := AuditEvent(TransactionFailed, "", tx, p.chain, env.now(4));
    if Signer.Sign(cfg, w.records, q, salt).Ok? {
      LeavesOn(w, v1, v, tx, [approved], [signed]);
      assert [approved] + [signed] == [approved, signed];
    } else {
      LeavesOn(w, v1, v, tx, [approved], [failed]);
      assert [approved] + [failed] == [approved, failed];
    }
  }

  /** The approval is in, but the context ended before the call was done: the call says so and stores no more. */
  lemma CoSignCancelled(cfg: Config, w: World, tx: string, signer: string, salt: int, env: Env)
    requires Named(w) && CanApprove(cfg, w, tx, signer, env)
    ensures var (v, out) := CoSign(cfg, w, tx, signer, salt, env); var p := w.store.transactions[tx];
      var approved := AuditEvent(TransactionApproved, signer, tx, p.chain, env.now(1));
      && tx in v.store.transactions && SameOrigin(p, v.store.transactions[tx])
      && OneMore(p.approvals, v.store.transactions[tx].approvals, Approval(signer, env.now(0)))
      && (!env.live(1) ==> out == Err(ContextDone) && Leaves(w, v, tx, []) && v.store.transactions[tx].status == Proposed)
      && (env.live(1) && !env.live(2) && p.approvals != map[] ==>
            out == Err(ContextDone) && Leaves(w, v, tx, [approved]) && v.store.transactions[tx].status == Proposed)
      && (out.Ok? ==>
            && env.live(1) && out == Ok(v.store.transactions[tx])
            && Leaves(w, v, tx, if p.approvals == map[] then [approved]
                                else [approved, AuditEvent(TransactionSigned, "", tx, p.chain, env.now(4))]))
  {
    var v1, q := Approving(cfg, w, tx, signer, env);
    CoSignShape(cfg, w, tx, signer, salt, env, v1, q);
    hide CoSign, AddApproval, CanApprove;
    var p := w.store.transactions[tx];
    if env.live(1) && p.approvals != map[] {
      SignAndMarkTells(cfg, v1, q, salt, env);
      SignKeepsApprovals(cfg, v1, q, salt, env);
      assert !env.live(2) ==> SignAndMark(cfg, v1, q, salt, env) == (v1, Err(ContextDone));
      hide SignAndMark;
      var v := SignAndMark(cfg, v1, q, salt, env).0;
      var approved := AuditEvent(TransactionApproved, signer, tx, p.chain, env.now(1));
      var signed := AuditEvent(TransactionSigned, "", tx, p.chain, env.now(4));
      if SignAndMark(cfg, v1, q, salt, env).1.Ok? {
        LeavesOn(w, v1, v, tx, [approved], [signed]);
        assert [approved] + [signed] == [approved, signed];
      }
    }
  }

  lemma SameOriginTrans(p: Proposal, q: Proposal)
    requires SameOrigin(p, q)
    ensures forall r :: SameOrigin(q, r) ==> SameOrigin(p, r)
  {}

  lemma GrantedRow(w: World, tx: string, a: Approval)
    requires AddApproval(w.store, tx, a).1.Ok?
    ensures tx in w.store.transactions
    ensures var p, q := w.store.transactions[tx], AddApproval(w.store, tx, a).1.value;
      q == p.(approvals := q.approvals, updatedAt := a.createdAt)
  {}

  /** A granted approval, by cases: no event, no quorum, or on to the signer. */
  lemma CoSignShape(cfg: Config, w: World, tx: string, signer: string, salt: int, env: Env, v1: World, q: Proposal)
    requires Named(w) && CanApprove(cfg, w, tx, signer, env)
    requires var a := Approval(signer, env.now(0));
      && AddApproval(w.store, tx, a).1 == Ok(q) && q.status == Proposed && OneMore(w.store.transactions[tx].approvals, q.approvals, a)
      && v1 == Logged(w.(store := AddApproval(w.store, tx, a).0), Event(TransactionApproved, signer, q, env.now(1)))
    ensures var (v, out) := CoSign(cfg, w, tx, signer, salt, env);
      && (!env.live(1) ==>
            && out == Err(ContextDone) && Leaves(w, v, tx, []) && v.store.transactions[tx] == q)
      && (env.live(1) ==>
            (v, out) == if w.store.transactions[tx].approvals == map[] then (v1, Ok(q)) else SignAndMark(cfg, v1, q, salt, env))
  {
    var a := Approval(signer, env.now(0));
    ApprovalsGrow(w.store.transactions[tx].approvals, q.approvals, a);
    AddApprovalTells(w.store, tx, a);
    hide SignAndMark, AddApproval;
  }

  /** The row keeps its origin and its approvals. */
  ghost predicate KeepsApprovals(s: Store, p: Proposal) {
    p.id in s.transactions && SameOrigin(p, s.transactions[p.id]) && s.transactions[p.id].approvals == p.approvals
  }

  lemma FailKeepsApprovals(w: World, p: Proposal, cause: string, env: Env, k: nat)
    requires p.id in w.store.transactions && w.store.transactions[p.id] == p
    ensures KeepsApprovals(Fail(w, p, cause, env, k).store, p)
  {
    UpdateTells(w.store, AsFailed(p, cause, env.now(k)));
    hide UpdateTransaction;
  }

  lemma SignKeepsApprovals(cfg: Config, w: World, p: Proposal, salt: int, env: Env)
    requires p.id in w.store.transactions && w.store.transactions[p.id] == p && p.status == Proposed
    ensures KeepsApprovals(SignAndMark(cfg, w, p, salt, env).0.store, p)
  {
    hide Signer.Sign, Fail;
    assert KeepsApprovals(w.store, p);
    match Signer.Sign(cfg, w.records, p, salt)
    case Ok(signed) =>
      MarkSignedTells(w.store, p.id, signed, None);
      assert KeepsApprovals(MarkSigned(w.store, p.id, signed, None).0, p);
      hide MarkSigned, KeepsApprovals;
      KeepsThroughLog(MarkSigned(w.store, p.id, signed, None).0, p);
    case Err(cause) => FailKeepsApprovals(w, p, cause, env, 3);
  }

  lemma KeepsThroughLog(t: Store, p: Proposal)
    requires KeepsApprovals(t, p)
    ensures forall e :: KeepsApprovals(Append(t, e), p)
  {}

  // ----- Broadcast

  /** Each refusal of Broadcast before the adapter, exactly; none of them changes anything. */
  lemma BroadcastRefuses(cfg: Config, w: World, tx: string, refusal: Option<string>, env: Env)
    requires Named(w) && env.live(0)
    ensures var (v, out) := Calls.Broadcast(cfg, w, tx, refusal, env);
      var ready := tx in w.store.transactions && w.store.transactions[tx].status == Signed && w.store.transactions[tx].signed != Unsigned;
      var known := ready && ((w.store.transactions[tx].chain == "bitcoin" && cfg.bitcoin) || (w.store.transactions[tx].chain == "evm" && cfg.evm));
      && (out == Err(TransactionNotFound) <==> tx !in w.store.transactions)
      && (out == Err(TransactionNotSigned) <==> tx in w.store.transactions && !ready)
      && (out == Err(UnsupportedChain) <==> ready && !known)
      && (!known ==> out.Err? && v == w)
  {
    if tx in w.store.transactions {
      var p := w.store.transactions[tx];
      UpdateTells(w.store, AsBroadcast(p, cfg.hash(p.chain, p.signed), env.now(2)));
    }
    hide UpdateTransaction;
  }

  /** The adapter's answer is recorded in the row, and the row is the call's answer. */
  lemma BroadcastAnswers(cfg: Config, w: World, tx: string, refusal: Option<string>, env: Env)
    requires Named(w) && env.cancelled.None? && tx in w.store.transactions
    requires var p := w.store.transactions[tx];
      && p.status == Signed && p.signed != Unsigned
      && ((p.chain == "bitcoin" && cfg.bitcoin) || (p.chain == "evm" && cfg.evm))
    ensures var (v, out) := Calls.Broadcast(cfg, w, tx, refusal, env); var p := w.store.transactions[tx];
      && tx in v.store.transactions
      && var q := v.store.transactions[tx];
         && SameOrigin(p, q) && q.approvals == p.approvals && q.signed == p.signed && q.updatedAt == env.now(2)
         && (if p.chain == "evm" && cfg.node && refusal.Some? then
               && out == Err(Other(refusal.value)) && q.status == Failed && q.error == refusal.value && q.hash == p.hash
               && Leaves(w, v, tx, [AuditEvent(TransactionFailed, "", tx, p.chain, env.now(3))])
             else
               && out == Ok(q) && q.status == Types.Broadcast && q.hash == cfg.hash(p.chain, p.signed) && q.error == p.error
               && Leaves(w, v, tx, [AuditEvent(TransactionBroadcast, "", tx, p.chain, env.now(3))]))
  {
    var p := w.store.transactions[tx];
    match Send(cfg, p, refusal)
    case Ok(hash) => UpdateTells(w.store, AsBroadcast(p, hash, env.now(2)));
    case Err(cause) => UpdateTells(w.store, AsFailed(p, cause, env.now(2)));
  }

  /** The context ended after the adapter was asked: nothing is recorded, or the row is but not the event. */
  lemma BroadcastCancelled(cfg: Config, w: World, tx: string, refusal: Option<string>, env: Env)
    requires Named(w) && env.live(0) && tx in w.store.transactions
    requires var p := w.store.transactions[tx];
      && p.status == Signed && p.signed != Unsigned
      && ((p.chain == "bitcoin" && cfg.bitcoin) || (p.chain == "evm" && cfg.evm))
    ensures var (v, out) := Calls.Broadcast(cfg, w, tx, refusal, env); var p := w.store.transactions[tx];
      && (!env.live(1) ==> out == Err(ContextDone) && v == w)
      && (env.live(1) && !env.live(2) ==>
            v == w && out == if p.chain == "evm" && cfg.node && refusal.Some? then Err(Other(refusal.value)) else Err(ContextDone))
      && (env.live(2) && !env.live(3) ==>
            && Leaves(w, v, tx, []) && SameOrigin(p, v.store.transactions[tx])
            && (if p.chain == "evm" && cfg.node && refusal.Some?
                then out == Err(Other(refusal.value)) && v.store.transactions[tx].status == Failed
                else out == Err(ContextDone) && v.store.transactions[tx].status == Types.Broadcast))
  {
    var p := w.store.transactions[tx];
    match Send(cfg, p, refusal)
    case Ok(hash) => UpdateTells(w.store, AsBroadcast(p, hash, env.now(2)));
    case Err(cause) => UpdateTells(w.store, AsFailed(p, cause, env.now(2)));
  }

  /** Whatever becomes of the context, an answered row is the stored row, with the hash of what was signed. */
  lemma BroadcastAnswersStored(cfg: Config, w: World, tx: string, refusal: Option<string>, env: Env)
    requires Named(w) && Calls.Broadcast(cfg, w, tx, refusal, env).1.Ok?
    ensures var (v, out) := Calls.Broadcast(cfg, w, tx, refusal, env);
      && tx in w.store.transactions && tx in v.store.transactions && out == Ok(v.store.transactions[tx])
      && out.value.status == Types.Broadcast && out.value.hash == cfg.hash(out.value.chain, out.value.signed)
      && out.value.signed == w.store.transactions[tx].signed
      && v.store.audit == w.store.audit + [AuditEvent(TransactionBroadcast, "", tx, out.value.chain, env.now(3))]
  {}

  // ----- CreateWallet

  /** The key of a new wallet: EVM wallets share the configured one. */
  function KeyFor(cfg: Config, chain: Chain, generated: Key): Key {
    if chain == "evm" && cfg.devKey.Some? then cfg.devKey.value else generated
  }

  predicate Known(cfg: Config, chain: Chain) { (chain == "bitcoin" && cfg.bitcoin) || (chain == "evm" && cfg.evm) }

  /** A chain without adapter is refused, exactly. */
  lemma CreateWalletRefuses(cfg: Config, w: World, chain: Chain, key: string, id: string, generated: Key, env: Env)
    ensures var (v, out) := Calls.CreateWallet(cfg, w, chain, key, id, generated, env);
      && (out == Err(UnsupportedChain) <==> !Known(cfg, chain))
      && (!Known(cfg, chain) ==> v == w)
  {
    hide IdempotencyKey;
  }

  /** A fresh key, or none, stores one wallet with the signer's address and public key, and answers with it. */
  lemma CreateWalletStores(cfg: Config, w: World, chain: Chain, key: string, id: string, generated: Key, env: Env)
    requires Known(cfg, chain) && env.cancelled.None? && id !in w.store.wallets
    requires key == "" || "wallet:" + chain + "\0" + key !in w.store.idempotency
    ensures var (v, out) := Calls.CreateWallet(cfg, w, chain, key, id, generated, env);
      var k := KeyFor(cfg, chain, generated);
      var x := Wallet(id, chain, cfg.address(chain, k), cfg.publicKey(chain, k), env.now(0));
      && out == Ok(x)
      && v.store == Store(w.store.wallets[id := x], w.store.transactions,
                          if key == "" then w.store.idempotency
                          else w.store.idempotency["wallet:" + chain + "\0" + key :=
                                 IdempotencyRecord("wallet:" + chain, key, "wallet", id, env.now(1))],
                          w.store.audit + [AuditEvent(WalletCreated, "", id, chain, env.now(2))])
      && v.records == w.records[id := Signer.KeyRecord(chain, k, x.publicKey, x.address)] && v.nonces == w.nonces
  {
    var r := Signer.RecordFor(cfg, chain, generated);
    var x := Wallet(id, chain, r.address, r.publicKey, env.now(0));
    CreateWalletTells(w.store, x);
    CreateWalletOnceTells(w.store, x, WalletRecord(x, key, env.now(1)));
    assert WalletScope(chain) + "\0" + key == "wallet:" + chain + "\0" + key;
    hide StoreSpec.CreateWallet, CreateWalletOnce, IdempotencyKey;
  }

  /** The context ended on the way: before the signer nothing happens; after it the key record stays, and then perhaps the wallet, without its event. */
  lemma CreateWalletCancelled(cfg: Config, w: World, chain: Chain, key: string, id: string, generated: Key, env: Env)
    requires Known(cfg, chain) && env.cancelled.Some? && id !in w.store.wallets
    requires key == "" || "wallet:" + chain + "\0" + key !in w.store.idempotency
    ensures var (v, out) := Calls.CreateWallet(cfg, w, chain, key, id, generated, env);
      && (env.cancelled.value <= 2 ==> out == Err(ContextDone) && v.store.audit == w.store.audit)
      && (env.cancelled.value == 0 ==> v == w)
      && (env.cancelled.value == 1 ==> v.store == w.store && v.records.Keys == w.records.Keys + {id})
      && (env.cancelled.value == 2 ==> v.store.wallets.Keys == w.store.wallets.Keys + {id})
  {
    var r := Signer.RecordFor(cfg, chain, generated);
    var x := Wallet(id, chain, r.address, r.publicKey, env.now(0));
    CreateWalletTells(w.store, x);
    CreateWalletOnceTells(w.store, x, WalletRecord(x, key, env.now(1)));
    assert WalletScope(chain) + "\0" + key == "wallet:" + chain + "\0" + key;
    hide StoreSpec.CreateWallet, CreateWalletOnce, IdempotencyKey;
  }

  /** A key used once answers for good with the wallet it was used for, and stores nothing more. */
  lemma CreateWalletReplays(cfg: Config, a: seq<Step>, b: seq<Step>, chain: Chain, key: string, id: string, generated: Key, env: Env)
    requires Known(cfg, chain) && key != "" && env.cancelled.None?
    requires "wallet:" + chain + "\0" + key in Runs.At(cfg, a).world.store.idempotency
    ensures var s, w := Runs.At(cfg, a).world.store, Runs.At(cfg, a + b).world;
      var first := s.idempotency["wallet:" + chain + "\0" + key].resourceID;
      var (v, out) := Calls.CreateWallet(cfg, w, chain, key, id, generated, env);
      && first in s.wallets && out == Ok(s.wallets[first]) && s.wallets[first].id == first && s.wallets[first].chain == chain
      && v.store == w.store
  {
    hide Custody.Do, Custody.Exec;
    var w := Runs.At(cfg, a + b).world;
    var r := Signer.RecordFor(cfg, chain, generated);
    var x := Wallet(id, chain, r.address, r.publicKey, env.now(0));
    WalletKeyText(chain, key);
    SameKeySameWallet(cfg, a, b, x, key, env.now(1));
    CreateWalletResolves(cfg, a + b, x, key, env.now(1));
    CreateWalletOnceTells(w.store, x, WalletRecord(x, key, env.now(1)));
    ReachableNamed(cfg, a);
    hide IdempotencyKey, WalletScope, CreateWalletOnce;
  }

  lemma WalletKeyText(chain: Chain, key: string)
    ensures IdempotencyKey(WalletScope(chain), key) == "wallet:" + chain + "\0" + key
  {}

  /** Whatever the key and the context, an answered wallet is stored, under its id, and of the asked chain. */
  lemma CreateWalletAnswersStored(cfg: Config, steps: seq<Step>, chain: Chain, key: string, id: string, generated: Key, env: Env)
    requires Calls.CreateWallet(cfg, Runs.At(cfg, steps).world, chain, key, id, generated, env).1.Ok?
    ensures var (v, out) := Calls.CreateWallet(cfg, Runs.At(cfg, steps).world, chain, key, id, generated, env);
      out.value.id in v.store.wallets && v.store.wallets[out.value.id] == out.value && out.value.chain == chain
  {
    hide Custody.Do, Custody.Exec;
    var w := Runs.At(cfg, steps).world;
    var r := Signer.RecordFor(cfg, chain, generated);
    var x := Wallet(id, chain, r.address, r.publicKey, env.now(0));
    ReachableNamed(cfg, steps);
    CreateWalletResolves(cfg, steps, x, key, env.now(1));
    CreateWalletTells(w.store, x);
    CreateWalletOnceTells(w.store, x, WalletRecord(x, key, env.now(1)));
    hide IdempotencyKey, WalletScope, CreateWalletOnce, StoreSpec.CreateWallet;
  }

  // ----- ProposeTransaction

  lemma ProposalKeyText(walletID: string, key: string)
    ensures IdempotencyKey(TransactionScope(walletID), key) == "transaction:" + walletID + "\0" + key
    ensures TransactionScope(walletID) == "transaction:" + walletID
  {}

  /** What the call does with a proposal it has built. */
  lemma StoreNewTells(w: World, p: Proposal, key: string, env: Env)
    ensures var (v, out) := StoreNew(w, p, key, env); var k := IdempotencyKey(TransactionScope(p.request.walletID), key);
      && v.nonces == w.nonces && v.records == w.records
      && (out.Err? ==> out.error in {ContextDone, DuplicateTransaction, TransactionNotFound})
      && (env.cancelled.None? && (key == "" || k !in w.store.idempotency) && p.id !in w.store.transactions ==>
            && out == Ok(p)
            && v.store == Store(w.store.wallets, w.store.transactions[p.id := p],
                                if key == "" then w.store.idempotency else w.store.idempotency[k := ProposalRecord(p, key, env.now(0))],
                                w.store.audit + [AuditEvent(TransactionProposed, "", p.id, p.chain, env.now(1))]))
      && (env.cancelled.None? && key != "" && k in w.store.idempotency ==>
            && v == w
            && var first := w.store.idempotency[k].resourceID;
               out == if first in w.store.transactions then Ok(w.store.transactions[first]) else Err(TransactionNotFound))
      && (out.Ok? ==>
            || (out.value == p && p.id in v.store.transactions && v.store.transactions[p.id] == p)
            || (key != "" && k in w.store.idempotency && v.store == w.store
                && var first := w.store.idempotency[k].resourceID; first in w.store.transactions && out.value == w.store.transactions[first]))
  {
    CreateTransactionTells(w.store, p);
    CreateTransactionOnceTells(w.store, p, ProposalRecord(p, key, env.now(0)));
    assert IdempotencyKey(TransactionScope(p.request.walletID), key) == TransactionScope(p.request.walletID) + "\0" + key;
    hide CreateTransaction, CreateTransactionOnce, IdempotencyKey, TransactionScope;
  }

  /** The refusals of ProposeTransaction before it builds anything, exactly. */
  lemma ProposeRefuses(cfg: Config, w: World, r: Request, key: string, id: string, trace: map<string, string>, env: Env)
    requires env.live(0) && (r.walletID in w.store.wallets ==> Known(cfg, w.store.wallets[r.walletID].chain))
    ensures var (v, out) := Propose(cfg, w, r, key, id, trace, env);
      && (out == Err(WalletNotFound) <==> r.walletID !in w.store.wallets)
      && (out == Err(PolicyViolation) <==>
            && r.walletID in w.store.wallets
            && forall n :: Denotes(r.amount, n) ==> !WithinCap(cfg, w.store.wallets[r.walletID].chain, n))
      && (out == Err(WalletNotFound) || out == Err(PolicyViolation) ==> v == w)
  {
    if r.walletID in w.store.wallets {
      var source := w.store.wallets[r.walletID];
      PolicyAcceptsIff(cfg, source.chain, r.amount);
      var (nonces, built) := Build(cfg, w.nonces, source, r);
      if built.Ok? {
        StoreNewTells(w.(nonces := nonces), NewProposal(id, source, r, built.value, trace, env.now(0)), key, env);
      }
    }
    hide AmountAllowed, Denotes, WithinCap, Build, StoreNew, IdempotencyKey, TransactionScope;
  }

  /** The wallet is there, its chain has an adapter, and the amount passes the policy. */
  ghost predicate CanPropose(cfg: Config, w: World, r: Request) {
    && r.walletID in w.store.wallets && Known(cfg, w.store.wallets[r.walletID].chain)
    && exists n :: Denotes(r.amount, n) && WithinCap(cfg, w.store.wallets[r.walletID].chain, n)
  }

  /** A call that may propose builds, and then stores what it built. */
  lemma ProposeBuilds(cfg: Config, w: World, r: Request, key: string, id: string, trace: map<string, string>, env: Env)
    requires Named(w) && CanPropose(cfg, w, r) && env.live(0) && env.live(1)
    ensures var source := w.store.wallets[r.walletID]; var (nonces, built) := Build(cfg, w.nonces, source, r);
      var p := (raw: Payload) => Proposal(id, r.walletID, source.chain, Proposed, r, raw, map[], Unsigned, "", "", trace, env.now(0), env.now(0));
      Propose(cfg, w, r, key, id, trace, env) ==
        match built
        case Err(e) => (w.(nonces := nonces), Err(Other(e)))
        case Ok(raw) => StoreNew(w.(nonces := nonces), p(raw), key, env)
  {
    PolicyAcceptsIff(cfg, w.store.wallets[r.walletID].chain, r.amount);
    hide AmountAllowed, Denotes, WithinCap, Build, StoreNew;
  }

  /** What is built is what is stored, under a fresh key or none, and what the call answers. */
  lemma ProposeStores(cfg: Config, w: World, r: Request, key: string, id: string, trace: map<string, string>, env: Env)
    requires Named(w) && CanPropose(cfg, w, r) && env.cancelled.None? && id !in w.store.transactions
    requires key == "" || "transaction:" + r.walletID + "\0" + key !in w.store.idempotency
    ensures var (v, out) := Propose(cfg, w, r, key, id, trace, env);
      var source := w.store.wallets[r.walletID];
      var (nonces, built) := Build(cfg, w.nonces, source, r);
      && v.nonces == nonces && v.records == w.records
      && (built.Err? ==> out == Err(Other(built.error)) && v.store == w.store)
      && (built.Ok? ==>
            var p := Proposal(id, r.walletID, source.chain, Proposed, r, built.value, map[], Unsigned, "", "", trace, env.now(0), env.now(0));
            && out == Ok(p)
            && v.store == Store(w.store.wallets, w.store.transactions[id := p],
                                if key == "" then w.store.idempotency
                                else w.store.idempotency["transaction:" + r.walletID + "\0" + key :=
                                       IdempotencyRecord("transaction:" + r.walletID, key, "transaction", id, env.now(0))],
                                w.store.audit + [AuditEvent(TransactionProposed, "", id, source.chain, env.now(1))]))
  {
    ProposeBuilds(cfg, w, r, key, id, trace, env);
    ProposalKeyText(r.walletID, key);
    hide CanPropose, Propose, Build, StoreNew, IdempotencyKey, TransactionScope;
    var source := w.store.wallets[r.walletID];
    var (nonces, built) := Build(cfg, w.nonces, source, r);
    if built.Ok? {
      var p := Proposal(id, r.walletID, source.chain, Proposed, r, built.value, map[], Unsigned, "", "", trace, env.now(0), env.now(0));
      StoreNewTells(w.(nonces := nonces), p, key, env);
    }
  }

  /** A key used once answers for good with the current row of the proposal it was used for, and stores nothing more. */
  lemma ProposeReplays(cfg: Config, a: seq<Step>, b: seq<Step>, r: Request, key: string, id: string, trace: map<string, string>, env: Env)
    requires key != "" && env.cancelled.None? && r.walletID in Runs.At(cfg, a).world.store.wallets
    requires "transaction:" + r.walletID + "\0" + key in Runs.At(cfg, a).world.store.idempotency
    requires CanPropose(cfg, Runs.At(cfg, a + b).world, r)
    requires var w := Runs.At(cfg, a + b).world; Build(cfg, w.nonces, w.store.wallets[r.walletID], r).1.Ok?
    ensures var w := Runs.At(cfg, a + b).world;
      var first := Runs.At(cfg, a).world.store.idempotency["transaction:" + r.walletID + "\0" + key].resourceID;
      var (v, out) := Propose(cfg, w, r, key, id, trace, env);
      && first in w.store.transactions && out == Ok(w.store.transactions[first]) && out.value.id == first
      && v.store == w.store
  {
    hide Custody.Do, Custody.Exec;
    var w := Runs.At(cfg, a + b).world;
    ProposalKeyText(r.walletID, key);
    ReachableNamed(cfg, a + b);
    ProposeBuilds(cfg, w, r, key, id, trace, env);
    hide CanPropose, Propose, Build, StoreNew, IdempotencyKey, TransactionScope, CreateTransactionOnce;
    var source := w.store.wallets[r.walletID];
    var (nonces, built) := Build(cfg, w.nonces, source, r);
    var p := Proposal(id, r.walletID, source.chain, Proposed, r, built.value, map[], Unsigned, "", "", trace, env.now(0), env.now(0));
    StoreNewTells(w.(nonces := nonces), p, key, env);
    SameKeySameProposal(cfg, a, b, p, key, env.now(0));
    Runs.NothingIsForgotten(cfg, a, b);
  }

  /** Whatever the key and the context, an answered proposal is the stored row, of the asked wallet. */
  lemma ProposeAnswersStored(cfg: Config, steps: seq<Step>, r: Request, key: string, id: string, trace: map<string, string>, env: Env)
    requires Propose(cfg, Runs.At(cfg, steps).world, r, key, id, trace, env).1.Ok?
    ensures var (v, out) := Propose(cfg, Runs.At(cfg, steps).world, r, key, id, trace, env);
      out.value.id in v.store.transactions && v.store.transactions[out.value.id] == out.value && out.value.walletID == r.walletID
  {
    hide Custody.Do, Custody.Exec, Build, AmountAllowed, Registered;
    var w := Runs.At(cfg, steps).world;
    ReachableNamed(cfg, steps);
    var source := w.store.wallets[r.walletID];
    var (nonces, built) := Build(cfg, w.nonces, source, r);
    var p := NewProposal(id, source, r, built.value, trace, env.now(0));
    assert Propose(cfg, w, r, key, id, trace, env) == StoreNew(w.(nonces := nonces), p, key, env) by { hide StoreNew; }
    StoreNewTells(w.(nonces := nonces), p, key, env);
    hide Propose, StoreNew, IdempotencyKey, TransactionScope;
    Runs.RunOK(cfg, steps);
    ProposalRecordResolves(cfg, Runs.At(cfg, steps), r.walletID, key);
  }

  /** The context ended on the way: nothing, then a nonce, then perhaps the row, without its event. */
  lemma ProposeCancelled(cfg: Config, w: World, r: Request, key: string, id: string, trace: map<string, string>, env: Env)
    requires Named(w) && CanPropose(cfg, w, r) && env.cancelled.Some? && id !in w.store.transactions
    requires key == "" || "transaction:" + r.walletID + "\0" + key !in w.store.idempotency
    requires Build(cfg, w.nonces, w.store.wallets[r.walletID], r).1.Ok?
    ensures var (v, out) := Propose(cfg, w, r, key, id, trace, env);
      && (env.cancelled.value <= 3 ==> out == Err(ContextDone) && v.store.audit == w.store.audit && v.records == w.records)
      && (env.cancelled.value <= 1 ==> v == w)
      && (env.cancelled.value == 2 ==> v.store == w.store && v.nonces == Build(cfg, w.nonces, w.store.wallets[r.walletID], r).0)
      && (env.cancelled.value == 3 ==> v.store.transactions.Keys == w.store.transactions.Keys + {id})
  {
    PolicyAcceptsIff(cfg, w.store.wallets[r.walletID].chain, r.amount);
    ProposalKeyText(r.walletID, key);
    if env.live(1) {
      ProposeBuilds(cfg, w, r, key, id, trace, env);
      var source := w.store.wallets[r.walletID];
      var (nonces, built) := Build(cfg, w.nonces, source, r);
      var p := Proposal(id, r.walletID, source.chain, Proposed, r, built.value, map[], Unsigned, "", "", trace, env.now(0), env.now(0));
      StoreNewCancelled(w.(nonces := nonces), p, key, env);
    }
    hide AmountAllowed, Denotes, WithinCap, Build, StoreNew, IdempotencyKey, TransactionScope;
  }

  lemma StoreNewCancelled(w: World, p: Proposal, key: string, env: Env)
    requires p.id !in w.store.transactions
    requires key == "" || IdempotencyKey(TransactionScope(p.request.walletID), key) !in w.store.idempotency
    ensures var (v, out) := StoreNew(w, p, key, env);
      && (!env.live(2) ==> v == w && out == Err(ContextDone))
      && (env.live(2) && !env.live(3) ==>
            && out == Err(ContextDone) && v.store.audit == w.store.audit && v.records == w.records
            && v.store.transactions.Keys == w.store.transactions.Keys + {p.id})
  {
    CreateTransactionTells(w.store, p);
    CreateTransactionOnceTells(w.store, p, ProposalRecord(p, key, env.now(0)));
    assert IdempotencyKey(TransactionScope(p.request.walletID), key) == TransactionScope(p.request.walletID) + "\0" + key;
    hide CreateTransaction, CreateTransactionOnce, IdempotencyKey, TransactionScope;
  }
}
