/**
 * The service calls run alone, one after the other (internal/wallet/service.go): each is the
 * straight-line function the source spells out, with every early return. Module Sequential states
 * what such runs achieve; module Interleaving relates them to the step system.
 */
module Calls {
  import opened Types
  import opened Setup
  import opened StoreSpec
  import opened Chains
  import opened Custody
  import Signer = Signing

  /** The clock at each access a call makes, and how many accesses its context outlives, if it is cancelled. */
  datatype Env = Env(now: nat -> Time, cancelled: Option<nat>) {
    predicate live(i: nat) { cancelled.None? || i < cancelled.value }
  }

  ghost predicate Live(env: Env) { forall i: nat :: env.live(i) }

  function Logged(w: World, e: AuditEvent): World { w.(store := Append(w.store, e)) }

  /** failTransaction and the audit event that follows it; both outcomes are ignored. */
  function Fail(w: World, p: Proposal, cause: string, env: Env, k: nat): World {
    var q := AsFailed(p, cause, env.now(k));
    var w1 := if env.live(k) then w.(store := UpdateTransaction(w.store, q).0) else w;
    if env.live(k + 1) then Logged(w1, Event(TransactionFailed, "", p, env.now(k + 1))) else w1
  }

  /** A context stays dead, so a call that lost it before failing writes nothing more. */
  lemma DeadFails(w: World, p: Proposal, cause: string, env: Env, k: nat)
    ensures k > 0 && !env.live(k - 1) ==> Fail(w, p, cause, env, k) == w
  {}

  /** The part of CoSign after quorum: sign, and mark the row signed or failed. */
  ghost function SignAndMark(cfg: Config, w: World, p: Proposal, salt: int, env: Env): (World, Result<Proposal, Error>) {
    if !env.live(2) then (w, Err(ContextDone))
    else
      match Signer.Sign(cfg, w.records, p, salt)
      case Err(cause) => (Fail(w, p, cause, env, 3), Err(Other(cause)))
      case Ok(signed) =>
        if !env.live(3) then (w, Err(ContextDone))
        else
          var (store, out) := MarkSigned(w.store, p.id, signed, None);
          match out
          case Err(e) => (w, Err(e))
          case Ok((q, won)) =>
            var w1 := w.(store := store);
            if !won then (w1, Ok(q))
            else if !env.live(4) then (w1, Err(ContextDone))
            else (Logged(w1, Event(TransactionSigned, "", q, env.now(4))), Ok(q))
  }

  ghost function CoSign(cfg: Config, w: World, tx: string, signer: string, salt: int, env: Env)
    : (World, Result<Proposal, Error>)
  {
    if signer == "" then (w, Err(SignerRequired))
    else if !SignerAllowed(cfg, signer) then (w, Err(UnauthorizedSigner))
    else if !env.live(0) then (w, Err(ContextDone))
    else
      var (store, out) := AddApproval(w.store, tx, Approval(signer, env.now(0)));
      match out
      case Err(e) => (w, Err(e))
      case Ok(p) =>
        var w1 := w.(store := store);
        if !env.live(1) then (w1, Err(ContextDone))
        else
          var w2 := Logged(w1, Event(TransactionApproved, signer, p, env.now(1)));
          if p.status == Proposed && |p.approvals| >= 2 then SignAndMark(cfg, w2, p, salt, env)
          else (w2, Ok(p))
  }

  /** The part of Broadcast after the adapter has accepted the transaction. */
  function RecordSent(w: World, p: Proposal, hash: string, env: Env): (World, Result<Proposal, Error>) {
    var q := AsBroadcast(p, hash, env.now(2));
    var (store, out) := UpdateTransaction(w.store, q);
    if !env.live(2) then (w, Err(ContextDone))
    else
      match out
      case Err(e) => (w, Err(e))
      case Ok(_) =>
        var w1 := w.(store := store);
        if !env.live(3) then (w1, Err(ContextDone))
        else (Logged(w1, Event(TransactionBroadcast, "", q, env.now(3))), Ok(q))
  }

  function Broadcast(cfg: Config, w: World, tx: string, refusal: Option<string>, env: Env)
    : (World, Result<Proposal, Error>)
  {
    if !env.live(0) then (w, Err(ContextDone))
    else if tx !in w.store.transactions then (w, Err(TransactionNotFound))
    else
      var p := w.store.transactions[tx];
      if p.status != Signed || p.signed == Unsigned then (w, Err(TransactionNotSigned))
      else if !Registered(cfg, p.chain) then (w, Err(UnsupportedChain))
      else if !env.live(1) then (w, Err(ContextDone))
      else
        match Send(cfg, p, refusal)
        case Err(cause) => (Fail(w, p, cause, env, 2), Err(Other(cause)))
        case Ok(hash) => RecordSent(w, p, hash, env)
  }

  /** The part of CreateWallet after the key is made. */
  function StoreWallet(w: World, wallet: Wallet, key: string, env: Env): (World, Result<Wallet, Error>) {
    if !env.live(1) then (w, Err(ContextDone))
    else
      var (store, out) :=
        if key == "" then
          var (s, o) := StoreSpec.CreateWallet(w.store, wallet);
          (s, if o.Ok? then Ok(Created(wallet, true)) else Err(o.error))
        else CreateWalletOnce(w.store, wallet, WalletRecord(wallet, key, env.now(1)));
      match out
      case Err(e) => (w, Err(e))
      case Ok(Created(stored, isNew)) =>
        var w1 := w.(store := store);
        if !isNew then (w1, Ok(stored))
        else if !env.live(2) then (w1, Err(ContextDone))
        else (Logged(w1, AuditEvent(WalletCreated, "", stored.id, stored.chain, env.now(2))), Ok(stored))
  }

  function CreateWallet(cfg: Config, w: World, chain: Chain, key: string, id: string, generated: Key, env: Env)
    : (World, Result<Wallet, Error>)
  {
    if !Registered(cfg, chain) then (w, Err(UnsupportedChain))
    else if !env.live(0) then (w, Err(ContextDone))
    else
      var r := Signer.RecordFor(cfg, chain, generated);
      StoreWallet(w.(records := w.records[id := r]), Wallet(id, chain, r.address, r.publicKey, env.now(0)), key, env)
  }

  /** The part of ProposeTransaction after the payload is built. */
  function StoreNew(w: World, p: Proposal, key: string, env: Env): (World, Result<Proposal, Error>) {
    if !env.live(2) then (w, Err(ContextDone))
    else
      var (store, out) :=
        if key == "" then
          var (s, o) := CreateTransaction(w.store, p);
          (s, if o.Ok? then Ok(Created(p, true)) else Err(o.error))
        else CreateTransactionOnce(w.store, p, ProposalRecord(p, key, env.now(0)));
      match out
      case Err(e) => (w, Err(e))
      case Ok(Created(stored, isNew)) =>
        var w1 := w.(store := store);
        if !isNew then (w1, Ok(stored))
        else if !env.live(3) then (w1, Err(ContextDone))
        else (Logged(w1, Event(TransactionProposed, "", stored, env.now(1))), Ok(stored))
  }

  function Propose(cfg: Config, w: World, r: Request, key: string, id: string, trace: map<string, string>, env: Env)
    : (World, Result<Proposal, Error>)
  {
    if !env.live(0) then (w, Err(ContextDone))
    else if r.walletID !in w.store.wallets then (w, Err(WalletNotFound))
    else
      var source := w.store.wallets[r.walletID];
      if !AmountAllowed(cfg, source.chain, r.amount) then (w, Err(PolicyViolation))
      else if !Registered(cfg, source.chain) then (w, Err(UnsupportedChain))
      else if !env.live(1) then (w, Err(ContextDone))
      else
        var (nonces, built) := Build(cfg, w.nonces, source, r);
        var w1 := w.(nonces := nonces);
        match built
        case Err(e) => (w1, Err(Other(e)))
        case Ok(raw) => StoreNew(w1, NewProposal(id, source, r, raw, trace, env.now(0)), key, env)
  }

  /** One call, with what its environment decides. */
  datatype Op =
    | CreateWalletOp(chain: Chain, key: string, id: string, generated: Key, env: Env)
    | ProposeOp(request: Request, key: string, id: string, trace: map<string, string>, env: Env)
    | CoSignOp(tx: string, signer: string, salt: int, env: Env)
    | BroadcastOp(tx: string, refusal: Option<string>, env: Env)

  /** The world after the call, and whether it returned without error. */
  ghost function Call(cfg: Config, w: World, op: Op): (World, bool) {
    match op
    case CreateWalletOp(chain, key, id, generated, env) =>
      var (v, out) := CreateWallet(cfg, w, chain, key, id, generated, env); (v, out.Ok?)
    case ProposeOp(r, key, id, trace, env) =>
      var (v, out) := Propose(cfg, w, r, key, id, trace, env); (v, out.Ok?)
    case CoSignOp(tx, signer, salt, env) =>
      var (v, out) := CoSign(cfg, w, tx, signer, salt, env); (v, out.Ok?)
    case BroadcastOp(tx, refusal, env) =>
      var (v, out) := Broadcast(cfg, w, tx, refusal, env); (v, out.Ok?)
  }

  const EMPTY_WORLD := World(EMPTY, map[], map[])

  /** The world after calls made one at a time. */
  ghost function After(cfg: Config, ops: seq<Op>): World {
    if ops == [] then EMPTY_WORLD
    else Call(cfg, After(cfg, ops[..|ops| - 1]), ops[|ops| - 1]).0
  }
}
