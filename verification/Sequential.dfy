/**
 * Calls made one at a time, with live contexts (signer and adapter may still fail): the audit log
 * is a faithful journal of every transaction, and Broadcast and Failed are final.
 */
module Sequential {
  import opened Types
  import opened Setup
  import opened StoreSpec
  import opened Custody
  import opened Calls
  import opened Chains
  import Signer = Signing

  // ----- the journal of one transaction

  predicate About(e: AuditEvent, id: string) { e.resourceID == id && !e.kind.WalletCreated? }

  /** The events about transaction `id`, in log order. */
  function Journal(log: seq<AuditEvent>, id: string): seq<AuditEvent> {
    if log == [] then []
    else
      var rest := Journal(log[..|log| - 1], id);
      if About(log[|log| - 1], id) then rest + [log[|log| - 1]] else rest
  }

  lemma JournalAppend(log: seq<AuditEvent>, e: AuditEvent, id: string)
    ensures Journal(log + [e], id) == if About(e, id) then Journal(log, id) + [e] else Journal(log, id)
  {
    assert (log + [e])[..|log|] == log;
  }

  datatype Account = Account(status: Status, approvers: set<string>)

  /** What a reader of the journal concludes. */
  function Replay(journal: seq<AuditEvent>): Account {
    if journal == [] then Account(Proposed, {})
    else
      var a := Replay(journal[..|journal| - 1]);
      var e := journal[|journal| - 1];
      match e.kind
      case TransactionApproved => a.(approvers := a.approvers + {e.actor})
      case TransactionSigned => a.(status := Signed)
      case TransactionBroadcast => a.(status := Broadcast)
      case TransactionFailed => a.(status := Failed)
      case _ => a
  }

  function Kinds(journal: seq<AuditEvent>): seq<EventKind> {
    seq(|journal|, i requires 0 <= i < |journal| => journal[i].kind)
  }

  /** The only journals there are, by the row they belong to. */
  function Story(p: Proposal): seq<EventKind> {
    match p.status
    case Proposed =>
      if |p.approvals| == 0 then [TransactionProposed] else [TransactionProposed, TransactionApproved]
    case Signed => [TransactionProposed, TransactionApproved, TransactionApproved, TransactionSigned]
    case Broadcast =>
      [TransactionProposed, TransactionApproved, TransactionApproved, TransactionSigned, TransactionBroadcast]
    case Failed =>
      if p.signed == Unsigned then
        [TransactionProposed, TransactionApproved, TransactionApproved, TransactionFailed]
      else
        [TransactionProposed, TransactionApproved, TransactionApproved, TransactionSigned, TransactionFailed]
  }

  ghost predicate RowTold(p: Proposal, journal: seq<AuditEvent>) {
    && (if p.status.Proposed? then |p.approvals| <= 1 else |p.approvals| == 2)
    && (p.status.Proposed? ==> p.signed == Unsigned)
    && (p.status.Signed? || p.status.Broadcast? ==> p.signed != Unsigned)
    && Kinds(journal) == Story(p)
    && Replay(journal) == Account(p.status, p.approvals.Keys)
  }

  ghost predicate Told(s: Store) {
    && (forall id :: id in s.transactions ==> s.transactions[id].id == id && RowTold(s.transactions[id], Journal(s.audit, id)))
    && (forall id :: id !in s.transactions ==> Journal(s.audit, id) == [])
  }

  lemma KindsAppend(j: seq<AuditEvent>, e: AuditEvent)
    ensures Kinds(j + [e]) == Kinds(j) + [e.kind]
    ensures Replay(j + [e]) ==
      match e.kind
      case TransactionApproved => Replay(j).(approvers := Replay(j).approvers + {e.actor})
      case TransactionSigned => Replay(j).(status := Signed)
      case TransactionBroadcast => Replay(j).(status := Broadcast)
      case TransactionFailed => Replay(j).(status := Failed)
      case _ => Replay(j)
  {
    assert (j + [e])[..|j|] == j;
  }

  // ----- one row and its journal

  /** The journal of a row with its second approval, before the signer is asked. */
  ghost predicate QuorumTold(p: Proposal, journal: seq<AuditEvent>) {
    && p.status.Proposed? && |p.approvals| == 2 && p.signed == Unsigned
    && Kinds(journal) == [TransactionProposed, TransactionApproved, TransactionApproved]
    && Replay(journal) == Account(Proposed, p.approvals.Keys)
  }

  lemma ApproveTold(p: Proposal, a: Approval, j: seq<AuditEvent>, e: AuditEvent)
    requires RowTold(p, j) && p.status.Proposed? && a.signerID !in p.approvals
    requires e.kind.TransactionApproved? && e.actor == a.signerID
    ensures |p.approvals| == 0 ==> RowTold(Approve(p, a), j + [e])
    ensures |p.approvals| == 1 ==> QuorumTold(Approve(p, a), j + [e])
  {
    KindsAppend(j, e);
    assert Approve(p, a).approvals.Keys == p.approvals.Keys + {a.signerID};
    assert p.approvals.Keys + {a.signerID} == {a.signerID} + p.approvals.Keys;
  }

  lemma SealTold(p: Proposal, signed: SignedTx, j: seq<AuditEvent>, e: AuditEvent)
    requires QuorumTold(p, j) && signed != Unsigned && e.kind.TransactionSigned?
    ensures RowTold(Seal(p, signed, None), j + [e])
  {
    KindsAppend(j, e);
  }

  lemma SignFailTold(p: Proposal, cause: string, now: Time, j: seq<AuditEvent>, e: AuditEvent)
    requires QuorumTold(p, j) && e.kind.TransactionFailed?
    ensures RowTold(AsFailed(p, cause, now), j + [e])
  {
    KindsAppend(j, e);
  }

  lemma BroadcastTold(p: Proposal, hash: string, now: Time, j: seq<AuditEvent>, e: AuditEvent)
    requires RowTold(p, j) && p.status.Signed? && e.kind.TransactionBroadcast?
    ensures RowTold(AsBroadcast(p, hash, now), j + [e])
  {
    KindsAppend(j, e);
  }

  lemma SendFailTold(p: Proposal, cause: string, now: Time, j: seq<AuditEvent>, e: AuditEvent)
    requires RowTold(p, j) && p.status.Signed? && e.kind.TransactionFailed?
    ensures RowTold(AsFailed(p, cause, now), j + [e])
  {
    KindsAppend(j, e);
  }

  // ----- the whole store

  /** One row changes and the events appended are about it. */
  lemma TellOne(s: Store, t: Store, q: Proposal, e: AuditEvent)
    requires Told(s) && About(e, q.id)
    requires t.transactions == s.transactions[q.id := q] && t.audit == s.audit + [e]
    requires RowTold(q, Journal(s.audit, q.id) + [e])
    ensures Told(t)
  {
    hide RowTold;
    forall id ensures Journal(t.audit, id) == if id == q.id then Journal(s.audit, id) + [e] else Journal(s.audit, id) {
      JournalAppend(s.audit, e, id);
    }
  }

  lemma TellTwo(s: Store, t: Store, q: Proposal, e: AuditEvent, f: AuditEvent)
    requires Told(s) && About(e, q.id) && About(f, q.id)
    requires t.transactions == s.transactions[q.id := q] && t.audit == s.audit + [e] + [f]
    requires RowTold(q, Journal(s.audit, q.id) + [e] + [f])
    ensures Told(t)
  {
    hide RowTold;
    forall id ensures Journal(t.audit, id) ==
        if id == q.id then Journal(s.audit, id) + [e] + [f] else Journal(s.audit, id) {
      JournalAppend(s.audit, e, id);
      JournalAppend(s.audit + [e], f, id);
    }
  }

  lemma CoSignTold(cfg: Config, w: World, tx: string, signer: string, salt: int, env: Env)
    requires Told(w.store) && Live(env)
    ensures Told(CoSign(cfg, w, tx, signer, salt, env).0.store)
  {
    var a := Approval(signer, env.now(0));
    var (store, out) := AddApproval(w.store, tx, a);
    if signer == "" || !SignerAllowed(cfg, signer) || out.Err? { return; }
    hide Told, RowTold;
    RowIsTold(w.store, tx);
    var p := out.value;
    var e := Event(TransactionApproved, signer, p, env.now(1));
    var j := Journal(w.store.audit, tx);
    ApproveTold(w.store.transactions[tx], a, j, e);
    var w2 := Logged(w.(store := store), e);
    if |p.approvals| < 2 {
      TellOne(w.store, w2.store, p, e);
    } else {
      SignTold(cfg, w, w2, p, e, salt, env);
    }
  }

  lemma RowIsTold(s: Store, id: string)
    requires Told(s) && id in s.transactions
    ensures s.transactions[id].id == id && RowTold(s.transactions[id], Journal(s.audit, id))
    ensures |s.transactions[id].approvals| <= 2
  {}

  lemma SignTold(cfg: Config, w: World, v: World, p: Proposal, e: AuditEvent, salt: int, env: Env)
    requires Told(w.store) && Live(env) && About(e, p.id)
    requires v.store.transactions == w.store.transactions[p.id := p] && v.store.audit == w.store.audit + [e]
    requires QuorumTold(p, Journal(w.store.audit, p.id) + [e])
    ensures Told(SignAndMark(cfg, v, p, salt, env).0.store)
  {
    hide Told, RowTold, Signer.SignEvm;
    var j := Journal(w.store.audit, p.id) + [e];
    var t := SignAndMark(cfg, v, p, salt, env).0.store;
    match Signer.Sign(cfg, v.records, p, salt)
    case Err(cause) =>
      var f := Event(TransactionFailed, "", p, env.now(4));
      SignFailTold(p, cause, env.now(3), j, f);
      assert t.transactions == w.store.transactions[p.id := AsFailed(p, cause, env.now(3))];
      TellTwo(w.store, t, AsFailed(p, cause, env.now(3)), e, f);
    case Ok(signed) =>
      var f := Event(TransactionSigned, "", p, env.now(4));
      SignedIsText(cfg, v, p, salt);
      SealTold(p, signed, j, f);
      assert t.transactions == w.store.transactions[p.id := Seal(p, signed, None)];
      TellTwo(w.store, t, Seal(p, signed, None), e, f);
  }

  lemma SignedIsText(cfg: Config, w: World, p: Proposal, salt: int)
    ensures Signer.Sign(cfg, w.records, p, salt) != Ok(Unsigned)
  {}

  lemma BroadcastTells(cfg: Config, w: World, tx: string, refusal: Option<string>, env: Env)
    requires Told(w.store) && Live(env)
    ensures Told(Calls.Broadcast(cfg, w, tx, refusal, env).0.store)
  {
    if tx !in w.store.transactions || w.store.transactions[tx].status != Signed { return; }
    hide Told, RowTold;
    RowIsTold(w.store, tx);
    var p := w.store.transactions[tx];
    var t := Calls.Broadcast(cfg, w, tx, refusal, env).0.store;
    var j := Journal(w.store.audit, tx);
    if p.signed == Unsigned || !Registered(cfg, p.chain) { return; }
    hide Chains.Send;
    match Chains.Send(cfg, p, refusal)
    case Ok(hash) =>
      var q := AsBroadcast(p, hash, env.now(2));
      var e := Event(TransactionBroadcast, "", q, env.now(3));
      BroadcastTold(p, hash, env.now(2), j, e);
      TellOne(w.store, t, q, e);
    case Err(cause) =>
      var q := AsFailed(p, cause, env.now(2));
      var e := Event(TransactionFailed, "", p, env.now(3));
      SendFailTold(p, cause, env.now(2), j, e);
      TellOne(w.store, t, q, e);
  }

  lemma StoreNewTold(w: World, p: Proposal, key: string, env: Env)
    requires Told(w.store) && Live(env) && p.status.Proposed? && p.approvals == map[] && p.signed == Unsigned
    ensures Told(StoreNew(w, p, key, env).0.store)
  {
    hide RowTold, IdempotencyKey, TransactionScope;
    var k := IdempotencyKey(TransactionScope(p.request.walletID), key);
    if p.id !in w.store.transactions && (key == "" || k !in w.store.idempotency) {
      var e := Event(TransactionProposed, "", p, env.now(1));
      NewTold(p, e);
      TellOne(w.store, StoreNew(w, p, key, env).0.store, p, e);
    }
  }

  lemma ProposeTold(cfg: Config, w: World, r: Request, key: string, id: string, trace: map<string, string>, env: Env)
    requires Told(w.store) && Live(env)
    ensures Told(Propose(cfg, w, r, key, id, trace, env).0.store)
  {
    hide RowTold, Told, AmountAllowed, Registered, Build, StoreNew;
    if r.walletID in w.store.wallets {
      var source := w.store.wallets[r.walletID];
      var (nonces, built) := Build(cfg, w.nonces, source, r);
      if built.Ok? {
        StoreNewTold(w.(nonces := nonces), NewProposal(id, source, r, built.value, trace, env.now(0)), key, env);
      }
    }
  }

  lemma NewTold(p: Proposal, e: AuditEvent)
    requires p.status.Proposed? && p.approvals == map[] && p.signed == Unsigned && e.kind.TransactionProposed?
    ensures RowTold(p, [] + [e])
  {
    KindsAppend([], e);
  }

  lemma StoreWalletTold(w: World, wallet: Wallet, key: string, env: Env)
    requires Told(w.store)
    ensures Told(Calls.StoreWallet(w, wallet, key, env).0.store)
  {
    hide RowTold, IdempotencyKey, WalletScope;
    var t := Calls.StoreWallet(w, wallet, key, env).0.store;
    var e := AuditEvent(WalletCreated, "", wallet.id, wallet.chain, env.now(2));
    assert t.transactions == w.store.transactions;
    assert t.audit == w.store.audit || t.audit == w.store.audit + [e];
    forall i ensures Journal(w.store.audit + [e], i) == Journal(w.store.audit, i) { JournalAppend(w.store.audit, e, i); }
  }

  lemma CreateWalletTold(cfg: Config, w: World, chain: Chain, key: string, id: string, generated: Key, env: Env)
    requires Told(w.store)
    ensures Told(Calls.CreateWallet(cfg, w, chain, key, id, generated, env).0.store)
  {
    hide Told, Calls.StoreWallet, Registered;
    var r := Signer.RecordFor(cfg, chain, generated);
    StoreWalletTold(w.(records := w.records[id := r]), Wallet(id, chain, r.address, r.publicKey, env.now(0)), key, env);
  }

  ghost predicate AllLive(ops: seq<Op>) { forall i :: 0 <= i < |ops| ==> Live(ops[i].env) }

  /** Calls one at a time keep a journal of every transaction that replays to its row. */
  lemma {:induction false} JournalTellsAll(cfg: Config, ops: seq<Op>)
    requires AllLive(ops)
    ensures Told(After(cfg, ops).store)
    decreases |ops|
  {
    hide Told, Calls.CreateWallet, Propose, CoSign, Calls.Broadcast;
    if ops == [] {
      assert Told(EMPTY) by { EmptyTold(); }
    } else {
      var n := |ops| - 1;
      JournalTellsAll(cfg, ops[..n]);
      var w := After(cfg, ops[..n]);
      assert Live(ops[n].env);
      match ops[n]
      case CreateWalletOp(chain, key, id, generated, env) => CreateWalletTold(cfg, w, chain, key, id, generated, env);
      case ProposeOp(r, key, id, trace, env) => ProposeTold(cfg, w, r, key, id, trace, env);
      case CoSignOp(tx, signer, salt, env) => CoSignTold(cfg, w, tx, signer, salt, env);
      case BroadcastOp(tx, refusal, env) => BroadcastTells(cfg, w, tx, refusal, env);
    }
  }

  lemma EmptyTold()
    ensures Told(EMPTY)
  {}

  /** The main statement, row by row: the journal has one of the six shapes and replays to the row. */
  lemma ReplayReconstructs(cfg: Config, ops: seq<Op>, id: string)
    requires AllLive(ops) && id in After(cfg, ops).store.transactions
    ensures var s := After(cfg, ops).store; var p := s.transactions[id]; var j := Journal(s.audit, id);
      && Replay(j) == Account(p.status, p.approvals.Keys)
      && Kinds(j) == Story(p)
  {
    JournalTellsAll(cfg, ops);
    RowIsTold(After(cfg, ops).store, id);
  }

  // ----- progress

  /** What is left to happen to a transaction. */
  function Budget(s: Store, id: string): nat {
    if id !in s.transactions then 4
    else
      match s.transactions[id].status
      case Proposed => if |s.transactions[id].approvals| == 0 then 3 else 2
      case Signed => 1
      case Broadcast => 0
      case Failed => 0
  }

  /** The number of successful CoSign calls, read off the row. */
  function Cosigns(s: Store, id: string): nat {
    if id !in s.transactions then 0
    else
      var p := s.transactions[id];
      if p.status.Failed? && p.signed == Unsigned then 1 else |p.approvals|
  }

  /** The number of successful Broadcast calls, read off the row. */
  function Sends(s: Store, id: string): nat {
    if id in s.transactions && s.transactions[id].status.Broadcast? then 1 else 0
  }

  /** A call about `tx` that adds so many successful CoSigns and Broadcasts of it. */
  ghost predicate Progress(s: Store, t: Store, tx: string, cosigned: nat, sent: nat) {
    && t.transactions.Keys == s.transactions.Keys
    && (forall id :: id in s.transactions && id != tx ==> t.transactions[id] == s.transactions[id])
    && Cosigns(t, tx) == Cosigns(s, tx) + cosigned && Sends(t, tx) == Sends(s, tx) + sent
    && (tx in s.transactions ==> t.transactions[tx] == s.transactions[tx] || Budget(t, tx) < Budget(s, tx))
    && (cosigned + sent > 0 ==> tx in s.transactions && Budget(t, tx) < Budget(s, tx))
  }

  lemma CoSignProgress(cfg: Config, w: World, tx: string, signer: string, salt: int, env: Env)
    requires Told(w.store) && Live(env)
    ensures var (v, out) := CoSign(cfg, w, tx, signer, salt, env);
      Progress(w.store, v.store, tx, if out.Ok? then 1 else 0, 0)
  {
    hide RowTold, Told, Progress, AddApproval;
    var (store, out) := AddApproval(w.store, tx, Approval(signer, env.now(0)));
    if signer == "" || !SignerAllowed(cfg, signer) || out.Err? {
      NoProgress(w.store, tx);
    } else {
      GrantProgress(cfg, w, tx, signer, salt, env);
    }
  }

  lemma NoProgress(s: Store, tx: string)
    ensures Progress(s, s, tx, 0, 0)
  {}

  lemma GrantProgress(cfg: Config, w: World, tx: string, signer: string, salt: int, env: Env)
    requires Told(w.store) && Live(env)
    requires AddApproval(w.store, tx, Approval(signer, env.now(0))).1.Ok?
    ensures var (store, out) := AddApproval(w.store, tx, Approval(signer, env.now(0)));
      var p := out.value;
      var w2 := Logged(w.(store := store), Event(TransactionApproved, signer, p, env.now(1)));
      && p.status.Proposed?
      && if |p.approvals| >= 2 then
           var (v, r) := SignAndMark(cfg, w2, p, salt, env);
           Progress(w.store, v.store, tx, if r.Ok? then 1 else 0, 0)
         else Progress(w.store, w2.store, tx, 1, 0)
  {
    hide RowTold, Told, SignAndMark;
    var (store, out) := AddApproval(w.store, tx, Approval(signer, env.now(0)));
    RowIsTold(w.store, tx);
    ToldShape(w.store, tx);
    var p := out.value;
    assert p.approvals.Keys == w.store.transactions[tx].approvals.Keys + {signer};
    var w2 := Logged(w.(store := store), Event(TransactionApproved, signer, p, env.now(1)));
    if |p.approvals| >= 2 {
      SignProgress(cfg, w, w2, p, salt, env);
    }
  }

  lemma ToldShape(s: Store, id: string)
    requires Told(s) && id in s.transactions
    ensures var p := s.transactions[id];
      && (if p.status.Proposed? then |p.approvals| <= 1 else |p.approvals| == 2)
      && (p.status.Proposed? ==> p.signed == Unsigned)
      && (p.status.Signed? ==> p.signed != Unsigned)
  {}

  lemma SignProgress(cfg: Config, w: World, v: World, p: Proposal, salt: int, env: Env)
    requires Live(env) && p.id in w.store.transactions && p.status.Proposed? && |p.approvals| == 2 && p.signed == Unsigned
    requires Budget(w.store, p.id) == 2 && Cosigns(w.store, p.id) == 1 && Sends(w.store, p.id) == 0
    requires v.store.transactions == w.store.transactions[p.id := p]
    ensures var (u, out) := SignAndMark(cfg, v, p, salt, env);
      Progress(w.store, u.store, p.id, if out.Ok? then 1 else 0, 0)
  {
    hide Signer.SignEvm;
    SignedIsText(cfg, v, p, salt);
    var u := SignAndMark(cfg, v, p, salt, env).0;
    match Signer.Sign(cfg, v.records, p, salt)
    case Err(cause) => assert u.store.transactions == w.store.transactions[p.id := AsFailed(p, cause, env.now(3))];
    case Ok(signed) => assert u.store.transactions == w.store.transactions[p.id := Seal(p, signed, None)];
  }

  lemma BroadcastProgress(cfg: Config, w: World, tx: string, refusal: Option<string>, env: Env)
    requires Told(w.store) && Live(env)
    ensures var (v, out) := Calls.Broadcast(cfg, w, tx, refusal, env);
      Progress(w.store, v.store, tx, 0, if out.Ok? then 1 else 0)
  {
    hide RowTold, Told, Registered;
    if tx in w.store.transactions {
      RowIsTold(w.store, tx);
      ToldShape(w.store, tx);
    }
  }

  /** Existing rows stay, and the counts read off any row are the same. */
  ghost predicate Untouched(s: Store, t: Store, id: string) {
    && (id in s.transactions ==> id in t.transactions && t.transactions[id] == s.transactions[id])
    && Cosigns(t, id) == Cosigns(s, id) && Sends(t, id) == Sends(s, id)
  }

  lemma StoreNewUntouched(w: World, p: Proposal, key: string, env: Env, id: string)
    requires p.status.Proposed? && p.approvals == map[] && p.signed == Unsigned
    ensures Untouched(w.store, StoreNew(w, p, key, env).0.store, id)
  {
    hide IdempotencyKey, TransactionScope;
    var t := StoreNew(w, p, key, env).0.store;
    var k := IdempotencyKey(TransactionScope(p.request.walletID), key);
    if env.live(2) && p.id !in w.store.transactions && (key == "" || k !in w.store.idempotency) {
      assert t.transactions == w.store.transactions[p.id := p];
    } else {
      assert t.transactions == w.store.transactions;
    }
  }

  lemma StoreWalletUntouched(w: World, wallet: Wallet, key: string, env: Env, id: string)
    ensures Untouched(w.store, Calls.StoreWallet(w, wallet, key, env).0.store, id)
  {
    hide IdempotencyKey, WalletScope;
    assert Calls.StoreWallet(w, wallet, key, env).0.store.transactions == w.store.transactions;
  }

  /** Creation calls leave every stored row alone and add at most a fresh one. */
  lemma CreationProgress(cfg: Config, w: World, op: Op, id: string)
    requires op.CreateWalletOp? || op.ProposeOp?
    ensures Untouched(w.store, Calls.Call(cfg, w, op).0.store, id)
  {
    hide Registered, AmountAllowed, Build, StoreNew, Calls.StoreWallet;
    match op
    case CreateWalletOp(chain, key, i, generated, env) =>
      var r := Signer.RecordFor(cfg, chain, generated);
      StoreWalletUntouched(w.(records := w.records[i := r]), Wallet(i, chain, r.address, r.publicKey, env.now(0)), key, env, id);
    case ProposeOp(r, key, i, trace, env) =>
      if r.walletID in w.store.wallets {
        var source := w.store.wallets[r.walletID];
        var (nonces, built) := Build(cfg, w.nonces, source, r);
        if built.Ok? {
          StoreNewUntouched(w.(nonces := nonces), NewProposal(i, source, r, built.value, trace, env.now(0)), key, env, id);
        }
      }
  }

  // ----- counting over a run

  function One(b: bool): nat { if b then 1 else 0 }

  /** How many CoSign calls for `id` returned without error. */
  ghost function CosignsIn(cfg: Config, ops: seq<Op>, id: string): nat {
    if ops == [] then 0
    else
      var n := |ops| - 1;
      CosignsIn(cfg, ops[..n], id)
      + One(ops[n].CoSignOp? && ops[n].tx == id && Calls.Call(cfg, After(cfg, ops[..n]), ops[n]).1)
  }

  /** How many Broadcast calls for `id` returned without error. */
  ghost function SendsIn(cfg: Config, ops: seq<Op>, id: string): nat {
    if ops == [] then 0
    else
      var n := |ops| - 1;
      SendsIn(cfg, ops[..n], id)
      + One(ops[n].BroadcastOp? && ops[n].tx == id && Calls.Call(cfg, After(cfg, ops[..n]), ops[n]).1)
  }

  lemma {:induction false} CountsAreRead(cfg: Config, ops: seq<Op>, id: string)
    requires AllLive(ops)
    ensures CosignsIn(cfg, ops, id) == Cosigns(After(cfg, ops).store, id)
    ensures SendsIn(cfg, ops, id) == Sends(After(cfg, ops).store, id)
    decreases |ops|
  {
    hide Told, Cosigns, Sends, Calls.CreateWallet, Propose, CoSign, Calls.Broadcast;
    if ops == [] {
      EmptyCounts(id);
    } else {
      var n := |ops| - 1;
      CountsAreRead(cfg, ops[..n], id);
      JournalTellsAll(cfg, ops[..n]);
      var w := After(cfg, ops[..n]);
      assert Live(ops[n].env);
      CallCounts(cfg, w, ops[n], id);
    }
  }

  lemma EmptyCounts(id: string)
    ensures Cosigns(EMPTY, id) == 0 && Sends(EMPTY, id) == 0
  {}

  lemma CallCounts(cfg: Config, w: World, op: Op, id: string)
    requires Told(w.store) && Live(op.env)
    ensures var (v, ok) := Calls.Call(cfg, w, op);
      && Cosigns(v.store, id) == Cosigns(w.store, id) + One(op.CoSignOp? && op.tx == id && ok)
      && Sends(v.store, id) == Sends(w.store, id) + One(op.BroadcastOp? && op.tx == id && ok)
  {
    hide Told, Calls.CreateWallet, Propose, CoSign, Calls.Broadcast;
    match op
    case CoSignOp(tx, signer, salt, env) => CoSignProgress(cfg, w, tx, signer, salt, env);
    case BroadcastOp(tx, refusal, env) => BroadcastProgress(cfg, w, tx, refusal, env);
    case _ => CreationProgress(cfg, w, op, id);
  }

  /** At most two CoSigns and one Broadcast of a transaction succeed, and a Broadcast only after both CoSigns. */
  lemma AtMostTwoAndOne(cfg: Config, ops: seq<Op>, id: string)
    requires AllLive(ops)
    ensures CosignsIn(cfg, ops, id) <= 2 && SendsIn(cfg, ops, id) <= 1
    ensures SendsIn(cfg, ops, id) == 1 ==> CosignsIn(cfg, ops, id) == 2
  {
    hide Told, RowTold;
    CountsAreRead(cfg, ops, id);
    JournalTellsAll(cfg, ops);
    var s := After(cfg, ops).store;
    if id in s.transactions { ToldShape(s, id); }
  }

  /** Each call leaves a stored row as it is or spends some of its budget; a terminal row has none left. */
  lemma CallSpendsBudget(cfg: Config, ops: seq<Op>, op: Op, id: string)
    requires AllLive(ops + [op]) && id in After(cfg, ops).store.transactions
    ensures var s, t := After(cfg, ops).store, After(cfg, ops + [op]).store;
      && id in t.transactions
      && (t.transactions[id] == s.transactions[id] || Budget(t, id) < Budget(s, id))
      && (Rank(s.transactions[id].status) == 2 ==> t.transactions[id] == s.transactions[id])
  {
    hide Told, Calls.CreateWallet, Propose, CoSign, Calls.Broadcast;
    assert (ops + [op])[..|ops|] == ops;
    assert (ops + [op])[|ops|] == op && AllLive(ops);
    JournalTellsAll(cfg, ops);
    var w := After(cfg, ops);
    match op
    case CoSignOp(tx, signer, salt, env) => CoSignProgress(cfg, w, tx, signer, salt, env);
    case BroadcastOp(tx, refusal, env) => BroadcastProgress(cfg, w, tx, refusal, env);
    case _ => CreationProgress(cfg, w, op, id);
  }
}
