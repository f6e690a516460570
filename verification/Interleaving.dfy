/**
 * A call made alone is a run of the step system with no other call in between, so what holds of
 * every interleaving holds of calls made one at a time.
 */
module Interleaving {
  import opened Types
  import opened Setup
  import opened StoreSpec
  import opened Chains
  import opened Custody
  import opened Calls
  import Runs
  import Signer = Signing

  /** The accesses of a call, in order; those of branches not taken fit no call and do nothing. */
  function StepsOf(op: Op, c: Custody.Call): seq<Step> {
    match op
    case CreateWalletOp(chain, key, id, generated, env) =>
      if !env.live(0) then []
      else [KeyWallet(c, id, chain, key, generated, env.now(0)),
            Step.StoreWallet(c, env.now(1), env.live(1)), AuditCreation(c, env.now(2), env.live(2))]
    case ProposeOp(r, key, id, trace, env) =>
      [LoadRequest(c, r, key, env.live(0)), BuildRaw(c, env.live(1)),
       StoreProposal(c, id, trace, env.now(0), env.live(2)), AuditCreation(c, env.now(1), env.live(3))]
    case CoSignOp(tx, signer, salt, env) =>
      [GrantApproval(c, tx, signer, env.now(0), env.live(0)), AuditApproval(c, env.now(1), env.live(1))]
      + SignSteps(c, salt, env)
    case BroadcastOp(tx, refusal, env) =>
      [Load(c, tx, env.live(0)), Submit(c, refusal, env.live(1))] + SendSteps(c, env)
  }

  function SignSteps(c: Custody.Call, salt: int, env: Env): seq<Step> {
    [SignQuorum(c, salt, env.live(2))] + MarkSteps(c, env)
  }

  function SendSteps(c: Custody.Call, env: Env): seq<Step> {
    [RecordBroadcast(c, env.now(2), env.live(2)), AuditBroadcast(c, env.now(3), env.live(3))] + FailSteps(c, env, 2)
  }

  function FailSteps(c: Custody.Call, env: Env, k: nat): seq<Step> {
    [RecordFailure(c, env.now(k), env.live(k)), AuditFailure(c, env.now(k + 1), env.live(k + 1))]
  }

  lemma ExecCons(cfg: Config, s: System, x: Step, rest: seq<Step>)
    ensures Exec(cfg, s, [x] + rest) == Exec(cfg, Do(cfg, s, x), rest)
  {
    ExecConcat(cfg, s, [x], rest);
    assert [x][..0] == [];
    assert Exec(cfg, s, [x]) == Do(cfg, s, x);
  }

  predicate Starts(x: Step) { x.KeyWallet? || x.LoadRequest? || x.GrantApproval? || x.Load? }

  /** Steps of a call that is not in flight do nothing. */
  lemma {:induction false} Idle(cfg: Config, s: System, c: Custody.Call, steps: seq<Step>)
    requires c !in s.active && c !in s.pending
    requires forall i :: 0 <= i < |steps| ==> steps[i].c == c && !Starts(steps[i])
    ensures Exec(cfg, s, steps) == s
    decreases |steps|
  {
    if steps != [] {
      var n := |steps| - 1;
      Idle(cfg, s, c, steps[..n]);
      IdleStep(cfg, s, steps[n]);
    }
  }

  lemma IdleStep(cfg: Config, s: System, x: Step)
    requires x.c !in s.active && x.c !in s.pending && !Starts(x)
    ensures Do(cfg, s, x) == s
  {}

  /** The step left the world as `w`, and call `c` in state `f` or ended. */
  ghost predicate Became(s: System, t: System, c: Custody.Call, w: World, f: Option<Flow>) {
    && t.world == w && t.pending == s.pending
    && t.active == if f.Some? then s.active[c := f.value] else s.active - {c}
  }

  /** The call ended in `w` and no other call has moved. */
  ghost predicate Ended(s: System, t: System, w: World) {
    t.world == w && t.active == s.active && t.pending == s.pending
  }

  // ----- what single steps do

  lemma GrantBecomes(cfg: Config, s: System, c: Custody.Call, tx: string, signer: string, now: Time, live: bool)
    requires Grants(cfg, s, c, tx, signer, now, live)
    ensures var (store, out) := AddApproval(s.world.store, tx, Approval(signer, now));
      Became(s, Do(cfg, s, GrantApproval(c, tx, signer, now, live)), c, s.world.(store := store), Some(Approved(out.value, signer)))
  {}

  lemma AuditBecomes(cfg: Config, s: System, c: Custody.Call, p: Proposal, signer: string, now: Time, live: bool)
    requires c in s.active && s.active[c] == Approved(p, signer)
    ensures Became(s, Do(cfg, s, AuditApproval(c, now, live)), c,
      if live then Logged(s.world, Event(TransactionApproved, signer, p, now)) else s.world,
      if live && p.status == Proposed && |p.approvals| >= 2 then Some(Quorum(p)) else None)
  {}

  lemma SignBecomes(cfg: Config, s: System, c: Custody.Call, p: Proposal, salt: int, live: bool)
    requires c in s.active && s.active[c] == Quorum(p)
    ensures Became(s, Do(cfg, s, SignQuorum(c, salt, live)), c, s.world,
      if !live then None
      else match Signer.Sign(cfg, s.world.records, p, salt)
        case Ok(signed) => Some(Enveloped(p, signed))
        case Err(cause) => Some(Broken(p, cause)))
  {
    hide Signer.Sign;
  }

  lemma MarkBecomes(cfg: Config, s: System, c: Custody.Call, p: Proposal, signed: SignedTx, live: bool)
    requires c in s.active && s.active[c] == Enveloped(p, signed)
    ensures var (store, out) := MarkSigned(s.world.store, p.id, signed, None);
      Became(s, Do(cfg, s, Mark(c, None, live)), c,
        if live then s.world.(store := store) else s.world,
        if live && out.Ok? && out.value.1 then Some(Marked(out.value.0)) else None)
  {}

  lemma EndBecomes(cfg: Config, s: System, x: Step, kind: EventKind)
    requires x.c in s.active
    requires || (x.AuditSigned? && s.active[x.c].Marked? && kind.TransactionSigned?)
             || (x.AuditBroadcast? && s.active[x.c].Recorded? && kind.TransactionBroadcast?)
             || (x.AuditFailure? && s.active[x.c].Failing? && kind.TransactionFailed?)
    ensures Became(s, Do(cfg, s, x), x.c,
      if x.live then Logged(s.world, Event(kind, "", s.active[x.c].snapshot, x.now)) else s.world, None)
  {}

  lemma LoadBecomes(cfg: Config, s: System, c: Custody.Call, tx: string, live: bool)
    requires Loads(cfg, s, c, tx, live)
    ensures Became(s, Do(cfg, s, Load(c, tx, live)), c, s.world, Some(Loaded(s.world.store.transactions[tx])))
  {}

  lemma SubmitBecomes(cfg: Config, s: System, c: Custody.Call, p: Proposal, refusal: Option<string>, live: bool)
    requires c in s.active && s.active[c] == Loaded(p)
    ensures Became(s, Do(cfg, s, Submit(c, refusal, live)), c, s.world,
      if !live then None
      else match Send(cfg, p, refusal) case Ok(hash) => Some(Submitted(p, hash)) case Err(cause) => Some(Broken(p, cause)))
  {
    hide Send;
  }

  lemma RecordBecomes(cfg: Config, s: System, c: Custody.Call, p: Proposal, hash: string, now: Time, live: bool)
    requires c in s.active && s.active[c] == Submitted(p, hash)
    ensures var (store, out) := UpdateTransaction(s.world.store, AsBroadcast(p, hash, now));
      Became(s, Do(cfg, s, RecordBroadcast(c, now, live)), c,
        if live then s.world.(store := store) else s.world,
        if live && out.Ok? then Some(Recorded(AsBroadcast(p, hash, now))) else None)
  {}

  lemma FailBecomes(cfg: Config, s: System, c: Custody.Call, p: Proposal, cause: string, now: Time, live: bool)
    requires c in s.active && s.active[c] == Broken(p, cause)
    ensures Became(s, Do(cfg, s, RecordFailure(c, now, live)), c,
      if live then s.world.(store := UpdateTransaction(s.world.store, AsFailed(p, cause, now)).0) else s.world,
      Some(Failing(AsFailed(p, cause, now))))
  {}

  // ----- whole calls

  /** Only call `c` is in flight beside those of `s0`. */
  ghost predicate Alone(s0: System, s: System, c: Custody.Call) {
    c !in s0.active && c !in s0.pending && s.active - {c} == s0.active && s.pending == s0.pending
  }

  lemma FailRun(cfg: Config, s0: System, s: System, c: Custody.Call, p: Proposal, cause: string, env: Env, k: nat)
    requires Alone(s0, s, c) && c in s.active && s.active[c] == Broken(p, cause)
    ensures Ended(s0, Exec(cfg, s, FailSteps(c, env, k)), Fail(s.world, p, cause, env, k))
  {
    hide Do, Exec;
    var x, y := RecordFailure(c, env.now(k), env.live(k)), AuditFailure(c, env.now(k + 1), env.live(k + 1));
    assert FailSteps(c, env, k) == [x] + ([y] + []);
    var s1 := Do(cfg, s, x);
    FailBecomes(cfg, s, c, p, cause, x.now, x.live);
    ExecCons(cfg, s, x, [y] + []);
    EndBecomes(cfg, s1, y, TransactionFailed);
    ExecCons(cfg, s1, y, []);
    Idle(cfg, Do(cfg, s1, y), c, []);
  }

  lemma SignRun(cfg: Config, s0: System, s: System, c: Custody.Call, p: Proposal, salt: int, env: Env)
    requires Alone(s0, s, c) && c in s.active && s.active[c] == Quorum(p)
    ensures Ended(s0, Exec(cfg, s, SignSteps(c, salt, env)), SignAndMark(cfg, s.world, p, salt, env).0)
  {
    hide Do, Exec, Signer.Sign, MarkSigned;
    var x := SignQuorum(c, salt, env.live(2));
    var rest := MarkSteps(c, env);
    assert SignSteps(c, salt, env) == [x] + rest;
    SignBecomes(cfg, s, c, p, salt, env.live(2));
    ExecCons(cfg, s, x, rest);
    var s1 := Do(cfg, s, x);
    if !env.live(2) {
      MarkStepsIdle(c, env);
      Idle(cfg, s1, c, rest);
      return;
    }
    match Signer.Sign(cfg, s.world.records, p, salt)
    case Ok(signed) => MarkRun(cfg, s0, s1, c, p, signed, salt, env);
    case Err(cause) =>
      var skipped := [Mark(c, None, env.live(3)), AuditSigned(c, env.now(4), env.live(4))];
      assert rest == skipped + FailSteps(c, env, 3);
      ExecConcat(cfg, s1, skipped, FailSteps(c, env, 3));
      SkipMark(cfg, s1, c, env);
      FailRun(cfg, s0, s1, c, p, cause, env, 3);
  }

  function MarkSteps(c: Custody.Call, env: Env): seq<Step> {
    [Mark(c, None, env.live(3)), AuditSigned(c, env.now(4), env.live(4))] + FailSteps(c, env, 3)
  }

  lemma MarkStepsIdle(c: Custody.Call, env: Env)
    ensures forall i :: 0 <= i < |MarkSteps(c, env)| ==> MarkSteps(c, env)[i].c == c && !Starts(MarkSteps(c, env)[i])
  {}

  lemma SkipMark(cfg: Config, s: System, c: Custody.Call, env: Env)
    requires c in s.active && s.active[c].Broken?
    ensures Exec(cfg, s, [Mark(c, None, env.live(3)), AuditSigned(c, env.now(4), env.live(4))]) == s
  {
    var x, y := Mark(c, None, env.live(3)), AuditSigned(c, env.now(4), env.live(4));
    assert [x, y] == [x] + ([y] + []);
    ExecCons(cfg, s, x, [y] + []);
    ExecCons(cfg, s, y, []);
  }

  lemma FailedMarkKeeps(store: Store, id: string, signed: SignedTx)
    ensures MarkSigned(store, id, signed, None).1.Err? ==> MarkSigned(store, id, signed, None).0 == store
  {}

  lemma FailStepsIdle(c: Custody.Call, env: Env, k: nat)
    ensures forall i :: 0 <= i < |FailSteps(c, env, k)| ==> FailSteps(c, env, k)[i].c == c && !Starts(FailSteps(c, env, k)[i])
  {}

  lemma MarkRun(cfg: Config, s0: System, s: System, c: Custody.Call, p: Proposal, signed: SignedTx, salt: int, env: Env)
    requires Alone(s0, s, c) && c in s.active && s.active[c] == Enveloped(p, signed)
    requires env.live(2) && Signer.Sign(cfg, s.world.records, p, salt) == Ok(signed)
    ensures Ended(s0, Exec(cfg, s, MarkSteps(c, env)), SignAndMark(cfg, s.world, p, salt, env).0)
  {
    hide Do, Exec, Signer.Sign, MarkSigned, FailSteps;
    FailStepsIdle(c, env, 3);
    FailedMarkKeeps(s.world.store, p.id, signed);
    var x, y := Mark(c, None, env.live(3)), AuditSigned(c, env.now(4), env.live(4));
    assert MarkSteps(c, env) == [x] + ([y] + FailSteps(c, env, 3));
    MarkBecomes(cfg, s, c, p, signed, x.live);
    ExecCons(cfg, s, x, [y] + FailSteps(c, env, 3));
    var s1 := Do(cfg, s, x);
    if c in s1.active {
      EndBecomes(cfg, s1, y, TransactionSigned);
      ExecCons(cfg, s1, y, FailSteps(c, env, 3));
      Idle(cfg, Do(cfg, s1, y), c, FailSteps(c, env, 3));
    } else {
      Idle(cfg, s1, c, [y] + FailSteps(c, env, 3));
    }
  }

  /** The rest of a CoSign call whose approval was granted. */
  lemma ApprovedRun(cfg: Config, s0: System, s: System, c: Custody.Call, p: Proposal, signer: string, salt: int, env: Env)
    requires Alone(s0, s, c) && c in s.active && s.active[c] == Approved(p, signer)
    ensures Ended(s0, Exec(cfg, s, [AuditApproval(c, env.now(1), env.live(1))] + SignSteps(c, salt, env)),
      AfterApproval(cfg, s.world, p, signer, salt, env))
  {
    hide Do, Exec, SignSteps, SignAndMark;
    var y, rest := AuditApproval(c, env.now(1), env.live(1)), SignSteps(c, salt, env);
    AuditBecomes(cfg, s, c, p, signer, env.now(1), env.live(1));
    ExecCons(cfg, s, y, rest);
    SignStepsIdle(c, salt, env);
    var t := Do(cfg, s, y);
    if c in t.active {
      SignRun(cfg, s0, t, c, p, salt, env);
    } else {
      Idle(cfg, t, c, rest);
    }
  }

  /** The world a CoSign call leaves once the approval `p` has been stored in `w`. */
  ghost function AfterApproval(cfg: Config, w: World, p: Proposal, signer: string, salt: int, env: Env): World {
    var v := Logged(w, Event(TransactionApproved, signer, p, env.now(1)));
    if !env.live(1) then w
    else if p.status == Proposed && |p.approvals| >= 2 then SignAndMark(cfg, v, p, salt, env).0
    else v
  }

  lemma CoSignSplits(cfg: Config, s: System, c: Custody.Call, tx: string, signer: string, salt: int, env: Env)
    requires c !in s.active
    ensures var (store, out) := AddApproval(s.world.store, tx, Approval(signer, env.now(0)));
      CoSign(cfg, s.world, tx, signer, salt, env).0 ==
        if Grants(cfg, s, c, tx, signer, env.now(0), env.live(0))
        then AfterApproval(cfg, s.world.(store := store), out.value, signer, salt, env) else s.world
  {
    hide SignAndMark, SignerAllowed, AddApproval;
  }

  lemma CoSignRun(cfg: Config, s: System, c: Custody.Call, tx: string, signer: string, salt: int, env: Env)
    requires c !in s.active && c !in s.pending
    ensures Ended(s, Exec(cfg, s, StepsOf(CoSignOp(tx, signer, salt, env), c)), CoSign(cfg, s.world, tx, signer, salt, env).0)
  {
    hide Do, Exec, SignSteps, SignAndMark, CoSign, AddApproval, AfterApproval, SignerAllowed;
    var x, y := GrantApproval(c, tx, signer, env.now(0), env.live(0)), AuditApproval(c, env.now(1), env.live(1));
    var rest := SignSteps(c, salt, env);
    assert StepsOf(CoSignOp(tx, signer, salt, env), c) == [x] + ([y] + rest);
    ExecCons(cfg, s, x, [y] + rest);
    CoSignSplits(cfg, s, c, tx, signer, salt, env);
    var s1 := Do(cfg, s, x);
    if Grants(cfg, s, c, tx, signer, env.now(0), env.live(0)) {
      GrantBecomes(cfg, s, c, tx, signer, env.now(0), env.live(0));
      ApprovedRun(cfg, s, s1, c, s1.active[c].snapshot, signer, salt, env);
    } else {
      RefusedStart(cfg, s, x);
      SignStepsIdle(c, salt, env);
      Idle(cfg, s, c, [y] + rest);
    }
  }

  lemma SignStepsIdle(c: Custody.Call, salt: int, env: Env)
    ensures forall i :: 0 <= i < |SignSteps(c, salt, env)| ==>
      SignSteps(c, salt, env)[i].c == c && !Starts(SignSteps(c, salt, env)[i])
  {}

  lemma RefusedStart(cfg: Config, s: System, x: Step)
    requires (x.GrantApproval? && !Grants(cfg, s, x.c, x.tx, x.signer, x.now, x.live)) || (x.Load? && !Loads(cfg, s, x.c, x.tx, x.live))
    ensures Do(cfg, s, x) == s
  {}

  lemma SendRun(cfg: Config, s0: System, s: System, c: Custody.Call, p: Proposal, hash: string, env: Env)
    requires Alone(s0, s, c) && c in s.active && s.active[c] == Submitted(p, hash)
    ensures Ended(s0, Exec(cfg, s, SendSteps(c, env)), RecordSent(s.world, p, hash, env).0)
  {
    hide Do, Exec;
    var x, y := RecordBroadcast(c, env.now(2), env.live(2)), AuditBroadcast(c, env.now(3), env.live(3));
    assert SendSteps(c, env) == [x] + ([y] + FailSteps(c, env, 2));
    RecordBecomes(cfg, s, c, p, hash, x.now, x.live);
    ExecCons(cfg, s, x, [y] + FailSteps(c, env, 2));
    var s1 := Do(cfg, s, x);
    if c in s1.active {
      EndBecomes(cfg, s1, y, TransactionBroadcast);
      ExecCons(cfg, s1, y, FailSteps(c, env, 2));
      Idle(cfg, Do(cfg, s1, y), c, FailSteps(c, env, 2));
    } else {
      Idle(cfg, s1, c, [y] + FailSteps(c, env, 2));
    }
  }

  lemma SkipSend(cfg: Config, s: System, c: Custody.Call, env: Env)
    requires c in s.active && s.active[c].Broken?
    ensures Exec(cfg, s, [RecordBroadcast(c, env.now(2), env.live(2)), AuditBroadcast(c, env.now(3), env.live(3))]) == s
  {
    var x, y := RecordBroadcast(c, env.now(2), env.live(2)), AuditBroadcast(c, env.now(3), env.live(3));
    assert [x, y] == [x] + ([y] + []);
    ExecCons(cfg, s, x, [y] + []);
    ExecCons(cfg, s, y, []);
  }

  lemma BroadcastRun(cfg: Config, s: System, c: Custody.Call, tx: string, refusal: Option<string>, env: Env)
    requires c !in s.active && c !in s.pending
    ensures Ended(s, Exec(cfg, s, StepsOf(BroadcastOp(tx, refusal, env), c)), Calls.Broadcast(cfg, s.world, tx, refusal, env).0)
  {
    hide Do, Exec, SendSteps, Send, RecordSent, Fail;
    var x, y := Load(c, tx, env.live(0)), Submit(c, refusal, env.live(1));
    var rest := SendSteps(c, env);
    assert StepsOf(BroadcastOp(tx, refusal, env), c) == [x] + ([y] + rest);
    ExecCons(cfg, s, x, [y] + rest);
    SendStepsIdle(c, env);
    var s1 := Do(cfg, s, x);
    if Loads(cfg, s, c, tx, env.live(0)) {
      LoadBecomes(cfg, s, c, tx, env.live(0));
      var p := s.world.store.transactions[tx];
      SubmitBecomes(cfg, s1, c, p, refusal, env.live(1));
      ExecCons(cfg, s1, y, rest);
      var s2 := Do(cfg, s1, y);
      if !env.live(1) {
        Idle(cfg, s2, c, rest);
        return;
      }
      match Send(cfg, p, refusal)
      case Ok(hash) => SendRun(cfg, s, s2, c, p, hash, env);
      case Err(cause) =>
        var skipped := [RecordBroadcast(c, env.now(2), env.live(2)), AuditBroadcast(c, env.now(3), env.live(3))];
        SendStepsSplit(c, env);
        ExecConcat(cfg, s2, skipped, FailSteps(c, env, 2));
        SkipSend(cfg, s2, c, env);
        FailRun(cfg, s, s2, c, p, cause, env, 2);
    } else {
      RefusedStart(cfg, s, x);
      Idle(cfg, s, c, [y] + rest);
    }
  }

  lemma SendStepsSplit(c: Custody.Call, env: Env)
    ensures SendSteps(c, env)
      == [RecordBroadcast(c, env.now(2), env.live(2)), AuditBroadcast(c, env.now(3), env.live(3))] + FailSteps(c, env, 2)
  {}

  lemma SendStepsIdle(c: Custody.Call, env: Env)
    ensures forall i :: 0 <= i < |SendSteps(c, env)| ==> SendSteps(c, env)[i].c == c && !Starts(SendSteps(c, env)[i])
  {}

  // ----- creation calls

  ghost predicate Made(s: System, t: System, c: Custody.Call, w: World, b: Option<Creation>) {
    && t.world == w && t.active == s.active
    && t.pending == if b.Some? then s.pending[c := b.value] else s.pending - {c}
  }

  ghost predicate AloneCreating(s0: System, s: System, c: Custody.Call) {
    c !in s0.active && c !in s0.pending && s.pending - {c} == s0.pending && s.active == s0.active
  }

  lemma AuditMakes(cfg: Config, s: System, c: Custody.Call, now: Time, live: bool)
    requires c in s.pending && (s.pending[c].WalletStored? || s.pending[c].ProposalStored?)
    ensures var e := if s.pending[c].WalletStored?
                     then AuditEvent(WalletCreated, "", s.pending[c].wallet.id, s.pending[c].wallet.chain, now)
                     else Event(TransactionProposed, "", s.pending[c].proposal, now);
      Made(s, Do(cfg, s, AuditCreation(c, now, live)), c, if live then Logged(s.world, e) else s.world, None)
  {}

  lemma StoreWalletMakes(cfg: Config, s: System, c: Custody.Call, w: Wallet, key: string, now: Time, live: bool)
    requires c in s.pending && s.pending[c] == WalletKeyed(w, key)
    ensures var store := if key == "" then StoreSpec.CreateWallet(s.world.store, w).0
                         else CreateWalletOnce(s.world.store, w, WalletRecord(w, key, now)).0;
      Made(s, Do(cfg, s, Step.StoreWallet(c, now, live)), c,
        if live then s.world.(store := store) else s.world,
        if StoresWallet(s, w, key, live) then Some(WalletStored(w)) else None)
  {
    hide IdempotencyKey, WalletScope;
    var store := if key == "" then StoreSpec.CreateWallet(s.world.store, w).0
                 else CreateWalletOnce(s.world.store, w, WalletRecord(w, key, now)).0;
    if StoresWallet(s, w, key, live) {
      assert DoStoreWallet(s, c, w, key, now, live) == WithStore(s, store).(pending := s.pending[c := WalletStored(w)]);
    } else {
      if live {
        assert store == s.world.store by { hide Exec, Do; }
      }
      assert DoStoreWallet(s, c, w, key, now, live) == EndCreation(s, c);
    }
  }

  lemma WalletTail(cfg: Config, s0: System, s: System, c: Custody.Call, w: Wallet, key: string, env: Env)
    requires AloneCreating(s0, s, c) && c in s.pending && s.pending[c] == WalletKeyed(w, key)
    ensures Ended(s0, Exec(cfg, s, [Step.StoreWallet(c, env.now(1), env.live(1)), AuditCreation(c, env.now(2), env.live(2))]),
      Calls.StoreWallet(s.world, w, key, env).0)
  {
    hide Do, Exec, IdempotencyKey, WalletScope;
    var x, y := Step.StoreWallet(c, env.now(1), env.live(1)), AuditCreation(c, env.now(2), env.live(2));
    assert [x, y] == [x] + ([y] + []);
    StoreWalletMakes(cfg, s, c, w, key, env.now(1), env.live(1));
    ExecCons(cfg, s, x, [y] + []);
    var s1 := Do(cfg, s, x);
    if StoresWallet(s, w, key, env.live(1)) {
      AuditMakes(cfg, s1, c, env.now(2), env.live(2));
      ExecCons(cfg, s1, y, []);
      Idle(cfg, Do(cfg, s1, y), c, []);
    } else {
      Idle(cfg, s1, c, [y] + []);
    }
  }

  lemma CreateWalletRun(cfg: Config, s: System, c: Custody.Call, chain: Chain, key: string, id: string, generated: Key, env: Env)
    requires c !in s.active && c !in s.pending && IsId("wlt", id) && id !in s.world.records
    ensures Ended(s, Exec(cfg, s, StepsOf(CreateWalletOp(chain, key, id, generated, env), c)),
      Calls.CreateWallet(cfg, s.world, chain, key, id, generated, env).0)
  {
    hide Do, Exec, IsId, Calls.StoreWallet;
    if !env.live(0) {
      Idle(cfg, s, c, []);
      return;
    }
    var x := KeyWallet(c, id, chain, key, generated, env.now(0));
    var tail := [Step.StoreWallet(c, env.now(1), env.live(1)), AuditCreation(c, env.now(2), env.live(2))];
    assert StepsOf(CreateWalletOp(chain, key, id, generated, env), c) == [x] + tail;
    ExecCons(cfg, s, x, tail);
    var s1 := Do(cfg, s, x);
    KeyMakes(cfg, s, c, id, chain, key, generated, env.now(0));
    if Registered(cfg, chain) {
      WalletTail(cfg, s, s1, c, s1.pending[c].wallet, key, env);
    } else {
      Idle(cfg, s1, c, tail);
    }
  }

  lemma KeyMakes(cfg: Config, s: System, c: Custody.Call, id: string, chain: Chain, key: string, generated: Key, now: Time)
    requires c !in s.pending && IsId("wlt", id) && id !in s.world.records
    ensures var t := Do(cfg, s, KeyWallet(c, id, chain, key, generated, now));
      var r := Signer.RecordFor(cfg, chain, generated);
      if Registered(cfg, chain) then
        Made(s, t, c, s.world.(records := s.world.records[id := r]),
          Some(WalletKeyed(Wallet(id, chain, r.address, r.publicKey, now), key)))
      else t == s
  {
    hide IsId;
  }

  lemma LoadMakes(cfg: Config, s: System, c: Custody.Call, r: Request, key: string, live: bool)
    requires c !in s.pending
    ensures var t := Do(cfg, s, LoadRequest(c, r, key, live));
      if live && r.walletID in s.world.store.wallets
         && AmountAllowed(cfg, s.world.store.wallets[r.walletID].chain, r.amount)
         && Registered(cfg, s.world.store.wallets[r.walletID].chain)
      then Made(s, t, c, s.world, Some(RequestLoaded(s.world.store.wallets[r.walletID], r, key)))
      else t == s
  {
    hide AmountAllowed, Registered;
  }

  lemma BuildMakes(cfg: Config, s: System, c: Custody.Call, source: Wallet, r: Request, key: string, live: bool)
    requires c in s.pending && s.pending[c] == RequestLoaded(source, r, key)
    ensures var t := Do(cfg, s, BuildRaw(c, live));
      var (nonces, out) := Build(cfg, s.world.nonces, source, r);
      if live && out.Ok? then
        && c in t.pending && t.pending[c].RequestBuilt?
        && Made(s, t, c, s.world.(nonces := nonces), Some(RequestBuilt(source, r, out.value, key, t.pending[c].slot)))
      else Made(s, t, c, if live then s.world.(nonces := nonces) else s.world, None)
  {
    hide EvmGuard, BitcoinGuard, EvmRaw, BitcoinRaw, Bump, Issue;
  }

  lemma StoreRefuses(s: System, b: Creation, p: Proposal, id: string, now: Time)
    requires b.RequestBuilt? && !Stores(s, b, id, true) && p.id == id && p.request == b.request
    ensures (if b.key == "" then CreateTransaction(s.world.store, p).0
             else CreateTransactionOnce(s.world.store, p, ProposalRecord(p, b.key, now)).0) == s.world.store
  {
    hide IdempotencyKey, TransactionScope;
  }

  lemma ProposalKept(s: System, c: Custody.Call, b: Creation, id: string, trace: map<string, string>, now: Time)
    requires b.RequestBuilt? && Stores(s, b, id, true)
    ensures var p := NewProposal(id, b.source, b.request, b.raw, trace, now);
      var store := if b.key == "" then CreateTransaction(s.world.store, p).0
                   else CreateTransactionOnce(s.world.store, p, ProposalRecord(p, b.key, now)).0;
      Made(s, DoStoreProposal(s, c, b, id, trace, now, true), c, s.world.(store := store), Some(ProposalStored(p)))
  {
    hide Stores, CreateTransaction, CreateTransactionOnce, Settle;
  }

  lemma ProposalDropped(s: System, c: Custody.Call, b: Creation, id: string, trace: map<string, string>, now: Time, live: bool)
    requires b.RequestBuilt? && !Stores(s, b, id, live)
    ensures Made(s, DoStoreProposal(s, c, b, id, trace, now, live), c, s.world, None)
  {
    hide Stores, CreateTransaction, CreateTransactionOnce, Settle;
  }

  lemma StoreProposalMakes(cfg: Config, s: System, c: Custody.Call, b: Creation, id: string, trace: map<string, string>, now: Time, live: bool)
    requires c in s.pending && s.pending[c] == b && b.RequestBuilt?
    ensures var p := NewProposal(id, b.source, b.request, b.raw, trace, now);
      var store := if b.key == "" then CreateTransaction(s.world.store, p).0
                   else CreateTransactionOnce(s.world.store, p, ProposalRecord(p, b.key, now)).0;
      Made(s, Do(cfg, s, StoreProposal(c, id, trace, now, live)), c,
        if live then s.world.(store := store) else s.world,
        if Stores(s, b, id, live) then Some(ProposalStored(p)) else None)
  {
    hide DoStoreProposal, CreateTransaction, CreateTransactionOnce, Stores;
    if Stores(s, b, id, live) {
      StoresIsLive(s, b, id, live);
      ProposalKept(s, c, b, id, trace, now);
    } else {
      ProposalDropped(s, c, b, id, trace, now, live);
      if live {
        StoreRefuses(s, b, NewProposal(id, b.source, b.request, b.raw, trace, now), id, now);
        assert s.world.(store := s.world.store) == s.world;
      }
    }
  }

  lemma StoresIsLive(s: System, b: Creation, id: string, live: bool)
    requires b.RequestBuilt? && Stores(s, b, id, live)
    ensures live
  {}

  lemma ProposeTail(cfg: Config, s0: System, s: System, c: Custody.Call, b: Creation, id: string, trace: map<string, string>, env: Env)
    requires AloneCreating(s0, s, c) && c in s.pending && s.pending[c] == b && b.RequestBuilt?
    ensures Ended(s0, Exec(cfg, s, [StoreProposal(c, id, trace, env.now(0), env.live(2)), AuditCreation(c, env.now(1), env.live(3))]),
      StoreNew(s.world, NewProposal(id, b.source, b.request, b.raw, trace, env.now(0)), b.key, env).0)
  {
    hide Do, Exec, IdempotencyKey, TransactionScope;
    var x, y := StoreProposal(c, id, trace, env.now(0), env.live(2)), AuditCreation(c, env.now(1), env.live(3));
    assert [x, y] == [x] + ([y] + []);
    StoreProposalMakes(cfg, s, c, b, id, trace, env.now(0), env.live(2));
    ExecCons(cfg, s, x, [y] + []);
    var s1 := Do(cfg, s, x);
    if Stores(s, b, id, env.live(2)) {
      AuditMakes(cfg, s1, c, env.now(1), env.live(3));
      ExecCons(cfg, s1, y, []);
      Idle(cfg, Do(cfg, s1, y), c, []);
    } else {
      Idle(cfg, s1, c, [y] + []);
    }
  }

  function TailSteps(c: Custody.Call, id: string, trace: map<string, string>, env: Env): seq<Step> {
    [StoreProposal(c, id, trace, env.now(0), env.live(2)), AuditCreation(c, env.now(1), env.live(3))]
  }

  /** The rest of a ProposeTransaction call that passed the policy. */
  lemma LoadedRun(cfg: Config, s0: System, s: System, c: Custody.Call, source: Wallet, r: Request, key: string, id: string, trace: map<string, string>, env: Env)
    requires AloneCreating(s0, s, c) && c in s.pending && s.pending[c] == RequestLoaded(source, r, key)
    ensures var (nonces, built) := Build(cfg, s.world.nonces, source, r);
      var w := s.world.(nonces := nonces);
      Ended(s0, Exec(cfg, s, [BuildRaw(c, env.live(1))] + TailSteps(c, id, trace, env)),
        if !env.live(1) then s.world
        else match built
          case Err(_) => w
          case Ok(raw) => StoreNew(w, NewProposal(id, source, r, raw, trace, env.now(0)), key, env).0)
  {
    hide Do, Exec, Build, StoreNew;
    var y, tail := BuildRaw(c, env.live(1)), TailSteps(c, id, trace, env);
    BuildMakes(cfg, s, c, source, r, key, env.live(1));
    ExecCons(cfg, s, y, tail);
    var t := Do(cfg, s, y);
    if c in t.pending {
      ProposeTail(cfg, s0, t, c, t.pending[c], id, trace, env);
    } else {
      Idle(cfg, t, c, tail);
    }
  }

  lemma ProposeRun(cfg: Config, s: System, c: Custody.Call, r: Request, key: string, id: string, trace: map<string, string>, env: Env)
    requires c !in s.active && c !in s.pending
    ensures Ended(s, Exec(cfg, s, StepsOf(ProposeOp(r, key, id, trace, env), c)), Propose(cfg, s.world, r, key, id, trace, env).0)
  {
    hide Do, Exec, Build, StoreNew, AmountAllowed, Registered;
    var x, y := LoadRequest(c, r, key, env.live(0)), BuildRaw(c, env.live(1));
    var tail := TailSteps(c, id, trace, env);
    assert StepsOf(ProposeOp(r, key, id, trace, env), c) == [x] + ([y] + tail);
    ExecCons(cfg, s, x, [y] + tail);
    LoadMakes(cfg, s, c, r, key, env.live(0));
    var s1 := Do(cfg, s, x);
    if c in s1.pending {
      LoadedRun(cfg, s, s1, c, s1.pending[c].source, r, key, id, trace, env);
    } else {
      Idle(cfg, s1, c, [y] + tail);
    }
  }

  // ----- runs of calls

  /** A call's new wallet id is a fresh one, as `ids.New` makes it. */
  predicate FreshId(w: World, op: Op) {
    op.CreateWalletOp? ==> IsId("wlt", op.id) && op.id !in w.records
  }

  lemma CallRun(cfg: Config, s: System, op: Op, c: Custody.Call)
    requires c !in s.active && c !in s.pending && FreshId(s.world, op)
    ensures Ended(s, Exec(cfg, s, StepsOf(op, c)), Calls.Call(cfg, s.world, op).0)
  {
    hide Ended, Exec, StepsOf, IsId, Calls.CreateWallet, Propose, CoSign, Calls.Broadcast;
    match op
    case CreateWalletOp(chain, key, id, generated, env) => CreateWalletRun(cfg, s, c, chain, key, id, generated, env);
    case ProposeOp(r, key, id, trace, env) => ProposeRun(cfg, s, c, r, key, id, trace, env);
    case CoSignOp(tx, signer, salt, env) => CoSignRun(cfg, s, c, tx, signer, salt, env);
    case BroadcastOp(tx, refusal, env) => BroadcastRun(cfg, s, c, tx, refusal, env);
  }

  ghost predicate FreshIds(cfg: Config, ops: seq<Op>) {
    forall i {:trigger ops[i]} :: 0 <= i < |ops| ==> FreshId(After(cfg, ops[..i]), ops[i])
  }

  /** Calls made one at a time reach exactly a state of the step system, with nothing in flight. */
  lemma {:induction false} SequentialIsRun(cfg: Config, ops: seq<Op>) returns (steps: seq<Step>)
    requires FreshIds(cfg, ops)
    ensures var s := Runs.At(cfg, steps); s.world == After(cfg, ops) && s.active == map[] && s.pending == map[]
    decreases |ops|
  {
    hide Do, Calls.Call, StepsOf, FreshId;
    if ops == [] {
      steps := [];
    } else {
      var n := |ops| - 1;
      forall i | 0 <= i < n ensures FreshId(After(cfg, ops[..n][..i]), ops[..n][i]) {
        assert ops[..n][..i] == ops[..i];
        assert FreshId(After(cfg, ops[..i]), ops[i]);
      }
      var before := SequentialIsRun(cfg, ops[..n]);
      assert FreshId(After(cfg, ops[..n]), ops[n]);
      CallRun(cfg, Runs.At(cfg, before), ops[n], 0);
      steps := before + StepsOf(ops[n], 0);
      ExecConcat(cfg, INIT, before, StepsOf(ops[n], 0));
    }
  }
}
