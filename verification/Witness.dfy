/**
 * Runs from the empty system, for any deployment with the EVM adapter and enough allowed signers.
 * With a node that may refuse, two Broadcast calls leave a signed transaction first broadcast and at
 * last failed, or the other way round. A request whose fee the signer cannot read loses an approval
 * that was granted, by the signer's own refusal.
 *
 * The payload built here is also the one an adapter with a node builds, when the node reports the
 * configured chain, nonce zero and no tip.
 */
module Witness {
  import opened Types
  import opened Amounts
  import opened Setup
  import opened StoreSpec
  import opened Chains
  import opened Custody
  import opened Calls
  import opened Interleaving
  import Signer = Signing
  import Runs
  import Finality
  import Losses
  import Absorbing

  const ENV := Env(i => 0, None)
  const WALLET_ID := "wlt_00000000000000000000000000000000"
  const TX_ID := "txn_00000000000000000000000000000000"
  const REQUEST := Request(WALLET_ID, "to", Decimal(1), 0, 1, Decimal(1), "", [])

  /** The same request with a fee that is no number. */
  const BAD_REQUEST := REQUEST.(maxFeePerGas := "x")

  /** The EVM adapter is there, one wei is within the cap, and the two signers may sign. */
  ghost predicate Usable(cfg: Config, a: string, b: string) {
    UsableEvm(cfg) && a != b && a != "" && b != "" && (cfg.allowedSigners == {} || {a, b} <= cfg.allowedSigners)
  }

  ghost predicate UsableEvm(cfg: Config) { cfg.evm && (cfg.maxWei.Some? ==> 1 <= cfg.maxWei.value) }

  function OurWallet(cfg: Config): Wallet {
    var r := Signer.RecordFor(cfg, EVM, 0);
    Wallet(WALLET_ID, EVM, r.address, r.publicKey, 0)
  }

  function OurPayload(cfg: Config, r: Request): Payload { EvmRaw(cfg, OurWallet(cfg), r, 0) }

  function OurProposal(cfg: Config, r: Request): Proposal {
    NewProposal(TX_ID, OurWallet(cfg), r, OurPayload(cfg, r), map[], 0)
  }

  lemma RequestIsFine(cfg: Config, r: Request)
    requires UsableEvm(cfg) && (r == REQUEST || r == BAD_REQUEST)
    ensures Registered(cfg, EVM) && AmountAllowed(cfg, EVM, r.amount) && EvmGuard(r) == None
  {
    ParsePrinted(1);
  }

  lemma WalletMade(cfg: Config)
    requires cfg.evm
    ensures var w := Calls.CreateWallet(cfg, EMPTY_WORLD, EVM, "", WALLET_ID, 0, ENV).0;
      && w.store.wallets == map[WALLET_ID := OurWallet(cfg)] && w.store.transactions == map[]
      && WALLET_ID in w.records && w.nonces == map[]
  {}

  lemma ProposalMade(cfg: Config, w: World, r: Request)
    requires UsableEvm(cfg) && (r == REQUEST || r == BAD_REQUEST) && w.nonces == map[]
    requires w.store.wallets == map[WALLET_ID := OurWallet(cfg)] && w.store.transactions == map[]
    ensures var v := Propose(cfg, w, r, "", TX_ID, map[], ENV).0;
      v.store.transactions == map[TX_ID := OurProposal(cfg, r)] && v.records == w.records
  {
    RequestIsFine(cfg, r);
    hide AmountAllowed, EvmGuard, Registered, Decimal, Signer.RecordFor;
  }

  lemma FirstApproval(cfg: Config, w: World, a: string, b: string)
    requires Usable(cfg, a, b) && w.store.transactions == map[TX_ID := OurProposal(cfg, REQUEST)]
    ensures var v := CoSign(cfg, w, TX_ID, a, 0, ENV).0;
      v.store.transactions == map[TX_ID := Approve(OurProposal(cfg, REQUEST), Approval(a, 0))] && v.records == w.records
  {
    assert |Approve(OurProposal(cfg, REQUEST), Approval(a, 0)).approvals| == 1;
  }

  lemma PayloadIsSignable(cfg: Config, key: Key)
    ensures Signer.SignEvm(OurPayload(cfg, REQUEST), key).Ok?
  {
    ParsePrinted(1);
    hide ParseDecimal, Decimal;
    assert Signer.DecodeHex("") == Some([]);
  }

  lemma SecondApproval(cfg: Config, w: World, a: string, b: string)
    requires Usable(cfg, a, b) && WALLET_ID in w.records && !cfg.refuses(OurPayload(cfg, REQUEST))
    requires w.store.transactions == map[TX_ID := Approve(OurProposal(cfg, REQUEST), Approval(a, 0))]
    ensures var v := CoSign(cfg, w, TX_ID, b, 0, ENV).0;
      && TX_ID in v.store.transactions && v.store.transactions[TX_ID].status == Signed
      && v.store.transactions[TX_ID].signed != Unsigned && v.store.transactions[TX_ID].chain == EVM
  {
    var p := Approve(OurProposal(cfg, REQUEST), Approval(a, 0));
    var q := Approve(p, Approval(b, 0));
    assert q.approvals.Keys == {a, b} && |{a, b}| == 2;
    PayloadIsSignable(cfg, w.records[WALLET_ID].key);
  }

  function OurCalls(a: string, b: string): seq<Op> {
    [CreateWalletOp(EVM, "", WALLET_ID, 0, ENV), ProposeOp(REQUEST, "", TX_ID, map[], ENV),
     CoSignOp(TX_ID, a, 0, ENV), CoSignOp(TX_ID, b, 0, ENV)]
  }

  lemma Unfold(cfg: Config, ops: seq<Op>, op: Op)
    ensures After(cfg, ops + [op]) == Calls.Call(cfg, After(cfg, ops), op).0
  {
    assert (ops + [op])[..|ops|] == ops;
  }

  lemma OurCallsSign(cfg: Config, a: string, b: string)
    requires Usable(cfg, a, b) && !cfg.refuses(OurPayload(cfg, REQUEST))
    ensures var s := After(cfg, OurCalls(a, b)).store;
      && TX_ID in s.transactions && s.transactions[TX_ID].status == Signed
      && s.transactions[TX_ID].signed != Unsigned && s.transactions[TX_ID].chain == EVM
  {
    hide Calls.CreateWallet, Propose, CoSign, OurProposal, OurWallet, OurPayload, Approve;
    var ops := OurCalls(a, b);
    Unfold(cfg, [], ops[0]);
    Unfold(cfg, [] + [ops[0]], ops[1]);
    Unfold(cfg, [] + [ops[0]] + [ops[1]], ops[2]);
    Unfold(cfg, [] + [ops[0]] + [ops[1]] + [ops[2]], ops[3]);
    assert ops == [] + [ops[0]] + [ops[1]] + [ops[2]] + [ops[3]];
    hide After;
    var w1 := After(cfg, [] + [ops[0]]);
    var w2 := After(cfg, [] + [ops[0]] + [ops[1]]);
    var w3 := After(cfg, [] + [ops[0]] + [ops[1]] + [ops[2]]);
    WalletMade(cfg);
    ProposalMade(cfg, w1, REQUEST);
    FirstApproval(cfg, w2, a, b);
    SecondApproval(cfg, w3, a, b);
  }

  lemma WalletIsFresh(op: Op)
    requires op.CreateWalletOp? && op.id == WALLET_ID
    ensures FreshId(EMPTY_WORLD, op)
  {
    assert IsId("wlt", WALLET_ID);
  }

  /** Only the first of these calls makes a wallet. */
  lemma IdsAreFresh(cfg: Config, ops: seq<Op>)
    requires ops != [] && ops[0].CreateWalletOp? && ops[0].id == WALLET_ID
    requires forall i :: 0 < i < |ops| ==> !ops[i].CreateWalletOp?
    ensures FreshIds(cfg, ops)
  {
    forall i | 0 <= i < |ops| ensures FreshId(After(cfg, ops[..i]), ops[i]) {
      if i == 0 {
        assert ops[..0] == [];
        WalletIsFresh(ops[0]);
      }
    }
  }

  ghost predicate Reads(cfg: Config, run: seq<Step>, status: Status) {
    var rows := Runs.At(cfg, run).world.store.transactions;
    TX_ID in rows && rows[TX_ID].status == status
  }

  /**
   * With a node neither terminal status is absorbing under interleaving: after one and the same run,
   * two orders of the last two steps end in different statuses, each overwriting the other.
   */
  lemma TerminalStatusIsNotAbsorbing(cfg: Config, a: string, b: string) returns (run: seq<Step>)
    requires Usable(cfg, a, b) && !cfg.refuses(OurPayload(cfg, REQUEST)) && cfg.node
    ensures var x, y := RecordBroadcast(0, 0, true), RecordFailure(1, 0, true);
      && Reads(cfg, run + [x], Types.Broadcast) && Reads(cfg, run + [x] + [y], Failed)
      && Reads(cfg, run + [y], Failed) && Reads(cfg, run + [y] + [x], Types.Broadcast)
  {
    hide Custody.Do, After;
    IdsAreFresh(cfg, OurCalls(a, b));
    var signing := SequentialIsRun(cfg, OurCalls(a, b));
    OurCallsSign(cfg, a, b);
    hide Custody.Exec, OurCalls, FreshIds;
    var rest := Finality.TerminalStatusesSwap(cfg, signing, TX_ID, 0, 1);
    run := signing + rest;
  }

  /** Every Broadcast or Failed row of every run keeps its status for good. */
  ghost predicate Absorbs(cfg: Config) {
    forall a, id :: Finality.Terminal(Runs.At(cfg, a), id) ==> Finality.StatusFinal(cfg, a, id)
  }

  /** Terminal statuses are absorbing under every interleaving if and only if no node may refuse. */
  lemma AbsorbsIff(cfg: Config, a: string, b: string)
    requires Usable(cfg, a, b) && !cfg.refuses(OurPayload(cfg, REQUEST))
    ensures Absorbs(cfg) <==> !cfg.node
  {
    hide Custody.Do, Custody.Exec;
    if cfg.node {
      var run := TerminalStatusIsNotAbsorbing(cfg, a, b);
      var x, y := RecordBroadcast(0, 0, true), RecordFailure(1, 0, true);
      assert Finality.Terminal(Runs.At(cfg, run + [x]), TX_ID);
      assert Reads(cfg, run + [x] + [y], Failed);
      assert !Finality.StatusFinal(cfg, run + [x], TX_ID);
    } else {
      forall a, id | Finality.Terminal(Runs.At(cfg, a), id) ensures Finality.StatusFinal(cfg, a, id) {
        Absorbing.TerminalStatusAbsorbs(cfg, a, id);
      }
    }
  }

  // ----- a lost approval

  lemma BadFee()
    ensures ParseDecimal("x") == None
  {}

  lemma BadRequestIsHopeless(cfg: Config)
    ensures Signer.Unsignable(cfg, EVM, OurPayload(cfg, BAD_REQUEST))
  {
    BadFee();
    hide ParseDecimal, Decimal;
  }

  /** A run that proposes the bad request and leaves it without approvals. */
  lemma OurStart(cfg: Config) returns (run: seq<Step>)
    requires UsableEvm(cfg)
    ensures var rows := Runs.At(cfg, run).world.store.transactions;
      TX_ID in rows && rows[TX_ID] == OurProposal(cfg, BAD_REQUEST)
  {
    hide Calls.CreateWallet, Propose, Custody.Do, OurProposal, OurWallet;
    var ops := [CreateWalletOp(EVM, "", WALLET_ID, 0, ENV), ProposeOp(BAD_REQUEST, "", TX_ID, map[], ENV)];
    IdsAreFresh(cfg, ops);
    run := SequentialIsRun(cfg, ops);
    Unfold(cfg, [], ops[0]);
    Unfold(cfg, [] + [ops[0]], ops[1]);
    assert ops == [] + [ops[0]] + [ops[1]];
    hide After;
    WalletMade(cfg);
    ProposalMade(cfg, After(cfg, [] + [ops[0]]), BAD_REQUEST);
  }

  /** With three allowed signers, some run ends with the row Failed and a granted approval missing from it. */
  lemma ApprovalIsLost(cfg: Config, a: string, b: string, c: string) returns (run: seq<Step>, signer: string)
    requires Usable(cfg, a, b) && c != a && c != b && c != "" && (cfg.allowedSigners == {} || c in cfg.allowedSigners)
    ensures var s := Runs.At(cfg, run);
      && Reads(cfg, run, Failed)
      && signer in GrantedTo(s, TX_ID) && signer !in s.world.store.transactions[TX_ID].approvals
  {
    hide Custody.Do, After, Runs.AllInv;
    var start := OurStart(cfg);
    var s := Runs.At(cfg, start);
    Runs.RunOK(cfg, start);
    Losses.RowHasAll(cfg, s, TX_ID);
    BadRequestIsHopeless(cfg);
    hide Signer.Unsignable;
    var rest := Losses.ThreeMoreLose(cfg, start, TX_ID, a, b, c);
    run := start + rest;
    Losses.LostOnlyWhenFailed(cfg, run, TX_ID);
    signer := MissingKey(Runs.At(cfg, run).world.store.transactions[TX_ID].approvals, GrantedTo(Runs.At(cfg, run), TX_ID));
  }

  lemma MissingKey(m: map<string, Approval>, n: map<string, Approval>) returns (k: string)
    requires Submap(m, n) && m != n
    ensures k in n && k !in m
  {
    assert m.Keys == n.Keys ==> m == n;
    k :| k in n && k !in m;
  }
}
