/**
 * Past 2^64 builds the EVM nonce counter has wrapped: in any deployment with the EVM adapter, a run
 * that keeps proposing from one wallet stores two proposals of the same address and nonce, under
 * ids such as `ids.New` makes.
 */
module WrapAround {
  import opened Types
  import opened Amounts
  import opened Setup
  import opened StoreSpec
  import opened Chains
  import opened Custody
  import opened Calls
  import opened Interleaving
  import opened Witness
  import Signer = Signing
  import Runs
  import Nonces

  // ----- numbered ids

  /** `k` in 32 digits, which are hexadecimal digits too. */
  function Padded(k: nat): string {
    var d := Decimal(k);
    Zeros(if |d| <= 32 then 32 - |d| else 0) + d
  }

  function TxId(k: nat): string { "txn_" + Padded(k) }

  lemma TxIdInjective(j: nat, k: nat)
    requires TxId(j) == TxId(k)
    ensures j == k
  {
    assert TxId(j)[4..] == Padded(j) && TxId(k)[4..] == Padded(k);
    PaddedValue(j);
    PaddedValue(k);
  }

  lemma PaddedValue(k: nat)
    ensures AllDigits(Padded(k)) && DigitsValue(Padded(k)) == k
  {
    DecimalIsDigits(k);
    var d := Decimal(k);
    LeadingZeros(if |d| <= 32 then 32 - |d| else 0, d);
  }

  function Pow10(d: nat): nat { if d == 0 then 1 else 10 * Pow10(d - 1) }

  lemma {:induction false} DecimalIsShort(k: nat, d: nat)
    requires d > 0 && k < Pow10(d)
    ensures |Decimal(k)| <= d
  {
    if k >= 10 {
      assert d > 1;
      DecimalIsShort(k / 10, d - 1);
    }
  }

  lemma TwentyDigits()
    ensures TWO_64 < Pow10(20)
  {
    assert Pow10(5) == 10_0000;
    assert Pow10(10) == 1_0000_0000_00;
    assert Pow10(15) == 10_0000 * Pow10(10);
    assert Pow10(20) == 10_0000 * Pow10(15);
  }

  lemma {:induction false} ZerosLength(k: nat)
    ensures |Zeros(k)| == k
  {
    if k > 0 { ZerosLength(k - 1); }
  }

  lemma TxIdIsId(k: nat)
    requires k <= TWO_64
    ensures IsId("txn", TxId(k))
  {
    TwentyDigits();
    DecimalIsShort(k, 20);
    ZerosLength(32 - |Decimal(k)|);
    PaddedValue(k);
    var id := TxId(k);
    hide Decimal, Zeros, Pow10;
    assert "txn" + "_" == "txn_" && id[..4] == "txn_";
    forall i | 3 < i < |id| ensures '0' <= id[i] <= '9' {
      assert id[i] == Padded(k)[i - 4] && IsDigit(Padded(k)[i - 4]);
    }
  }

  // ----- numbered proposals

  /** Our wallet, and `n` proposals of it numbered in order. */
  ghost predicate Numbered(cfg: Config, w: World, n: nat) {
    && WALLET_ID in w.store.wallets && w.store.wallets[WALLET_ID] == OurWallet(cfg)
    && Counter(w.nonces, OurWallet(cfg).address) == n % TWO_64
    && (forall k: nat :: k < n ==>
          && TxId(k) in w.store.transactions
          && w.store.transactions[TxId(k)].raw == EvmRaw(cfg, OurWallet(cfg), REQUEST, k % TWO_64))
    && (forall id :: id in w.store.transactions ==> exists k: nat :: k < n && id == TxId(k))
  }

  lemma NothingNumbered(cfg: Config)
    requires UsableEvm(cfg)
    ensures Numbered(cfg, Calls.CreateWallet(cfg, EMPTY_WORLD, EVM, "", WALLET_ID, 0, ENV).0, 0)
  {
    WalletMade(cfg);
  }

  /** What one more ProposeTransaction call does. */
  lemma Proposes(cfg: Config, w: World, id: string)
    requires UsableEvm(cfg) && WALLET_ID in w.store.wallets && w.store.wallets[WALLET_ID] == OurWallet(cfg)
    requires id !in w.store.transactions
    ensures var v := Propose(cfg, w, REQUEST, "", id, map[], ENV).0;
      && v.store.wallets == w.store.wallets && v.nonces == Bump(w.nonces, OurWallet(cfg).address)
      && v.store.transactions.Keys == w.store.transactions.Keys + {id}
      && (forall j :: j in w.store.transactions ==> v.store.transactions[j] == w.store.transactions[j])
      && v.store.transactions[id].raw == EvmRaw(cfg, OurWallet(cfg), REQUEST, Counter(w.nonces, OurWallet(cfg).address))
  {
    RequestIsFine(cfg, REQUEST);
    hide AmountAllowed, EvmGuard, Registered, Decimal, Bump, Counter, Signer.RecordFor;
  }

  lemma ProposeOne(cfg: Config, w: World, n: nat)
    requires UsableEvm(cfg) && Numbered(cfg, w, n)
    ensures Numbered(cfg, Propose(cfg, w, REQUEST, "", TxId(n), map[], ENV).0, n + 1)
  {
    hide Propose, OurWallet, EvmRaw, Padded;
    forall k: nat | k < n ensures TxId(k) != TxId(n) { if TxId(k) == TxId(n) { TxIdInjective(k, n); } }
    assert TxId(n) !in w.store.transactions;
    Proposes(cfg, w, TxId(n));
    Nonces.ModSucc(n);
    hide TxId;
  }

  /** Creating the wallet, then proposing `n` times. */
  function ManyCalls(n: nat): seq<Op> {
    if n == 0 then [CreateWalletOp(EVM, "", WALLET_ID, 0, ENV)]
    else ManyCalls(n - 1) + [ProposeOp(REQUEST, "", TxId(n - 1), map[], ENV)]
  }

  lemma {:induction false} AfterManyCalls(cfg: Config, n: nat)
    requires UsableEvm(cfg)
    ensures Numbered(cfg, After(cfg, ManyCalls(n)), n)
  {
    hide Numbered, Propose, Calls.CreateWallet;
    if n == 0 {
      NothingNumbered(cfg);
      assert ManyCalls(0)[..0] == [];
    } else {
      AfterManyCalls(cfg, n - 1);
      ProposeOne(cfg, After(cfg, ManyCalls(n - 1)), n - 1);
      assert ManyCalls(n)[..|ManyCalls(n)| - 1] == ManyCalls(n - 1);
    }
  }

  lemma {:induction false} OneWallet(n: nat)
    ensures var ops := ManyCalls(n);
      && ops != [] && ops[0] == CreateWalletOp(EVM, "", WALLET_ID, 0, ENV)
      && forall i :: 0 < i < |ops| ==> !ops[i].CreateWalletOp?
  {
    if n > 0 { OneWallet(n - 1); }
  }

  /** Two stored proposals of one address with the same nonce. */
  lemma NoncesCollide(cfg: Config) returns (run: seq<Step>, i: string, j: string)
    requires UsableEvm(cfg)
    ensures IsId("txn", i) && IsId("txn", j) && i != j
    ensures var rows := Runs.At(cfg, run).world.store.transactions;
      && i in rows && j in rows && rows[i].raw.EvmPayload? && rows[j].raw.EvmPayload?
      && rows[i].raw.from == rows[j].raw.from && rows[i].raw.nonce == rows[j].raw.nonce
  {
    var n: nat := TWO_64 + 1;
    OneWallet(n);
    IdsAreFresh(cfg, ManyCalls(n));
    AfterManyCalls(cfg, n);
    hide After, ManyCalls, FreshIds, Custody.Do, Padded;
    run := SequentialIsRun(cfg, ManyCalls(n));
    i, j := TxId(0), TxId(TWO_64);
    TxIdIsId(0);
    TxIdIsId(TWO_64);
    if i == j { TxIdInjective(0, TWO_64); }
  }
}
