/** Cross-module guarantees of every run: idempotency, keys, amounts and nonces. */
module Guarantees {
  import opened Types
  import opened Amounts
  import opened Setup
  import opened StoreSpec
  import opened Chains
  import opened Custody
  import opened Evolution
  import opened Creations
  import opened Nonces
  import opened Runs
  import AuditTrail
  import Signer = Signing

  // ----- idempotency keys

  predicate NulFree(s: string) { forall i :: 0 <= i < |s| ==> s[i] != '\0' }

  /** Joining with NUL is injective on NUL-free scopes, whatever the client's key contains. */
  lemma KeyInjective(a: string, k: string, b: string, l: string)
    requires NulFree(a) && NulFree(b) && IdempotencyKey(a, k) == IdempotencyKey(b, l)
    ensures a == b && k == l
  {
    var x, y := IdempotencyKey(a, k), IdempotencyKey(b, l);
    assert x[|a|] == '\0' && y[|b|] == '\0';
    assert x[..|a|] == a && y[..|b|] == b;
    assert x[|a| + 1..] == k && y[|b| + 1..] == l;
  }

  lemma WalletScopeNulFree(cfg: Config, chain: Chain)
    requires Registered(cfg, chain)
    ensures NulFree(WalletScope(chain))
  {}

  lemma TransactionScopeNulFree(id: string)
    requires IsId("wlt", id)
    ensures NulFree(TransactionScope(id))
  {
    var t := TransactionScope(id);
    forall i | 0 <= i < |t| ensures t[i] != '\0' {
      if i >= 12 {
        assert t[i] == id[i - 12];
        assert "wlt_" <= id;
        if i - 12 <= 3 { assert id[i - 12] == "wlt_"[i - 12]; }
      } else {
        assert t[i] == "transaction:"[i];
      }
    }
  }

  lemma ScopesDisjoint(chain: Chain, id: string)
    ensures WalletScope(chain) != TransactionScope(id)
  {
    assert WalletScope(chain)[0] == 'w' && TransactionScope(id)[0] == 't';
  }

  lemma ScopesInjective(a: string, b: string)
    ensures WalletScope(a) == WalletScope(b) ==> a == b
    ensures TransactionScope(a) == TransactionScope(b) ==> a == b
  {
    assert WalletScope(a)[7..] == a && WalletScope(b)[7..] == b;
    assert TransactionScope(a)[12..] == a && TransactionScope(b)[12..] == b;
  }

  lemma RecordNulFree(cfg: Config, s: System, k: string)
    requires CreationInv(cfg, s) && k in Idempotency(s)
    ensures NulFree(Idempotency(s)[k].scope)
  {
    hide WalletScope, TransactionScope, IdempotencyKey, RawOK, PendingOK, NulFree, IsId, Registered;
    var r := Idempotency(s)[k];
    assert RecordOK(s, k, r);
    if r.resourceID in Wallets(s) && r.scope == WalletScope(Wallets(s)[r.resourceID].chain) {
      WalletScopeNulFree(cfg, Wallets(s)[r.resourceID].chain);
    } else {
      assert ProposalOK(cfg, s, Rows(s)[r.resourceID]);
      TransactionScopeNulFree(Rows(s)[r.resourceID].walletID);
    }
  }

  /** A record found under a wallet's scope and key names a stored wallet of that chain. */
  lemma WalletRecordResolves(cfg: Config, s: System, chain: Chain, key: string)
    requires AllInv(cfg, s) && Registered(cfg, chain)
    ensures var k := IdempotencyKey(WalletScope(chain), key);
      k in Idempotency(s) ==>
        Idempotency(s)[k].resourceID in Wallets(s) && Wallets(s)[Idempotency(s)[k].resourceID].chain == chain
  {
    hide WalletScope, TransactionScope, IdempotencyKey, WalletOK, ProposalOK, PendingOK, NulFree, Inv, LedgerInv, AuditTrail.TrailInv, Registered;
    var k := IdempotencyKey(WalletScope(chain), key);
    if k in Idempotency(s) {
      var r := Idempotency(s)[k];
      assert RecordOK(s, k, r);
      RecordNulFree(cfg, s, k);
      WalletScopeNulFree(cfg, chain);
      KeyInjective(WalletScope(chain), key, r.scope, r.key);
      if r.resourceID in Rows(s) { ScopesDisjoint(chain, Rows(s)[r.resourceID].walletID); }
      if r.resourceID in Wallets(s) { ScopesInjective(chain, Wallets(s)[r.resourceID].chain); }
    }
  }

  /** A record found under a transaction scope and key names a stored proposal of that wallet. */
  lemma ProposalRecordResolves(cfg: Config, s: System, walletID: string, key: string)
    requires AllInv(cfg, s) && walletID in Wallets(s)
    ensures var k := IdempotencyKey(TransactionScope(walletID), key);
      k in Idempotency(s) ==>
        Idempotency(s)[k].resourceID in Rows(s) && Rows(s)[Idempotency(s)[k].resourceID].walletID == walletID
  {
    hide WalletScope, TransactionScope, IdempotencyKey, ProposalOK, PendingOK, NulFree, Inv, LedgerInv, AuditTrail.TrailInv, Registered, IsId;
    var k := IdempotencyKey(TransactionScope(walletID), key);
    if k in Idempotency(s) {
      var r := Idempotency(s)[k];
      assert RecordOK(s, k, r);
      RecordNulFree(cfg, s, k);
      assert WalletOK(cfg, s, Wallets(s)[walletID]);
      TransactionScopeNulFree(walletID);
      KeyInjective(TransactionScope(walletID), key, r.scope, r.key);
      if r.resourceID in Rows(s) { ScopesInjective(walletID, Rows(s)[r.resourceID].walletID); }
      if r.resourceID in Wallets(s) { ScopesDisjoint(Wallets(s)[r.resourceID].chain, walletID); }
    }
  }

  /** An idempotent wallet creation never meets a dangling record, and answers with a wallet of the asked chain. */
  lemma CreateWalletResolves(cfg: Config, steps: seq<Step>, w: Wallet, key: string, now: Time)
    requires Registered(cfg, w.chain)
    ensures var out := CreateWalletOnce(At(cfg, steps).world.store, w, WalletRecord(w, key, now)).1;
      out != Err(WalletNotFound) && (out.Ok? ==> out.value.resource.chain == w.chain)
  {
    hide AllInv, WalletScope, IdempotencyKey, Do;
    RunOK(cfg, steps);
    WalletRecordResolves(cfg, At(cfg, steps), w.chain, key);
  }

  /** Likewise for proposals: the answer is a stored proposal of the wallet the request names. */
  lemma ProposeResolves(cfg: Config, steps: seq<Step>, p: Proposal, key: string, now: Time)
    requires p.walletID == p.request.walletID && p.walletID in Wallets(At(cfg, steps))
    ensures var out := CreateTransactionOnce(At(cfg, steps).world.store, p, ProposalRecord(p, key, now)).1;
      out != Err(TransactionNotFound) && (out.Ok? ==> out.value.resource.walletID == p.walletID)
  {
    hide AllInv, TransactionScope, IdempotencyKey, Do;
    RunOK(cfg, steps);
    ProposalRecordResolves(cfg, At(cfg, steps), p.walletID, key);
  }

  /** Once a key has a wallet, every later use of the key on that chain answers with that very wallet. */
  lemma SameKeySameWallet(cfg: Config, a: seq<Step>, b: seq<Step>, w: Wallet, key: string, now: Time)
    requires Registered(cfg, w.chain)
    requires IdempotencyKey(WalletScope(w.chain), key) in Idempotency(At(cfg, a))
    ensures var r := Idempotency(At(cfg, a))[IdempotencyKey(WalletScope(w.chain), key)];
      && r.resourceID in Wallets(At(cfg, a))
      && CreateWalletOnce(At(cfg, a + b).world.store, w, WalletRecord(w, key, now)).1
         == Ok(Created(Wallets(At(cfg, a))[r.resourceID], false))
  {
    hide AllInv, WalletScope, IdempotencyKey, Do;
    RunOK(cfg, a);
    WalletRecordResolves(cfg, At(cfg, a), w.chain, key);
    NothingIsForgotten(cfg, a, b);
  }

  /** Once a key has a proposal, every later use of the key for that wallet answers with that proposal's row. */
  lemma SameKeySameProposal(cfg: Config, a: seq<Step>, b: seq<Step>, p: Proposal, key: string, now: Time)
    requires p.walletID == p.request.walletID && p.walletID in Wallets(At(cfg, a))
    requires IdempotencyKey(TransactionScope(p.walletID), key) in Idempotency(At(cfg, a))
    ensures var id := Idempotency(At(cfg, a))[IdempotencyKey(TransactionScope(p.walletID), key)].resourceID;
      && id in Rows(At(cfg, a + b))
      && CreateTransactionOnce(At(cfg, a + b).world.store, p, ProposalRecord(p, key, now)).1
         == Ok(Created(Rows(At(cfg, a + b))[id], false))
      && Rows(At(cfg, a + b))[id].id == id
  {
    hide AllInv, TransactionScope, IdempotencyKey, Do;
    var id := Idempotency(At(cfg, a))[IdempotencyKey(TransactionScope(p.walletID), key)].resourceID;
    RunOK(cfg, a);
    ProposalRecordResolves(cfg, At(cfg, a), p.walletID, key);
    NothingIsForgotten(cfg, a, b);
    StatusMovesForward(cfg, a, b, id);
    RunOK(cfg, a + b);
    AllCore(cfg, At(cfg, a + b));
    AuditTrail.RowNamed(cfg, At(cfg, a + b), id);
  }

  // ----- keys, payloads and amounts

  /** Every stored wallet has the signer's key, with the address and public key of that key; EVM wallets share a configured key. */
  lemma WalletHasKey(cfg: Config, steps: seq<Step>, id: string)
    requires id in Wallets(At(cfg, steps))
    ensures var s := At(cfg, steps); var w := Wallets(s)[id];
      && w.id == id && id in s.world.records
      && var key := s.world.records[id].key;
         && s.world.records[id].chain == w.chain
         && w.address == cfg.address(w.chain, key) && w.publicKey == cfg.publicKey(w.chain, key)
         && (w.chain == "evm" && cfg.devKey.Some? ==> key == cfg.devKey.value)
  {
    RunOK(cfg, steps);
    hide Do, Inv, LedgerInv, AuditTrail.TrailInv, ProposalOK, PendingOK, RecordOK, IsId;
    assert WalletOK(cfg, At(cfg, steps), Wallets(At(cfg, steps))[id]);
  }

  /** Within the configured cap of the chain, when there is one. */
  predicate WithinCap(cfg: Config, chain: Chain, v: int) {
    && v > 0
    && (chain == EVM ==> cfg.maxWei.Some? ==> v <= cfg.maxWei.value)
    && (chain == BITCOIN ==> v <= 9223372036854775807 && (cfg.maxSats > 0 ==> v <= cfg.maxSats))
  }

  /** The policy accepts a text if and only if it denotes a positive number within the cap. */
  lemma PolicyAcceptsIff(cfg: Config, chain: Chain, text: string)
    requires chain == EVM || chain == BITCOIN
    ensures AmountAllowed(cfg, chain, text) <==> exists n :: Denotes(text, n) && WithinCap(cfg, chain, n)
  {
    forall n ensures ParseDecimal(text) == Some(n) <==> Denotes(text, n) { ParseDenotes(text, n); }
    hide ParseDecimal, Denotes;
    if AmountAllowed(cfg, chain, text) {
      var n := ParseDecimal(text).value;
      assert Denotes(text, n) && WithinCap(cfg, chain, n);
    }
  }

  /** The signed payload says what the request said, for the wallet it named. */
  ghost predicate Faithful(cfg: Config, p: Proposal, from: string, signed: SignedTx) {
    && !signed.Unsigned?
    && p.raw.from == from && from == cfg.address(p.chain, signed.key) && p.raw.to == p.request.to
    && if p.chain == EVM then
         && signed.RawEvm? && p.raw.EvmPayload?
         && ParseDecimal(p.request.amount) == Some(signed.value) && WithinCap(cfg, EVM, signed.value)
         && signed.nonce == p.raw.nonce && signed.chainID == cfg.chainID
         && signed.to == p.request.to && signed.gas == p.request.gasLimit
         && ParseDecimal(p.request.maxFeePerGas) == Some(signed.feeCap) && signed.tipCap == signed.feeCap
         && Signer.CallData(p.request.data, signed.data)
       else
         && signed.Envelope? && signed.raw == p.raw && p.raw.BitcoinPayload?
         && ParseInt64(p.request.amount) == Some(p.raw.amountSats) && WithinCap(cfg, BITCOIN, p.raw.amountSats)
         && p.raw.network == cfg.network && p.raw.feeRateSats == p.request.feeRateSats && p.raw.utxos == p.request.utxos
  }

  /**
   * Any signature stored for a transaction (hence any one submitted) was made with the key whose
   * address the payload pays from, and carries the requested positive amount, within the cap.
   */
  lemma SignatureIsFaithful(cfg: Config, steps: seq<Step>, id: string, signed: SignedTx)
    requires Won(At(cfg, steps), id, signed)
    ensures var s := At(cfg, steps);
      && id in Rows(s) && Rows(s)[id].walletID in Wallets(s)
      && Faithful(cfg, Rows(s)[id], Wallets(s)[Rows(s)[id].walletID].address, signed)
  {
    RunOK(cfg, steps);
    WonFaithful(cfg, At(cfg, steps), id, signed);
  }

  lemma WonFaithful(cfg: Config, s: System, id: string, signed: SignedTx)
    requires AllInv(cfg, s) && Won(s, id, signed)
    ensures id in Rows(s) && Rows(s)[id].walletID in Wallets(s)
    ensures Faithful(cfg, Rows(s)[id], Wallets(s)[Rows(s)[id].walletID].address, signed)
  {
    hide FlowOK, PendingOK, RecordOK, LedgerInv, AuditTrail.TrailInv, IsId, Faithful, RawOK, SignersOK, Signer.SignEvm;
    assert RowOK(cfg, s, id);
    var p := Rows(s)[id];
    assert ProposalOK(cfg, s, p);
    var w := Wallets(s)[p.walletID];
    assert WalletOK(cfg, s, w);
    SignedFaithful(cfg, p, w, s.world.records[p.walletID].key, signed);
  }

  lemma SignedFaithful(cfg: Config, p: Proposal, w: Wallet, key: Key, signed: SignedTx)
    requires RawOK(cfg, w, p.request, p.raw) && p.chain == w.chain && p.walletID == w.id
    requires w.address == cfg.address(w.chain, key) && Registered(cfg, w.chain)
    requires if p.chain == EVM then Signer.SignEvm(p.raw, key) == Ok(signed)
             else signed.Envelope? && signed == Envelope(key, p.walletID, p.chain, p.raw, signed.salt)
    ensures Faithful(cfg, p, w.address, signed)
  {
    hide ParseDecimal, Signer.DecodeHex, Signer.CallData;
    if signed.RawEvm? { Signer.CallDataIff(p.request.data, signed.data); }
  }

  /** The request asks an EVM payload that the signer cannot read. */
  ghost predicate Malformed(chain: Chain, r: Request) {
    && chain == EVM
    && ((forall n :: !Denotes(r.maxFeePerGas, n)) || (forall b :: !Signer.CallData(r.data, b)))
  }

  lemma MalformedIff(chain: Chain, r: Request)
    ensures Malformed(chain, r) <==>
      chain == EVM && (ParseDecimal(r.maxFeePerGas).None? || Signer.DecodeHex(Signer.TrimHexPrefix(r.data)).None?)
  {
    hide ParseDecimal, Signer.DecodeHex, Signer.CallData, Denotes, Signer.TrimHexPrefix;
    forall n ensures ParseDecimal(r.maxFeePerGas) == Some(n) <==> Denotes(r.maxFeePerGas, n) { ParseDenotes(r.maxFeePerGas, n); }
    forall b ensures Signer.DecodeHex(Signer.TrimHexPrefix(r.data)) == Some(b) <==> Signer.CallData(r.data, b) {
      Signer.CallDataIff(r.data, b);
    }
    var fee, data := ParseDecimal(r.maxFeePerGas), Signer.DecodeHex(Signer.TrimHexPrefix(r.data));
    assert fee.Some? ==> Denotes(r.maxFeePerGas, fee.value);
    assert data.Some? ==> Signer.CallData(r.data, data.value);
  }

  /**
   * At quorum the signer refuses exactly a malformed fee, malformed call data, or what cryptography or
   * the encoder refuses: its quorum, key-material and value_wei refusals are unreachable.
   */
  lemma SignerRefusesIff(cfg: Config, steps: seq<Step>, c: Call, salt: int)
    requires var s := At(cfg, steps); c in s.active && s.active[c].Quorum?
    ensures var s := At(cfg, steps); var p := s.active[c].snapshot;
      Signer.Sign(cfg, s.world.records, p, salt).Err? <==> cfg.refuses(p.raw) || Malformed(p.chain, p.request)
  {
    hide AllInv, Do, Signer.Sign, Malformed, Signer.Unsignable;
    RunOK(cfg, steps);
    var s := At(cfg, steps);
    QuorumSigns(cfg, s, c, salt);
    SnapshotsAreBehind(cfg, steps, c);
    UnsignableIff(cfg, s, s.active[c].snapshot.id);
  }

  /** At quorum only the payload decides whether a signature is made. */
  lemma QuorumSigns(cfg: Config, s: System, c: Call, salt: int)
    requires AllInv(cfg, s) && c in s.active && s.active[c].Quorum?
    ensures var p := s.active[c].snapshot;
      Signer.Sign(cfg, s.world.records, p, salt).Err? <==> Signer.Unsignable(cfg, p.chain, p.raw)
  {
    hide PendingOK, RecordOK, LedgerInv, AuditTrail.TrailInv, IsId, SignersOK, RowOK, HistoryOK, SignedOver, RawOK, Signer.Sign, Signer.Unsignable;
    var p := s.active[c].snapshot;
    assert FlowOK(s, s.active[c]);
    assert ProposalOK(cfg, s, Rows(s)[p.id]);
    assert WalletOK(cfg, s, Wallets(s)[p.walletID]);
    Signer.SignDecides(cfg, s.world.records, p, salt);
  }

  lemma UnsignableIff(cfg: Config, s: System, id: string)
    requires AllInv(cfg, s) && id in Rows(s)
    ensures var p := Rows(s)[id];
      Signer.Unsignable(cfg, p.chain, p.raw) <==> cfg.refuses(p.raw) || Malformed(p.chain, p.request)
  {
    hide PendingOK, RecordOK, LedgerInv, AuditTrail.TrailInv, IsId, SignersOK, ParseDecimal, Signer.DecodeHex, RowOK, HistoryOK, SignedOver, FlowOK;
    assert ProposalOK(cfg, s, Rows(s)[id]);
    MalformedIff(Rows(s)[id].chain, Rows(s)[id].request);
    hide Malformed;
  }

  // ----- nonces

  /** The counter counts: every nonce handed out for an address is stored, in flight or discarded. */
  lemma NoncesConserved(cfg: Config, steps: seq<Step>, a: string)
    ensures var s := At(cfg, steps); var n := Builds(s.ledger, a);
      && |StoredFrom(s, a)| + |InFlightFrom(s, a)| + |DiscardedFrom(s.ledger, a)| == n
      && Counter(s.world.nonces, a) == n % TWO_64
  {
    hide Inv, CreationInv, LedgerInv, AuditTrail.TrailInv, StoredFrom, InFlightFrom, DiscardedFrom, Do;
    RunOK(cfg, steps);
    Conserved(At(cfg, steps), a);
  }

  /**
   * The nonces handed out for an address, discarded ones included, are 0, 1, 2 and so on modulo 2^64;
   * two of them coincide if and only if there were more than 2^64.
   */
  lemma NoncesHandedOut(cfg: Config, steps: seq<Step>, a: string)
    ensures var h := Handed(At(cfg, steps).ledger, a);
      && (forall k :: 0 <= k < |h| ==> h[k] == k % 18446744073709551616)
      && ((exists j, k :: 0 <= j < k < |h| && h[j] == h[k]) <==> |h| > 18446744073709551616)
  {
    hide Inv, CreationInv, AuditTrail.TrailInv, Do;
    RunOK(cfg, steps);
    var s := At(cfg, steps);
    assert HandedOK(s.ledger, a);
    hide LedgerInv;
    RepeatsIff(s, a);
  }

  /** Proposals paying from one address, also of different wallets, have different nonces, below the counter. */
  lemma NoncesDistinct(cfg: Config, steps: seq<Step>, i: string, j: string)
    requires var s := At(cfg, steps);
      && i in Rows(s) && j in Rows(s) && i != j
      && Rows(s)[i].raw.EvmPayload? && Rows(s)[j].raw.EvmPayload? && Rows(s)[i].raw.from == Rows(s)[j].raw.from
      && Builds(s.ledger, Rows(s)[i].raw.from) <= TWO_64
    ensures var s := At(cfg, steps);
      && Rows(s)[i].raw.nonce != Rows(s)[j].raw.nonce
      && Rows(s)[i].raw.nonce < Builds(s.ledger, Rows(s)[i].raw.from)
  {
    hide Inv, CreationInv, LedgerInv, AuditTrail.TrailInv, Do;
    RunOK(cfg, steps);
    DistinctNonces(At(cfg, steps), i, j);
  }
}
