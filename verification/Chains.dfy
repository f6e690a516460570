/** The chain adapters' payload builders, without RPC (internal/chains/evm, internal/chains/bitcoin). */
module Chains {
  import opened Types
  import opened Amounts
  import opened Setup

  const TWO_64: nat := 0x1_0000_0000_0000_0000

  function Counter(nonces: map<string, nat>, address: string): nat {
    if address in nonces then nonces[address] else 0
  }

  /** `nextNonce`: the counter is a uint64 and wraps. */
  function Bump(nonces: map<string, nat>, address: string): map<string, nat> {
    nonces[address := (Counter(nonces, address) + 1) % TWO_64]
  }

  function EvmGuard(r: Request): Option<string> {
    if r.to == "" then Some("evm destination address is required")
    else if r.amount == "" then Some("evm amount is required")
    else if ParseDecimal(r.amount).None? || ParseDecimal(r.amount).value <= 0 then
      Some("evm amount must be a positive base-10 wei value")
    else if r.gasLimit == 0 then Some("evm gas_limit must be positive")
    else if r.maxFeePerGas == "" then Some("evm max_fee_per_gas is required")
    else None
  }

  function BitcoinGuard(r: Request): Option<string> {
    if r.to == "" then Some("bitcoin destination address is required")
    else if r.amount == "" then Some("bitcoin amount is required")
    else if ParseInt64(r.amount).None? || ParseInt64(r.amount).value <= 0 then
      Some("bitcoin amount must be positive base-10 sats")
    else if r.utxos == [] then Some("bitcoin proposal requires at least one utxo")
    else if r.feeRateSats <= 0 then Some("bitcoin fee_rate_sats must be positive")
    else None
  }

  function EvmRaw(cfg: Config, source: Wallet, r: Request, nonce: nat): Payload {
    EvmPayload(cfg.chainID, source.address, r.to, r.amount, nonce,
               r.gasLimit, r.maxFeePerGas, r.maxFeePerGas, r.data)
  }

  function BitcoinRaw(cfg: Config, source: Wallet, r: Request): Payload
    requires ParseInt64(r.amount).Some?
  {
    BitcoinPayload(cfg.network, source.address, r.to, ParseInt64(r.amount).value, r.feeRateSats, r.utxos)
  }

  /** `BuildTransaction` of the adapter registered for the wallet's chain. */
  function Build(cfg: Config, nonces: map<string, nat>, source: Wallet, r: Request)
    : (map<string, nat>, Result<Payload, string>)
  {
    if source.chain == EVM then
      match EvmGuard(r)
      case Some(e) => (nonces, Err(e))
      case None =>
        (Bump(nonces, source.address), Ok(EvmRaw(cfg, source, r, Counter(nonces, source.address))))
    else
      match BitcoinGuard(r)
      case Some(e) => (nonces, Err(e))
      case None => (nonces, Ok(BitcoinRaw(cfg, source, r)))
  }

  /**
   * `Broadcast` of the chain's adapter, for a text that is not empty and a live context: only a node
   * can refuse; otherwise the answer is the hash.
   */
  function Send(cfg: Config, p: Proposal, refusal: Option<string>): Result<string, string> {
    if refusal.Some? && Refusable(cfg, p.chain) then Err(refusal.value) else Ok(cfg.hash(p.chain, p.signed))
  }

  /** `Broadcast` of either adapter; `refusal` is what the node, if there is one, objects. */
  method Broadcast(cfg: Config, p: Proposal, refusal: Option<string>, live: bool) returns (out: Result<string, Error>)
    ensures !live ==> out == Err(ContextDone)
    ensures live && p.signed == Unsigned ==> out == Err(Other("signed transaction is required"))
    ensures live && p.signed != Unsigned ==>
      match Send(cfg, p, refusal) case Ok(hash) => out == Ok(hash) case Err(e) => out == Err(Other(e))
  {
    if !live { return Err(ContextDone); }
    if p.signed == Unsigned { return Err(Other("signed transaction is required")); }
    if p.chain == EVM && cfg.node && refusal.Some? { return Err(Other(refusal.value)); }
    out := Ok(cfg.hash(p.chain, p.signed));
  }

  /** The Bitcoin adapter's guards, one by one, and its literal payload. */
  method BuildBitcoin(cfg: Config, source: Wallet, r: Request) returns (out: Result<Payload, string>)
    requires source.chain == BITCOIN
    ensures forall nonces :: Build(cfg, nonces, source, r) == (nonces, out)
  {
    if r.to == "" { return Err("bitcoin destination address is required"); }
    if r.amount == "" { return Err("bitcoin amount is required"); }
    var amount := ParseInt64(r.amount);
    if amount.None? || amount.value <= 0 { return Err("bitcoin amount must be positive base-10 sats"); }
    if |r.utxos| == 0 { return Err("bitcoin proposal requires at least one utxo"); }
    if r.feeRateSats <= 0 { return Err("bitcoin fee_rate_sats must be positive"); }
    out := Ok(BitcoinPayload(cfg.network, source.address, r.to, amount.value, r.feeRateSats, r.utxos));
  }

  lemma GuardsReadAmounts(r: Request)
    ensures EvmGuard(r).None? <==>
      r.to != "" && r.gasLimit > 0 && r.maxFeePerGas != "" && exists n :: Denotes(r.amount, n) && n > 0
    ensures BitcoinGuard(r).None? <==>
      r.to != "" && r.utxos != [] && r.feeRateSats > 0 && exists n :: Denotes(r.amount, n) && 0 < n <= MAX_INT64
  {
    forall n ensures ParseDecimal(r.amount) == Some(n) <==> Denotes(r.amount, n) { ParseDenotes(r.amount, n); }
    assert ParseDecimal("") == None;
    hide ParseDecimal, Denotes;
    if EvmGuard(r).None? || BitcoinGuard(r).None? { assert Denotes(r.amount, ParseDecimal(r.amount).value); }
  }

  /** An EVM request is built exactly when its fields are usable, and then the counter moves by one. */
  lemma EvmAcceptsIff(cfg: Config, nonces: map<string, nat>, source: Wallet, r: Request)
    requires source.chain == EVM
    ensures var (after, out) := Build(cfg, nonces, source, r);
      && (out.Ok? <==> r.to != "" && r.gasLimit > 0 && r.maxFeePerGas != "" && exists n :: Denotes(r.amount, n) && n > 0)
      && (out.Ok? ==> out.value == EvmPayload(cfg.chainID, source.address, r.to, r.amount, Counter(nonces, source.address),
                                              r.gasLimit, r.maxFeePerGas, r.maxFeePerGas, r.data))
      && (if out.Ok? then Counter(after, source.address) == (Counter(nonces, source.address) + 1) % TWO_64 else after == nonces)
      && (forall a :: a != source.address ==> Counter(after, a) == Counter(nonces, a))
  {
    GuardsReadAmounts(r);
    hide EvmGuard, BitcoinGuard, Denotes;
  }

  /** A Bitcoin request is built exactly when its fields are usable, and takes no nonce. */
  lemma BitcoinAcceptsIff(cfg: Config, nonces: map<string, nat>, source: Wallet, r: Request)
    requires source.chain == BITCOIN
    ensures var (after, out) := Build(cfg, nonces, source, r);
      && after == nonces
      && (out.Ok? <==> r.to != "" && r.utxos != [] && r.feeRateSats > 0
                       && exists n :: Denotes(r.amount, n) && 0 < n <= MAX_INT64)
      && (out.Ok? ==> out.value.BitcoinPayload? && Denotes(r.amount, out.value.amountSats)
                      && out.value == BitcoinPayload(cfg.network, source.address, r.to, out.value.amountSats, r.feeRateSats, r.utxos))
  {
    GuardsReadAmounts(r);
    if ParseDecimal(r.amount).Some? { ParseDenotes(r.amount, ParseDecimal(r.amount).value); }
    assert BITCOIN != EVM;
    hide EvmGuard, Denotes;
  }

  /** The in-memory part of the EVM adapter. */
  class EvmAdapter {
    var nonces: map<string, nat>

    constructor ()
      ensures nonces == map[]
    {
      nonces := map[];
    }

    method NextNonce(address: string) returns (nonce: nat)
      modifies this
      ensures nonce == Counter(old(nonces), address)
      ensures nonces == Bump(old(nonces), address)
    {
      nonce := if address in nonces then nonces[address] else 0;
      nonces := nonces[address := (nonce + 1) % TWO_64];
    }

    method BuildTransaction(cfg: Config, source: Wallet, r: Request) returns (out: Result<Payload, string>)
      requires source.chain == EVM
      modifies this
      ensures (nonces, out) == Build(cfg, old(nonces), source, r)
    {
      if r.to == "" { return Err("evm destination address is required"); }
      if r.amount == "" { return Err("evm amount is required"); }
      var value := ParseDecimal(r.amount);
      if value.None? || value.value <= 0 { return Err("evm amount must be a positive base-10 wei value"); }
      var payload := EvmPayload(cfg.chainID, source.address, r.to, r.amount, 0, 0, "", "", r.data);
      if r.gasLimit == 0 { return Err("evm gas_limit must be positive"); }
      if r.maxFeePerGas == "" { return Err("evm max_fee_per_gas is required"); }
      var nonce := NextNonce(source.address);
      payload := payload.(nonce := nonce, gasLimit := r.gasLimit);
      payload := payload.(maxFeePerGas := r.maxFeePerGas, maxPriorityFeePerGas := r.maxFeePerGas);
      out := Ok(payload);
    }
  }
}
