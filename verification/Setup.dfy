/** What a deployment fixes: registered adapters, policy, keys and the hash-like functions left abstract. */
module Setup {
  import opened Types
  import opened Amounts

  datatype Config = Config(
    bitcoin: bool, evm: bool,           // which adapters the registry holds
    allowedSigners: set<string>,        // empty: every signer
    maxSats: int,                       // zero or less: no cap
    maxWei: Option<int>,                // None: no cap
    network: string, chainID: nat,
    devKey: Option<Key>,                // WithEVMPrivateKey
    address: (Chain, Key) -> string,    // addressFor
    publicKey: (Chain, Key) -> string,  // encodePublicKey
    refuses: Payload -> bool,           // payloads that cryptography or the transaction encoder refuses
    hash: (Chain, SignedTx) -> string,  // the hash of a submitted transaction
    node: bool)                         // the EVM adapter submits to a node, which may refuse

  /** `ChainRegistry.Get`. */
  predicate Registered(cfg: Config, chain: Chain) {
    (chain == BITCOIN && cfg.bitcoin) || (chain == EVM && cfg.evm)
  }

  /** The adapter of this chain may refuse a signed transaction although the context is live. */
  predicate Refusable(cfg: Config, chain: Chain) { chain == EVM && cfg.node }

  predicate SignerAllowed(cfg: Config, signer: string) {
    cfg.allowedSigners == {} || signer in cfg.allowedSigners
  }

  /** `validateAmountPolicy` returns nil. */
  predicate AmountAllowed(cfg: Config, chain: Chain, amount: string) {
    if chain == BITCOIN then
      match ParseInt64(amount)
      case None => false
      case Some(v) => v > 0 && (cfg.maxSats > 0 ==> v <= cfg.maxSats)
    else if chain == EVM then
      match ParseDecimal(amount)
      case None => false
      case Some(v) => v > 0 && (cfg.maxWei.Some? ==> v <= cfg.maxWei.value)
    else true
  }
}
