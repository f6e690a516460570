/** The custody service's domain records (internal/wallet/types.go). */
module Types {

  datatype Option<+T> = None | Some(value: T)

  datatype Result<+T, +E> = Ok(value: T) | Err(error: E)

  type Chain = string
  const BITCOIN: Chain := "bitcoin"
  const EVM: Chain := "evm"

  /** Instants and private keys are opaque; only their order or identity matters. */
  type Time = int
  type Key = int

  datatype Status = Proposed | Signed | Broadcast | Failed

  /** The lifecycle order: Broadcast and Failed are both terminal. */
  function Rank(s: Status): nat {
    match s
    case Proposed => 0
    case Signed => 1
    case Broadcast => 2
    case Failed => 2
  }

  datatype Wallet = Wallet(id: string, chain: Chain, address: string, publicKey: string, createdAt: Time)

  datatype UTXO = UTXO(txID: string, vout: nat, amountSats: int, scriptPubKey: string)

  datatype Request = Request(
    walletID: string, to: string, amount: string,
    feeRateSats: int, gasLimit: nat, maxFeePerGas: string, data: string, utxos: seq<UTXO>)

  datatype Approval = Approval(signerID: string, createdAt: Time)

  /** The unsigned payload an adapter builds, before it is printed as JSON. */
  datatype Payload =
    | EvmPayload(
        chainID: nat, from: string, to: string, valueWei: string, nonce: nat,
        gasLimit: nat, maxFeePerGas: string, maxPriorityFeePerGas: string, data: string)
    | BitcoinPayload(
        network: string, from: string, to: string, amountSats: int, feeRateSats: int, utxos: seq<UTXO>)

  /**
   * The text kept in `SignedTransaction`, as what it encodes: `Unsigned` is the empty
   * string, `RawEvm` the signed EIP-1559 transaction, `Envelope` the generic signature
   * envelope (whose `salt` stands for the signer's randomness and clock).
   */
  datatype SignedTx =
    | Unsigned
    | RawEvm(key: Key, chainID: nat, nonce: nat, tipCap: int, feeCap: int, gas: nat,
             to: string, value: int, data: seq<nat>)
    | Envelope(key: Key, walletID: string, chain: Chain, raw: Payload, salt: int)

  datatype Proposal = Proposal(
    id: string, walletID: string, chain: Chain, status: Status,
    request: Request, raw: Payload, approvals: map<string, Approval>,
    signed: SignedTx, hash: string, error: string, trace: map<string, string>,
    createdAt: Time, updatedAt: Time)

  datatype EventKind =
    | WalletCreated | TransactionProposed | TransactionApproved
    | TransactionSigned | TransactionBroadcast | TransactionFailed

  datatype AuditEvent = AuditEvent(kind: EventKind, actor: string, resourceID: string, chain: Chain, createdAt: Time)

  datatype IdempotencyRecord = IdempotencyRecord(
    scope: string, key: string, resourceType: string, resourceID: string, createdAt: Time)

  datatype Error =
    | UnsupportedChain | DuplicateApproval | TransactionNotSigned | TransactionNotProposed
    | UnauthorizedSigner | PolicyViolation | SignerRequired
    | WalletNotFound | TransactionNotFound | DuplicateWallet | DuplicateTransaction
    | ContextDone | Other(message: string)

  /** Every entry of `small` is also an entry of `big`. */
  ghost predicate Submap<K(!new), V>(small: map<K, V>, big: map<K, V>) {
    forall k :: k in small ==> k in big && big[k] == small[k]
  }

  /** The fields of a proposal that are fixed when it is built. */
  ghost predicate SameIdentity(p: Proposal, q: Proposal) {
    && p.id == q.id && p.walletID == q.walletID && p.chain == q.chain
    && p.request == q.request && p.raw == q.raw && p.createdAt == q.createdAt
    && p.trace == q.trace
  }
}
