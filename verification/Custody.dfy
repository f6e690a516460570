/**
 * The service as a step system: one shared world and any number of in-flight calls, each with a
 * program counter and the possibly stale values it holds (internal/wallet/service.go). A step is
 * one atomic access to the store, the signer or a chain adapter, together with the local code up
 * to the next one. Everything the environment decides (ids, clocks, keys, cancelled contexts,
 * a node's refusals, the schedule) is a step label, so a run is any list of steps; a
 * label that fits no in-flight call leaves the system as it is.
 */
module Custody {
  import opened Types
  import opened Setup
  import opened StoreSpec
  import opened Chains
  import Signer = Signing

  type Call = nat

  datatype World = World(store: Store, records: map<string, Signer.KeyRecord>, nonces: map<string, nat>)

  /** In-flight CreateWallet and ProposeTransaction calls, named by what has been done. */
  datatype Creation =
    | WalletKeyed(wallet: Wallet, key: string)
    | WalletStored(wallet: Wallet)
    | RequestLoaded(source: Wallet, request: Request, key: string)
    | RequestBuilt(source: Wallet, request: Request, raw: Payload, key: string, slot: nat)
    | ProposalStored(proposal: Proposal)

  /** In-flight CoSign and Broadcast calls; `snapshot` is the call's local proposal. */
  datatype Flow =
    | Approved(snapshot: Proposal, signer: string)
    | Quorum(snapshot: Proposal)
    | Enveloped(snapshot: Proposal, signed: SignedTx)
    | Marked(snapshot: Proposal)
    | Loaded(snapshot: Proposal)
    | Submitted(snapshot: Proposal, hash: string)
    | Recorded(snapshot: Proposal)
    | Broken(snapshot: Proposal, cause: string)
    | Failing(snapshot: Proposal)

  /** Where the nonce handed out by one EVM build ended up. */
  datatype Owner = InFlight(call: Call) | Stored(id: string) | Discarded

  /** Per address, the nonces handed out, and the fate of each by its running number. */
  datatype Ledger = Ledger(handed: map<string, seq<nat>>, owners: map<(string, nat), Owner>, slots: map<string, nat>)

  /**
   * The first three fields are the system; the rest is history, never read by a step:
   * `granted` the successful approvals, `winners` the payloads stored by winning
   * MarkTransactionSigned calls, `grantee` and `marker` the calls that achieved them.
   */
  datatype System = System(
    world: World,
    pending: map<Call, Creation>,
    active: map<Call, Flow>,
    granted: map<string, map<string, Approval>>,
    winners: map<string, SignedTx>,
    grantee: map<(string, string), Call>,
    marker: map<string, Call>,
    ledger: Ledger)

  const INIT := System(
    World(EMPTY, map[], map[]), map[], map[], map[], map[], map[], map[], Ledger(map[], map[], map[]))

  datatype Step =
    // CreateWallet
    | KeyWallet(c: Call, id: string, chain: Chain, key: string, generated: Key, now: Time)
    | StoreWallet(c: Call, now: Time, live: bool)
    // ProposeTransaction
    | LoadRequest(c: Call, request: Request, key: string, live: bool)
    | BuildRaw(c: Call, live: bool)
    | StoreProposal(c: Call, id: string, trace: map<string, string>, now: Time, live: bool)
    | AuditCreation(c: Call, now: Time, live: bool)
    // CoSign
    | GrantApproval(c: Call, tx: string, signer: string, now: Time, live: bool)
    | AuditApproval(c: Call, now: Time, live: bool)
    | SignQuorum(c: Call, salt: int, live: bool)
    | Mark(c: Call, stamp: Option<Time>, live: bool)
    | AuditSigned(c: Call, now: Time, live: bool)
    // Broadcast
    | Load(c: Call, tx: string, live: bool)
    | Submit(c: Call, refusal: Option<string>, live: bool)
    | RecordBroadcast(c: Call, now: Time, live: bool)
    | AuditBroadcast(c: Call, now: Time, live: bool)
    // failTransaction and its audit event, in either call
    | RecordFailure(c: Call, now: Time, live: bool)
    | AuditFailure(c: Call, now: Time, live: bool)

  /** `ids.New(prefix)`: sixteen random bytes in hexadecimal. */
  predicate IsId(prefix: string, id: string) {
    && |id| == |prefix| + 33 && prefix + "_" <= id
    && forall i :: |prefix| < i < |id| ==> '0' <= id[i] <= '9' || 'a' <= id[i] <= 'f'
  }

  function WalletScope(chain: Chain): string { "wallet:" + chain }

  function TransactionScope(walletID: string): string { "transaction:" + walletID }

  function WalletRecord(w: Wallet, key: string, now: Time): IdempotencyRecord {
    IdempotencyRecord(WalletScope(w.chain), key, "wallet", w.id, now)
  }

  function ProposalRecord(p: Proposal, key: string, now: Time): IdempotencyRecord {
    IdempotencyRecord(TransactionScope(p.request.walletID), key, "transaction", p.id, now)
  }

  function NewProposal(id: string, source: Wallet, r: Request, raw: Payload, trace: map<string, string>, now: Time): Proposal {
    Proposal(id, source.id, source.chain, Proposed, r, raw, map[], Unsigned, "", "", trace, now, now)
  }

  function Event(kind: EventKind, actor: string, p: Proposal, now: Time): AuditEvent {
    AuditEvent(kind, actor, p.id, p.chain, now)
  }

  function AsBroadcast(p: Proposal, hash: string, now: Time): Proposal {
    p.(status := Broadcast, hash := hash, updatedAt := now)
  }

  function AsFailed(p: Proposal, cause: string, now: Time): Proposal {
    p.(status := Failed, error := cause, updatedAt := now)
  }

  function WithStore(s: System, store: Store): System {
    s.(world := s.world.(store := store))
  }

  function EndCreation(s: System, c: Call): System { s.(pending := s.pending - {c}) }

  function EndSigning(s: System, c: Call): System { s.(active := s.active - {c}) }

  /** Appends an audit event when the context is still live. */
  function Log(s: System, e: AuditEvent, live: bool): System {
    if live then WithStore(s, Append(s.world.store, e)) else s
  }

  // ----- creation steps

  function DoKeyWallet(cfg: Config, s: System, c: Call, id: string, chain: Chain, key: string, generated: Key, now: Time): System {
    if c in s.pending || !Registered(cfg, chain) || !IsId("wlt", id) || id in s.world.records then s
    else
      var r := Signer.RecordFor(cfg, chain, generated);
      s.(world := s.world.(records := s.world.records[id := r]),
         pending := s.pending[c := WalletKeyed(Wallet(id, chain, r.address, r.publicKey, now), key)])
  }

  /** The create call stores the new wallet, rather than failing or finding an earlier one. */
  predicate StoresWallet(s: System, w: Wallet, key: string, live: bool) {
    && live && w.id !in s.world.store.wallets
    && (key != "" ==> IdempotencyKey(WalletScope(w.chain), key) !in s.world.store.idempotency)
  }

  function DoStoreWallet(s: System, c: Call, w: Wallet, key: string, now: Time, live: bool): System {
    if !StoresWallet(s, w, key, live) then EndCreation(s, c)
    else
      var store := if key == "" then CreateWallet(s.world.store, w).0
                   else CreateWalletOnce(s.world.store, w, WalletRecord(w, key, now)).0;
      WithStore(s, store).(pending := s.pending[c := WalletStored(w)])
  }

  function DoLoadRequest(cfg: Config, s: System, c: Call, r: Request, key: string, live: bool): System {
    if c in s.pending || !live || r.walletID !in s.world.store.wallets then s
    else
      var source := s.world.store.wallets[r.walletID];
      if AmountAllowed(cfg, source.chain, r.amount) && Registered(cfg, source.chain) then
        s.(pending := s.pending[c := RequestLoaded(source, r, key)])
      else s
  }

  /** The nonces handed out for an address, in order. */
  function Handed(l: Ledger, address: string): seq<nat> {
    if address in l.handed then l.handed[address] else []
  }

  function Builds(l: Ledger, address: string): nat { |Handed(l, address)| }

  function Issue(l: Ledger, raw: Payload, c: Call): Ledger {
    if raw.EvmPayload? then
      var k := Builds(l, raw.from);
      l.(handed := l.handed[raw.from := Handed(l, raw.from) + [raw.nonce]], owners := l.owners[(raw.from, k) := InFlight(c)])
    else l
  }

  function Settle(l: Ledger, raw: Payload, slot: nat, owner: Owner): Ledger {
    if raw.EvmPayload? then l.(owners := l.owners[(raw.from, slot) := owner]) else l
  }

  function DoBuildRaw(cfg: Config, s: System, c: Call, source: Wallet, r: Request, key: string, live: bool): System {
    if !live then EndCreation(s, c)
    else
      var (nonces, out) := Build(cfg, s.world.nonces, source, r);
      match out
      case Err(_) => EndCreation(s, c)
      case Ok(raw) =>
        s.(world := s.world.(nonces := nonces),
           pending := s.pending[c := RequestBuilt(source, r, raw, key, if raw.EvmPayload? then Builds(s.ledger, raw.from) else 0)],
           ledger := Issue(s.ledger, raw, c))
  }

  function Discard(s: System, c: Call, raw: Payload, slot: nat): System {
    EndCreation(s, c).(ledger := Settle(s.ledger, raw, slot, Discarded))
  }

  function Keep(s: System, c: Call, store: Store, p: Proposal, slot: nat): System {
    WithStore(s, store).(
      pending := s.pending[c := ProposalStored(p)],
      granted := s.granted[p.id := map[]],
      ledger := Settle(s.ledger, p.raw, slot, Stored(p.id)).(slots := s.ledger.slots[p.id := slot]))
  }

  /** The create call stores the new proposal, rather than failing or finding an earlier one. */
  predicate Stores(s: System, b: Creation, id: string, live: bool)
    requires b.RequestBuilt?
  {
    && live && id !in s.world.store.transactions
    && (b.key != "" ==> IdempotencyKey(TransactionScope(b.request.walletID), b.key) !in s.world.store.idempotency)
  }

  function DoStoreProposal(s: System, c: Call, b: Creation, id: string, trace: map<string, string>, now: Time, live: bool): System
    requires b.RequestBuilt?
  {
    var p := NewProposal(id, b.source, b.request, b.raw, trace, now);
    if !Stores(s, b, id, live) then Discard(s, c, b.raw, b.slot)
    else
      var store := if b.key == "" then CreateTransaction(s.world.store, p).0
                   else CreateTransactionOnce(s.world.store, p, ProposalRecord(p, b.key, now)).0;
      Keep(s, c, store, p, b.slot)
  }

  // ----- CoSign

  function GrantedTo(s: System, tx: string): map<string, Approval> {
    if tx in s.granted then s.granted[tx] else map[]
  }

  /** The call passes its checks and AddApproval succeeds. */
  predicate Grants(cfg: Config, s: System, c: Call, tx: string, signer: string, now: Time, live: bool) {
    && c !in s.active && live && signer != "" && SignerAllowed(cfg, signer)
    && AddApproval(s.world.store, tx, Approval(signer, now)).1.Ok?
  }

  function DoApproval(cfg: Config, s: System, c: Call, tx: string, signer: string, now: Time, live: bool): System {
    if !Grants(cfg, s, c, tx, signer, now, live) then s
    else
      var a := Approval(signer, now);
      var (store, out) := AddApproval(s.world.store, tx, a);
      WithStore(s, store).(
        active := s.active[c := Approved(out.value, signer)],
        granted := s.granted[tx := GrantedTo(s, tx)[signer := a]],
        grantee := s.grantee[(tx, signer) := c])
  }

  function DoAuditApproval(s: System, c: Call, p: Proposal, signer: string, now: Time, live: bool): System {
    if !live then EndSigning(s, c)
    else
      var s1 := Log(s, Event(TransactionApproved, signer, p, now), live);
      if p.status == Proposed && |p.approvals| >= 2 then s1.(active := s.active[c := Quorum(p)])
      else EndSigning(s1, c)
  }

  /** On a dead context failTransaction and its audit event do nothing either, and the call ends. */
  function DoSign(cfg: Config, s: System, c: Call, p: Proposal, salt: int, live: bool): System {
    if !live then EndSigning(s, c)
    else
      match Signer.Sign(cfg, s.world.records, p, salt)
      case Ok(signed) => s.(active := s.active[c := Enveloped(p, signed)])
      case Err(cause) => s.(active := s.active[c := Broken(p, cause)])
  }

  /** MarkTransactionSigned finds the row still Proposed. */
  predicate Wins(s: System, id: string, live: bool) {
    live && id in s.world.store.transactions && s.world.store.transactions[id].status.Proposed?
  }

  ghost function DoMark(s: System, c: Call, p: Proposal, signed: SignedTx, stamp: Option<Time>, live: bool): System {
    var (store, out) := MarkSigned(s.world.store, p.id, signed, stamp);
    if !Wins(s, p.id, live) then EndSigning(s, c)
    else
      WithStore(s, store).(
        active := s.active[c := Marked(out.value.0)],
        winners := s.winners[p.id := signed],
        marker := s.marker[p.id := c])
  }

  // ----- Broadcast

  /** GetTransaction finds a signed row of a chain with an adapter. */
  predicate Loads(cfg: Config, s: System, c: Call, tx: string, live: bool) {
    && c !in s.active && live && tx in s.world.store.transactions
    && var p := s.world.store.transactions[tx];
       p.status == Signed && p.signed != Unsigned && Registered(cfg, p.chain)
  }

  function DoLoad(cfg: Config, s: System, c: Call, tx: string, live: bool): System {
    if Loads(cfg, s, c, tx, live) then s.(active := s.active[c := Loaded(s.world.store.transactions[tx])]) else s
  }

  function DoSubmit(cfg: Config, s: System, c: Call, p: Proposal, refusal: Option<string>, live: bool): System {
    if !live then EndSigning(s, c)
    else
      match Send(cfg, p, refusal)
      case Ok(hash) => s.(active := s.active[c := Submitted(p, hash)])
      case Err(cause) => s.(active := s.active[c := Broken(p, cause)])
  }

  function DoRecordBroadcast(s: System, c: Call, p: Proposal, hash: string, now: Time, live: bool): System {
    var q := AsBroadcast(p, hash, now);
    var (store, out) := UpdateTransaction(s.world.store, q);
    if live && out.Ok? then WithStore(s, store).(active := s.active[c := Recorded(q)])
    else EndSigning(s, c)
  }

  /** The result of failTransaction's store write is ignored by its callers. */
  function DoRecordFailure(s: System, c: Call, p: Proposal, cause: string, now: Time, live: bool): System {
    var q := AsFailed(p, cause, now);
    var (store, _) := UpdateTransaction(s.world.store, q);
    (if live then WithStore(s, store) else s).(active := s.active[c := Failing(q)])
  }

  // ----- dispatch

  function DoCreation(cfg: Config, s: System, x: Step): System {
    match x
    case KeyWallet(c, id, chain, key, generated, now) => DoKeyWallet(cfg, s, c, id, chain, key, generated, now)
    case LoadRequest(c, r, key, live) => DoLoadRequest(cfg, s, c, r, key, live)
    case StoreWallet(c, now, live) =>
      if c in s.pending && s.pending[c].WalletKeyed? then
        DoStoreWallet(s, c, s.pending[c].wallet, s.pending[c].key, now, live)
      else s
    case BuildRaw(c, live) =>
      if c in s.pending && s.pending[c].RequestLoaded? then
        DoBuildRaw(cfg, s, c, s.pending[c].source, s.pending[c].request, s.pending[c].key, live)
      else s
    case StoreProposal(c, id, trace, now, live) =>
      if c in s.pending && s.pending[c].RequestBuilt? then
        DoStoreProposal(s, c, s.pending[c], id, trace, now, live)
      else s
    case AuditCreation(c, now, live) =>
      if c in s.pending && s.pending[c].WalletStored? then
        var w := s.pending[c].wallet;
        EndCreation(Log(s, AuditEvent(WalletCreated, "", w.id, w.chain, now), live), c)
      else if c in s.pending && s.pending[c].ProposalStored? then
        EndCreation(Log(s, Event(TransactionProposed, "", s.pending[c].proposal, now), live), c)
      else s
    case _ => s
  }

  ghost function DoCoSign(cfg: Config, s: System, x: Step): System {
    match x
    case GrantApproval(c, tx, signer, now, live) => DoApproval(cfg, s, c, tx, signer, now, live)
    case AuditApproval(c, now, live) =>
      if c in s.active && s.active[c].Approved? then
        DoAuditApproval(s, c, s.active[c].snapshot, s.active[c].signer, now, live)
      else s
    case SignQuorum(c, salt, live) =>
      if c in s.active && s.active[c].Quorum? then DoSign(cfg, s, c, s.active[c].snapshot, salt, live) else s
    case Mark(c, stamp, live) =>
      if c in s.active && s.active[c].Enveloped? then
        DoMark(s, c, s.active[c].snapshot, s.active[c].signed, stamp, live)
      else s
    case AuditSigned(c, now, live) =>
      if c in s.active && s.active[c].Marked? then
        EndSigning(Log(s, Event(TransactionSigned, "", s.active[c].snapshot, now), live), c)
      else s
    case _ => s
  }

  function DoBroadcast(cfg: Config, s: System, x: Step): System {
    match x
    case Load(c, tx, live) => DoLoad(cfg, s, c, tx, live)
    case Submit(c, refusal, live) =>
      if c in s.active && s.active[c].Loaded? then DoSubmit(cfg, s, c, s.active[c].snapshot, refusal, live) else s
    case RecordBroadcast(c, now, live) =>
      if c in s.active && s.active[c].Submitted? then
        DoRecordBroadcast(s, c, s.active[c].snapshot, s.active[c].hash, now, live)
      else s
    case AuditBroadcast(c, now, live) =>
      if c in s.active && s.active[c].Recorded? then
        EndSigning(Log(s, Event(TransactionBroadcast, "", s.active[c].snapshot, now), live), c)
      else s
    case RecordFailure(c, now, live) =>
      if c in s.active && s.active[c].Broken? then
        DoRecordFailure(s, c, s.active[c].snapshot, s.active[c].cause, now, live)
      else s
    case AuditFailure(c, now, live) =>
      if c in s.active && s.active[c].Failing? then
        EndSigning(Log(s, Event(TransactionFailed, "", s.active[c].snapshot, now), live), c)
      else s
    case _ => s
  }

  predicate IsCreation(x: Step) {
    x.KeyWallet? || x.StoreWallet? || x.LoadRequest? || x.BuildRaw? || x.StoreProposal? || x.AuditCreation?
  }

  predicate IsCoSign(x: Step) {
    x.GrantApproval? || x.AuditApproval? || x.SignQuorum? || x.Mark? || x.AuditSigned?
  }

  ghost function Do(cfg: Config, s: System, x: Step): System {
    if IsCreation(x) then DoCreation(cfg, s, x)
    else if IsCoSign(x) then DoCoSign(cfg, s, x)
    else DoBroadcast(cfg, s, x)
  }

  /** The state after a list of steps, in order. */
  ghost function Exec(cfg: Config, s: System, steps: seq<Step>): System {
    if steps == [] then s
    else Do(cfg, Exec(cfg, s, steps[..|steps| - 1]), steps[|steps| - 1])
  }

  lemma {:induction false} ExecConcat(cfg: Config, s: System, a: seq<Step>, b: seq<Step>)
    ensures Exec(cfg, s, a + b) == Exec(cfg, Exec(cfg, s, a), b)
    decreases |b|
  {
    if b == [] {
      assert a + b == a;
    } else {
      var n := |b| - 1;
      assert (a + b)[..|a + b| - 1] == a + b[..n];
      ExecConcat(cfg, s, a, b[..n]);
    }
  }
}
