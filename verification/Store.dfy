/**
 * The store operations as functions of the stored data. `MemoryStore` (module MemoryStores) and
 * `PostgresStore` (module PostgresStores) are proved against them; the step system runs on them.
 */
module StoreSpec {
  import opened Types

  datatype Store = Store(
    wallets: map<string, Wallet>,
    transactions: map<string, Proposal>,
    idempotency: map<string, IdempotencyRecord>,
    audit: seq<AuditEvent>)

  const EMPTY := Store(map[], map[], map[], [])

  function IdempotencyKey(scope: string, key: string): string {
    scope + "\0" + key
  }

  /** What an idempotent create returns beside an error: the resource, and whether it was created. */
  datatype Created<+T> = Created(resource: T, isNew: bool)

  function CreateWallet(s: Store, w: Wallet): (Store, Result<Wallet, Error>) {
    if w.id in s.wallets then (s, Err(DuplicateWallet))
    else (s.(wallets := s.wallets[w.id := w]), Ok(w))
  }

  function CreateWalletOnce(s: Store, w: Wallet, r: IdempotencyRecord): (Store, Result<Created<Wallet>, Error>) {
    var key := IdempotencyKey(r.scope, r.key);
    if key in s.idempotency then
      var id := s.idempotency[key].resourceID;
      if id in s.wallets then (s, Ok(Created(s.wallets[id], false))) else (s, Err(WalletNotFound))
    else if w.id in s.wallets then (s, Err(DuplicateWallet))
    else (s.(wallets := s.wallets[w.id := w], idempotency := s.idempotency[key := r]), Ok(Created(w, true)))
  }

  function CreateTransaction(s: Store, p: Proposal): (Store, Result<Proposal, Error>) {
    if p.id in s.transactions then (s, Err(DuplicateTransaction))
    else (s.(transactions := s.transactions[p.id := p]), Ok(p))
  }

  function CreateTransactionOnce(s: Store, p: Proposal, r: IdempotencyRecord): (Store, Result<Created<Proposal>, Error>) {
    var key := IdempotencyKey(r.scope, r.key);
    if key in s.idempotency then
      var id := s.idempotency[key].resourceID;
      if id in s.transactions then (s, Ok(Created(s.transactions[id], false))) else (s, Err(TransactionNotFound))
    else if p.id in s.transactions then (s, Err(DuplicateTransaction))
    else (s.(transactions := s.transactions[p.id := p], idempotency := s.idempotency[key := r]), Ok(Created(p, true)))
  }

  function GetTransaction(s: Store, id: string): Result<Proposal, Error> {
    if id in s.transactions then Ok(s.transactions[id]) else Err(TransactionNotFound)
  }

  function UpdateTransaction(s: Store, p: Proposal): (Store, Result<(), Error>) {
    if p.id !in s.transactions then (s, Err(TransactionNotFound))
    else (s.(transactions := s.transactions[p.id := p]), Ok(()))
  }

  function Approve(p: Proposal, a: Approval): Proposal {
    p.(approvals := p.approvals[a.signerID := a], updatedAt := a.createdAt)
  }

  function AddApproval(s: Store, id: string, a: Approval): (Store, Result<Proposal, Error>) {
    if id !in s.transactions then (s, Err(TransactionNotFound))
    else
      var p := s.transactions[id];
      if p.status != Proposed then (s, Err(TransactionNotProposed))
      else if a.signerID in p.approvals then (s, Err(DuplicateApproval))
      else (s.(transactions := s.transactions[id := Approve(p, a)]), Ok(Approve(p, a)))
  }

  /** `t` is the later of `base` and every approval time. */
  ghost predicate IsLatest(t: Time, base: Time, approvals: map<string, Approval>) {
    && base <= t
    && (forall k :: k in approvals ==> approvals[k].createdAt <= t)
    && (t == base || exists k :: k in approvals && approvals[k].createdAt == t)
  }

  lemma {:induction false} LatestExists(base: Time, approvals: map<string, Approval>) returns (t: Time)
    ensures IsLatest(t, base, approvals)
    decreases |approvals|
  {
    if approvals == map[] {
      t := base;
    } else {
      var k :| k in approvals;
      var rest := approvals - {k};
      assert rest.Keys == approvals.Keys - {k};
      var t0 := LatestExists(base, rest);
      t := if t0 < approvals[k].createdAt then approvals[k].createdAt else t0;
      assert forall j :: j in rest ==> j in approvals && approvals[j] == rest[j];
      assert forall j :: j in approvals ==> j == k || j in rest;
    }
  }

  ghost function Latest(base: Time, approvals: map<string, Approval>): (t: Time)
    ensures IsLatest(t, base, approvals)
  {
    assert exists w :: IsLatest(w, base, approvals) by { var w := LatestExists(base, approvals); }
    var w :| IsLatest(w, base, approvals);
    w
  }

  /**
   * `stamp` is the clock reading Postgres writes into `UpdatedAt`; the memory store has none and
   * takes the latest approval time instead.
   */
  ghost function Seal(p: Proposal, signed: SignedTx, stamp: Option<Time>): Proposal {
    p.(status := Signed, signed := signed,
       updatedAt := if stamp.Some? then stamp.value else Latest(p.updatedAt, p.approvals))
  }

  ghost function MarkSigned(s: Store, id: string, signed: SignedTx, stamp: Option<Time>): (Store, Result<(Proposal, bool), Error>) {
    if id !in s.transactions then (s, Err(TransactionNotFound))
    else
      var p := s.transactions[id];
      if p.status != Proposed then (s, Ok((p, false)))
      else (s.(transactions := s.transactions[id := Seal(p, signed, stamp)]), Ok((Seal(p, signed, stamp), true)))
  }

  function Append(s: Store, e: AuditEvent): Store {
    s.(audit := s.audit + [e])
  }
}
