/**
 * What the store operations promise (internal/store/memory.go), field by field and error by error:
 * which rows change, to what, and exactly when each error is returned.
 */
module StoreFacts {
  import opened Types
  import opened StoreSpec

  /** Nothing but row `id` differs. */
  ghost predicate OnlyRow(s: Store, t: Store, id: string) {
    && t.wallets == s.wallets && t.idempotency == s.idempotency && t.audit == s.audit
    && id in s.transactions && t.transactions.Keys == s.transactions.Keys
    && (forall j :: j in s.transactions && j != id ==> t.transactions[j] == s.transactions[j])
  }

  /** What no approval, signature or broadcast touches. */
  ghost predicate SameOrigin(p: Proposal, q: Proposal) {
    && q.id == p.id && q.walletID == p.walletID && q.chain == p.chain && q.request == p.request
    && q.raw == p.raw && q.trace == p.trace && q.createdAt == p.createdAt
  }

  /** The approvals with one more signer. */
  ghost predicate OneMore(before: map<string, Approval>, after: map<string, Approval>, a: Approval) {
    && after.Keys == before.Keys + {a.signerID} && after[a.signerID] == a
    && (forall k :: k in before && k != a.signerID ==> after[k] == before[k])
  }

  /** An approval is refused for exactly three reasons; otherwise it is added and dates the row. */
  lemma AddApprovalTells(s: Store, id: string, a: Approval)
    ensures var (t, out) := AddApproval(s, id, a);
      && (out == Err(TransactionNotFound) <==> id !in s.transactions)
      && (out == Err(TransactionNotProposed) <==> id in s.transactions && s.transactions[id].status != Proposed)
      && (out == Err(DuplicateApproval) <==>
            id in s.transactions && s.transactions[id].status == Proposed && a.signerID in s.transactions[id].approvals)
      && (out.Err? ==> t == s)
      && (out.Ok? ==>
            && OnlyRow(s, t, id) && t.transactions[id] == out.value
            && var p, q := s.transactions[id], out.value;
               && SameOrigin(p, q) && q.status == Proposed && OneMore(p.approvals, q.approvals, a) && q.updatedAt == a.createdAt
               && q.signed == p.signed && q.hash == p.hash && q.error == p.error)
  {}

  /** A row is marked exactly while it is Proposed; the in-memory store dates it by its latest approval. */
  lemma MarkSignedTells(s: Store, id: string, signed: SignedTx, stamp: Option<Time>)
    ensures var (t, out) := MarkSigned(s, id, signed, stamp);
      && (out.Err? <==> id !in s.transactions) && (out.Err? ==> out == Err(TransactionNotFound) && t == s)
      && (out.Ok? ==>
            var p, q := s.transactions[id], out.value.0;
            && (out.value.1 <==> p.status == Proposed)
            && (!out.value.1 ==> t == s && q == p)
            && (out.value.1 ==>
                  && OnlyRow(s, t, id) && t.transactions[id] == q
                  && SameOrigin(p, q) && q.status == Signed && q.signed == signed && q.approvals == p.approvals
                  && q.hash == p.hash && q.error == p.error
                  && (stamp.Some? ==> q.updatedAt == stamp.value)
                  && (stamp.None? ==>
                        && p.updatedAt <= q.updatedAt
                        && (forall k :: k in p.approvals ==> p.approvals[k].createdAt <= q.updatedAt)
                        && (q.updatedAt == p.updatedAt || exists k :: k in p.approvals && p.approvals[k].createdAt == q.updatedAt))))
  {
    if id in s.transactions {
      var p := s.transactions[id];
      var at := Latest(p.updatedAt, p.approvals);
      assert IsLatest(at, p.updatedAt, p.approvals);
      hide Latest;
    }
  }

  /** An update replaces an existing row by exactly what is passed. */
  lemma UpdateTells(s: Store, p: Proposal)
    ensures var (t, out) := UpdateTransaction(s, p);
      && (out.Err? <==> p.id !in s.transactions) && (out.Err? ==> out == Err(TransactionNotFound) && t == s)
      && (out.Ok? ==> OnlyRow(s, t, p.id) && t.transactions[p.id] == p)
  {}

  /** A create stores exactly what is passed under an unused id. */
  lemma CreateWalletTells(s: Store, w: Wallet)
    ensures var (t, out) := CreateWallet(s, w);
      && (out.Err? <==> w.id in s.wallets) && (out.Err? ==> out == Err(DuplicateWallet) && t == s)
      && (out.Ok? ==> out == Ok(w) && t == Store(s.wallets[w.id := w], s.transactions, s.idempotency, s.audit))
  {}

  lemma CreateTransactionTells(s: Store, p: Proposal)
    ensures var (t, out) := CreateTransaction(s, p);
      && (out.Err? <==> p.id in s.transactions) && (out.Err? ==> out == Err(DuplicateTransaction) && t == s)
      && (out.Ok? ==> out == Ok(p) && t == Store(s.wallets, s.transactions[p.id := p], s.idempotency, s.audit))
  {}

  /** A used key answers with the wallet its record names and stores nothing; a fresh one stores wallet and record together. */
  lemma CreateWalletOnceTells(s: Store, w: Wallet, r: IdempotencyRecord)
    ensures var (t, out) := CreateWalletOnce(s, w, r); var k := r.scope + "\0" + r.key;
      && (k in s.idempotency ==>
            && t == s
            && var id := s.idempotency[k].resourceID;
               out == if id in s.wallets then Ok(Created(s.wallets[id], false)) else Err(WalletNotFound))
      && (k !in s.idempotency && w.id in s.wallets ==> t == s && out == Err(DuplicateWallet))
      && (k !in s.idempotency && w.id !in s.wallets ==>
            && out == Ok(Created(w, true))
            && t == Store(s.wallets[w.id := w], s.transactions, s.idempotency[k := r], s.audit))
  {}

  /** Likewise for proposals. */
  lemma CreateTransactionOnceTells(s: Store, p: Proposal, r: IdempotencyRecord)
    ensures var (t, out) := CreateTransactionOnce(s, p, r); var k := r.scope + "\0" + r.key;
      && (k in s.idempotency ==>
            && t == s
            && var id := s.idempotency[k].resourceID;
               out == if id in s.transactions then Ok(Created(s.transactions[id], false)) else Err(TransactionNotFound))
      && (k !in s.idempotency && p.id in s.transactions ==> t == s && out == Err(DuplicateTransaction))
      && (k !in s.idempotency && p.id !in s.transactions ==>
            && out == Ok(Created(p, true))
            && t == Store(s.wallets, s.transactions[p.id := p], s.idempotency[k := r], s.audit))
  {}
}
