/**
 * The proposal table of the Postgres store (internal/store/postgres.go): a status and a time
 * column beside the JSON document. Each method is one transaction whose row lock or single
 * statement keeps others out (module PostgresAtomicity); its commit may be acknowledged, lost on
 * the way back, or aborted.
 */
module PostgresStores {
  import opened Types
  import opened StoreSpec
  import PostgresRaces
  import opened PostgresAtomicity
  import opened Guarantees

  datatype ProposalRow = ProposalRow(
    walletID: string, chain: Chain, status: Status, document: Proposal, createdAt: Time, updatedAt: Time)

  type Fate = PostgresRaces.CommitOutcome

  /** The columns kept beside the document say what it says. */
  ghost predicate ColumnsAgree(id: string, row: ProposalRow) {
    row.document.id == id && row.status == row.document.status && row.updatedAt == row.document.updatedAt
  }

  /** The wallet, chain and creation columns are those of the proposal first stored, and stay. */
  ghost predicate OtherColumns(before: map<string, ProposalRow>, after: map<string, ProposalRow>, p: Proposal) {
    && before.Keys <= after.Keys <= before.Keys + {p.id}
    && (forall id :: id in before ==>
          && after[id].walletID == before[id].walletID && after[id].chain == before[id].chain
          && after[id].createdAt == before[id].createdAt)
    && (p.id in after && p.id !in before ==>
          after[p.id].walletID == p.walletID && after[p.id].chain == p.chain && after[p.id].createdAt == p.createdAt)
  }

  class PostgresStore {
    var proposals: map<string, ProposalRow>

    /** The idempotency table, by scope and key, and the same records under the joined keys of the specification. */
    var keys: map<(string, string), string>
    ghost var joined: map<string, IdempotencyRecord>

    ghost predicate Valid()
      reads this
    {
      (forall id :: id in proposals ==> ColumnsAgree(id, proposals[id])) && ShowsKeys(keys, joined)
    }

    /** The documents, as the store operations see them. */
    ghost function View(): map<string, Proposal>
      reads this
    {
      map id | id in proposals :: proposals[id].document
    }

    ghost function Store(): Store
      reads this
    {
      EMPTY.(transactions := View(), idempotency := joined)
    }

    constructor ()
      ensures Valid() && Store() == EMPTY
    {
      proposals := map[];
      keys := map[];
      joined := map[];
    }

    /** `INSERT INTO transaction_proposals`. */
    method InsertRow(p: Proposal)
      requires Valid() && p.id !in proposals
      modifies `proposals
      ensures Valid() && View() == old(View())[p.id := p] && OtherColumns(old(proposals), proposals, p)
    {
      hide ShowsKeys;
      proposals := proposals[p.id := ProposalRow(p.walletID, p.chain, p.status, p, p.createdAt, p.updatedAt)];
    }

    /** Uncontended; module PostgresRaces has the races. */
    method CreateTransactionIdempotently(p: Proposal, r: IdempotencyRecord, fate: Fate) returns (out: Result<Created<Proposal>, Error>)
      requires Valid() && NulFree(r.scope) && r.resourceID == p.id
      modifies this
      ensures Valid()
      ensures var (s, o) := CreateTransactionOnce(old(Store()), p, r);
        && Store() == (if fate.Aborted? then old(Store()) else s)
        && (fate.Acknowledged? ==> out == o)
        && (!fate.Acknowledged? && o.Ok? && o.value.isNew ==> out.Err?)
      ensures OtherColumns(old(proposals), proposals, p)
    {
      hide IdempotencyKey, NulFree;
      var key := (r.scope, r.key);
      assert key in keys <==> Joined(key) in joined;
      if key in keys {
        if keys[key] !in proposals { return Err(TransactionNotFound); }
        return Ok(Created(proposals[keys[key]].document, false));
      }
      if p.id in proposals { return Err(DuplicateTransaction); }
      if !fate.Aborted? {
        ShowsNewKey(keys, joined, key, r);
        hide ShowsKeys, OtherColumns, ColumnsAgree;
        InsertRow(p);
        keys := keys[key := r.resourceID];
        joined := joined[Joined(key) := r];
      }
      out := if fate.Acknowledged? then Ok(Created(p, true)) else Err(Other("commit"));
    }

    method CreateTransaction(p: Proposal, fate: Fate) returns (out: Result<(), Error>)
      requires Valid()
      modifies `proposals
      ensures Valid()
      ensures var (s, r) := StoreSpec.CreateTransaction(old(Store()), p);
        && Store() == (if fate.Aborted? then old(Store()) else s)
        && (fate.Acknowledged? ==> out == if r.Ok? then Ok(()) else Err(r.error))
        && (!fate.Acknowledged? ==> out.Err?)
      ensures OtherColumns(old(proposals), proposals, p)
    {
      if p.id in proposals { return Err(DuplicateTransaction); }
      hide ShowsKeys, ColumnsAgree;
      if !fate.Aborted? { InsertRow(p); }
      out := if fate.Acknowledged? then Ok(()) else Err(Other("commit"));
      assert View() == if fate.Aborted? then old(View()) else old(View())[p.id := p];
    }

    method GetTransaction(id: string) returns (out: Result<Proposal, Error>)
      ensures out == StoreSpec.GetTransaction(Store(), id)
    {
      out := if id in proposals then Ok(proposals[id].document) else Err(TransactionNotFound);
    }

    method UpdateTransaction(p: Proposal, fate: Fate) returns (out: Result<(), Error>)
      requires Valid()
      modifies `proposals
      ensures Valid()
      ensures var (s, r) := StoreSpec.UpdateTransaction(old(Store()), p);
        && Store() == (if fate.Aborted? then old(Store()) else s)
        && (fate.Acknowledged? ==> out == r) && (!fate.Acknowledged? ==> out.Err?)
      ensures proposals.Keys == old(proposals.Keys) && OtherColumns(old(proposals), proposals, p)
    {
      hide ShowsKeys;
      if p.id in proposals && !fate.Aborted? {
        proposals := proposals[p.id := proposals[p.id].(status := p.status, document := p, updatedAt := p.updatedAt)];
      }
      out := if p.id !in proposals then Err(TransactionNotFound)
             else if fate.Acknowledged? then Ok(()) else Err(Other("commit"));
      assert View() == if fate.Aborted? || p.id !in proposals then old(View()) else old(View())[p.id := p];
    }

    /** Writes the document and the time, never the status column. */
    method AddApproval(id: string, a: Approval, fate: Fate) returns (out: Result<Proposal, Error>)
      requires Valid()
      modifies `proposals
      ensures Valid()
      ensures var (s, r) := StoreSpec.AddApproval(old(Store()), id, a);
        && Store() == (if fate.Aborted? then old(Store()) else s)
        && (fate.Acknowledged? ==> out == r) && (!fate.Acknowledged? ==> out.Err?)
      ensures proposals.Keys == old(proposals.Keys)
      ensures id in proposals ==> OtherColumns(old(proposals), proposals, proposals[id].document)
      ensures forall j :: j in proposals ==> proposals[j].status == old(proposals[j].status)
    {
      if id !in proposals { return Err(TransactionNotFound); }
      var p := proposals[id].document;
      if p.status != Proposed { return Err(TransactionNotProposed); }
      if a.signerID in p.approvals { return Err(DuplicateApproval); }
      hide ShowsKeys;
      p := p.(approvals := p.approvals[a.signerID := a]);
      p := p.(updatedAt := a.createdAt);
      if !fate.Aborted? {
        proposals := proposals[id := proposals[id].(document := p, updatedAt := p.updatedAt)];
      }
      out := if fate.Acknowledged? then Ok(p) else Err(Other("commit"));
      assert View() == if fate.Aborted? then old(View()) else old(View())[id := p];
    }

    method MarkTransactionSigned(id: string, signed: SignedTx, now: Time, fate: Fate)
      returns (out: Result<(Proposal, bool), Error>)
      requires Valid()
      modifies `proposals
      ensures Valid()
      ensures var (s, r) := MarkSigned(old(Store()), id, signed, Some(now));
        && Store() == (if fate.Aborted? then old(Store()) else s)
        && (fate.Acknowledged? ==> out == r) && (!fate.Acknowledged? ==> out.Err?)
      ensures proposals.Keys == old(proposals.Keys)
      ensures id in proposals ==> OtherColumns(old(proposals), proposals, proposals[id].document)
    {
      if id !in proposals { return Err(TransactionNotFound); }
      var p := proposals[id].document;
      if p.status != Proposed {
        return if fate.Acknowledged? then Ok((p, false)) else Err(Other("commit"));
      }
      hide ShowsKeys;
      p := p.(status := Signed);
      p := p.(signed := signed, updatedAt := now);
      if !fate.Aborted? {
        proposals := proposals[id := proposals[id].(status := p.status, document := p, updatedAt := p.updatedAt)];
      }
      out := if fate.Acknowledged? then Ok((p, true)) else Err(Other("commit"));
      assert View() == if fate.Aborted? then old(View()) else old(View())[id := p];
    }
  }

  // ----- both stores give the same answers, except for the time of the last update

  ghost predicate SameButTime(p: Proposal, q: Proposal) { p.(updatedAt := 0) == q.(updatedAt := 0) }

  ghost predicate SameRows(m: map<string, Proposal>, n: map<string, Proposal>) {
    m.Keys == n.Keys && forall id :: id in m ==> SameButTime(m[id], n[id])
  }

  /** The same rows up to update times, and the same idempotency keys. */
  ghost predicate SameStore(s: Store, t: Store) {
    SameRows(s.transactions, t.transactions) && SameKeys(s.idempotency, t.idempotency)
  }

  ghost predicate SameKeys(m: map<string, IdempotencyRecord>, n: map<string, IdempotencyRecord>) {
    m.Keys == n.Keys && forall k :: k in m ==> m[k].resourceID == n[k].resourceID
  }

  datatype ProposalOp =
    | Create(p: Proposal)
    | CreateOnce(p: Proposal, record: IdempotencyRecord)
    | Get(id: string)
    | Update(p: Proposal)
    | AddApprovalOp(id: string, a: Approval)
    | MarkOp(id: string, signed: SignedTx, stamp: Option<Time>)

  /** A proposal, and whether the operation was the one to create or mark it. */
  type Answer = Result<(Proposal, bool), Error>

  ghost function Answered(r: Result<Proposal, Error>): Answer {
    if r.Ok? then Ok((r.value, true)) else Err(r.error)
  }

  ghost function Apply(s: Store, op: ProposalOp): (Store, Answer) {
    match op
    case Create(p) => var (t, r) := StoreSpec.CreateTransaction(s, p); (t, Answered(r))
    case CreateOnce(p, r) =>
      var (t, o) := CreateTransactionOnce(s, p, r);
      (t, match o case Ok(Created(q, isNew)) => Ok((q, isNew)) case Err(e) => Err(e))
    case Get(id) => (s, Answered(StoreSpec.GetTransaction(s, id)))
    case Update(p) =>
      var (t, r) := StoreSpec.UpdateTransaction(s, p); (t, if r.Ok? then Ok((p, true)) else Err(r.error))
    case AddApprovalOp(id, a) => var (t, r) := StoreSpec.AddApproval(s, id, a); (t, Answered(r))
    case MarkOp(id, signed, stamp) => MarkSigned(s, id, signed, stamp)
  }

  /** The same operation, up to update times: the stamps, and the times inside what a caller writes back. */
  ghost predicate SameOp(o: ProposalOp, q: ProposalOp) {
    match o
    case Create(p) => q.Create? && SameButTime(p, q.p)
    case CreateOnce(p, r) =>
      && q.CreateOnce? && SameButTime(p, q.p)
      && r.scope == q.record.scope && r.key == q.record.key && r.resourceID == q.record.resourceID
    case Get(id) => q == o
    case Update(p) => q.Update? && SameButTime(p, q.p)
    case AddApprovalOp(id, a) => q == o
    case MarkOp(id, signed, _) => q.MarkOp? && q.id == id && q.signed == signed
  }

  ghost predicate SameAnswer(a: Answer, b: Answer) {
    if a.Ok? then b.Ok? && SameButTime(a.value.0, b.value.0) && a.value.1 == b.value.1 else a == b
  }

  lemma SamePut(m: map<string, Proposal>, n: map<string, Proposal>, id: string, p: Proposal, q: Proposal)
    requires SameRows(m, n) && SameButTime(p, q)
    ensures SameRows(m[id := p], n[id := q])
  {
    hide SameButTime;
  }

  lemma SameApproval(s: Store, t: Store, id: string, a: Approval)
    requires SameRows(s.transactions, t.transactions)
    ensures SameRows(StoreSpec.AddApproval(s, id, a).0.transactions, StoreSpec.AddApproval(t, id, a).0.transactions)
    ensures SameAnswer(Answered(StoreSpec.AddApproval(s, id, a).1), Answered(StoreSpec.AddApproval(t, id, a).1))
  {
    if id in s.transactions {
      var p, q := s.transactions[id], t.transactions[id];
      assert SameButTime(Approve(p, a), Approve(q, a)) && p.status == q.status && p.approvals == q.approvals;
      SamePut(s.transactions, t.transactions, id, Approve(p, a), Approve(q, a));
    }
    hide SameRows, SameButTime;
  }

  lemma SameMark(s: Store, t: Store, id: string, signed: SignedTx, x: Option<Time>, y: Option<Time>)
    requires SameRows(s.transactions, t.transactions)
    ensures SameRows(MarkSigned(s, id, signed, x).0.transactions, MarkSigned(t, id, signed, y).0.transactions)
    ensures SameAnswer(MarkSigned(s, id, signed, x).1, MarkSigned(t, id, signed, y).1)
  {
    if id in s.transactions {
      var p, q := s.transactions[id], t.transactions[id];
      assert SameButTime(Seal(p, signed, x), Seal(q, signed, y)) && SameButTime(p, q) && p.status == q.status;
      SamePut(s.transactions, t.transactions, id, Seal(p, signed, x), Seal(q, signed, y));
    }
    hide SameRows, SameButTime;
  }

  lemma SameCreate(s: Store, t: Store, p: Proposal, q: Proposal)
    requires SameStore(s, t) && SameButTime(p, q)
    ensures SameStore(Apply(s, Create(p)).0, Apply(t, Create(q)).0) && SameAnswer(Apply(s, Create(p)).1, Apply(t, Create(q)).1)
  {
    SamePut(s.transactions, t.transactions, p.id, p, q);
    assert p.id == q.id && (p.id in s.transactions <==> q.id in t.transactions);
    hide SameKeys, SameRows, SameButTime;
  }

  lemma SameUpdate(s: Store, t: Store, p: Proposal, q: Proposal)
    requires SameStore(s, t) && SameButTime(p, q)
    ensures SameStore(Apply(s, Update(p)).0, Apply(t, Update(q)).0) && SameAnswer(Apply(s, Update(p)).1, Apply(t, Update(q)).1)
  {
    SamePut(s.transactions, t.transactions, p.id, p, q);
    assert p.id == q.id && (p.id in s.transactions <==> q.id in t.transactions);
    hide SameKeys, SameRows, SameButTime;
  }

  lemma SameCreateOnce(s: Store, t: Store, p: Proposal, q: Proposal, r: IdempotencyRecord, x: IdempotencyRecord)
    requires SameStore(s, t) && SameOp(CreateOnce(p, r), CreateOnce(q, x))
    ensures SameStore(Apply(s, CreateOnce(p, r)).0, Apply(t, CreateOnce(q, x)).0)
    ensures SameAnswer(Apply(s, CreateOnce(p, r)).1, Apply(t, CreateOnce(q, x)).1)
  {
    hide IdempotencyKey;
    var k := IdempotencyKey(r.scope, r.key);
    assert k in s.idempotency ==> k in t.idempotency && s.idempotency[k].resourceID == t.idempotency[k].resourceID;
    SamePut(s.transactions, t.transactions, p.id, p, q);
    SameKeysPut(s.idempotency, t.idempotency, k, r, x);
    assert p.id == q.id;
    if k in s.idempotency {
      hide SameButTime, SameKeys;
    } else {
      assert p.id in s.transactions <==> q.id in t.transactions;
      hide SameRows, SameButTime, SameKeys;
    }
  }

  lemma SameKeysPut(m: map<string, IdempotencyRecord>, n: map<string, IdempotencyRecord>, k: string, r: IdempotencyRecord, x: IdempotencyRecord)
    requires SameKeys(m, n) && r.resourceID == x.resourceID
    ensures SameKeys(m[k := r], n[k := x])
  {}

  lemma SameStep(s: Store, t: Store, o: ProposalOp, q: ProposalOp)
    requires SameStore(s, t) && SameOp(o, q)
    ensures SameStore(Apply(s, o).0, Apply(t, q).0)
    ensures SameAnswer(Apply(s, o).1, Apply(t, q).1)
  {
    hide SameKeys, SameButTime;
    match o
    case CreateOnce(p, r) => SameCreateOnce(s, t, p, q.p, r, q.record);
    case AddApprovalOp(id, a) => SameApproval(s, t, id, a);
    case MarkOp(id, signed, stamp) => SameMark(s, t, id, signed, stamp, q.stamp);
    case Get(_) =>
    case Create(p) => SameCreate(s, t, p, q.p);
    case Update(p) => SameUpdate(s, t, p, q.p);
  }

  ghost function Answers(s: Store, ops: seq<ProposalOp>): seq<Answer>
    decreases |ops|
  {
    if ops == [] then [] else [Apply(s, ops[0]).1] + Answers(Apply(s, ops[0]).0, ops[1..])
  }

  /**
   * Whatever is asked of the in-memory store and, with other clocks, of the Postgres store, the
   * answers agree one by one in everything but the update time.
   */
  lemma {:induction false} SameAnswers(s: Store, t: Store, ops: seq<ProposalOp>, others: seq<ProposalOp>)
    requires SameStore(s, t)
    requires |ops| == |others| && forall i :: 0 <= i < |ops| ==> SameOp(ops[i], others[i])
    ensures |Answers(s, ops)| == |ops| == |Answers(t, others)|
    ensures forall i :: 0 <= i < |ops| ==> SameAnswer(Answers(s, ops)[i], Answers(t, others)[i])
    decreases |ops|
  {
    hide Apply, SameAnswer, SameStore, SameOp;
    if ops != [] {
      SameStep(s, t, ops[0], others[0]);
      SameAnswers(Apply(s, ops[0]).0, Apply(t, others[0]).0, ops[1..], others[1..]);
    }
  }
}
