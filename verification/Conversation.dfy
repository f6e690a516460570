/** The two stores side by side: whatever is asked of both, they give the same answers up to update times. */
module Conversation {
  import opened Types
  import opened StoreSpec
  import opened MemoryStores
  import opened PostgresStores
  import opened Guarantees
  import PostgresRaces

  /** A caller's proposal as the record it passes, with tables of its own. */
  method AsRecord(p: Proposal) returns (r: Record)
    ensures Value(r) == p && fresh(Tables(r))
  {
    var approvals := new Table<Approval>(p.id);
    approvals.entries := p.approvals;
    var trace := new Table<string>(p.id);
    trace.entries := p.trace;
    r := Record(p.id, p.walletID, p.chain, p.status, p.request, p.raw, approvals,
                p.signed, p.hash, p.error, trace, p.createdAt, p.updatedAt);
  }

  /** The operation as the in-memory store takes it: it has no clock to mark with. */
  ghost function Clockless(op: ProposalOp): ProposalOp {
    if op.MarkOp? then op.(stamp := None) else op
  }

  method AskMemory(store: MemoryStore, op: ProposalOp) returns (answer: Answer)
    requires store.Valid()
    modifies store, store.repr
    ensures store.Valid() && old(store.repr) <= store.repr && fresh(store.repr - old(store.repr))
    ensures (store.View(), answer) == Apply(old(store.View()), Clockless(op))
  {
    hide Value, RowsValid, IdempotencyKey;
    match op
    case Create(p) =>
      var r := AsRecord(p);
      var out := store.CreateTransaction(r, true);
      answer := if out.Ok? then Ok((p, true)) else Err(out.error);
    case CreateOnce(p, record) =>
      var r := AsRecord(p);
      var out := store.CreateTransactionIdempotently(r, record, true);
      answer := if out.Ok? then Ok((Value(out.value.resource), out.value.isNew)) else Err(out.error);
    case Get(id) =>
      var out := store.GetTransaction(id, true);
      answer := if out.Ok? then Ok((Value(out.value), true)) else Err(out.error);
    case Update(p) =>
      var r := AsRecord(p);
      var out := store.UpdateTransaction(r, true);
      answer := if out.Ok? then Ok((p, true)) else Err(out.error);
    case AddApprovalOp(id, a) =>
      var out := store.AddApproval(id, a, true);
      answer := if out.Ok? then Ok((Value(out.value), true)) else Err(out.error);
    case MarkOp(id, signed, _) =>
      var out := store.MarkTransactionSigned(id, signed, true);
      answer := if out.Ok? then Ok((Value(out.value.0), out.value.1)) else Err(out.error);
  }

  /** Operations the Postgres store can be asked: scopes without NUL, records that name their proposal, marks with a clock. */
  ghost predicate Askable(op: ProposalOp) {
    && (op.CreateOnce? ==> NulFree(op.record.scope) && op.record.resourceID == op.p.id)
    && (op.MarkOp? ==> op.stamp.Some?)
  }

  method AskPostgres(store: PostgresStore, op: ProposalOp) returns (answer: Answer)
    requires store.Valid() && Askable(op)
    modifies store
    ensures store.Valid() && (store.Store(), answer) == Apply(old(store.Store()), op)
  {
    hide IdempotencyKey, NulFree;
    var fate := PostgresRaces.Acknowledged;
    match op
    case Create(p) =>
      var out := store.CreateTransaction(p, fate);
      answer := if out.Ok? then Ok((p, true)) else Err(out.error);
    case CreateOnce(p, record) =>
      var out := store.CreateTransactionIdempotently(p, record, fate);
      answer := if out.Ok? then Ok((out.value.resource, out.value.isNew)) else Err(out.error);
    case Get(id) =>
      var out := store.GetTransaction(id);
      answer := if out.Ok? then Ok((out.value, true)) else Err(out.error);
    case Update(p) =>
      var out := store.UpdateTransaction(p, fate);
      answer := if out.Ok? then Ok((p, true)) else Err(out.error);
    case AddApprovalOp(id, a) =>
      var out := store.AddApproval(id, a, fate);
      answer := if out.Ok? then Ok((out.value, true)) else Err(out.error);
    case MarkOp(id, signed, stamp) =>
      var out := store.MarkTransactionSigned(id, signed, stamp.value, fate);
      answer := out;
  }

  /**
   * Any list of operations, put to both stores with whatever clocks and with proposals that differ
   * in update times only, gets the same answers and leaves the stores alike, up to update times.
   */
  method Converse(memory: MemoryStore, postgres: PostgresStore, ops: seq<ProposalOp>, others: seq<ProposalOp>)
    returns (left: seq<Answer>, right: seq<Answer>)
    requires memory.Valid() && postgres.Valid() && SameStore(memory.View(), postgres.Store())
    requires postgres !in memory.repr
    requires |ops| == |others|
    requires forall i :: 0 <= i < |ops| ==> SameOp(Clockless(ops[i]), others[i]) && Askable(others[i])
    modifies memory, memory.repr, postgres
    ensures memory.Valid() && postgres.Valid() && SameStore(memory.View(), postgres.Store())
    ensures |left| == |right| == |ops| && forall i :: 0 <= i < |ops| ==> SameAnswer(left[i], right[i])
  {
    hide Apply, SameAnswer, SameStore, SameOp, Askable;
    left, right := [], [];
    ghost var began := memory.repr;
    for n := 0 to |ops|
      invariant memory.Valid() && postgres.Valid() && SameStore(memory.View(), postgres.Store())
      invariant began <= memory.repr && fresh(memory.repr - began) && postgres !in memory.repr
      invariant |left| == |right| == n && forall i :: 0 <= i < n ==> SameAnswer(left[i], right[i])
    {
      SameStep(memory.View(), postgres.Store(), Clockless(ops[n]), others[n]);
      var l := AskMemory(memory, ops[n]);
      var r := AskPostgres(postgres, others[n]);
      left, right := left + [l], right + [r];
    }
  }
}
