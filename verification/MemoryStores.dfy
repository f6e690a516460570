/**
 * The in-memory store (internal/store/memory.go). A stored proposal refers to its approvals and
 * trace tables; `cloneProposal` keeps those tables private to the store, so that the in-place
 * write of AddApproval reaches no copy held by a caller.
 */
module MemoryStores {
  import opened Types
  import opened StoreSpec

  /** A Go map. `home` names the transaction it was made for; a table never moves to another one. */
  class Table<V> {
    var entries: map<string, V>
    ghost const home: string

    constructor (ghost home: string)
      ensures entries == map[] && this.home == home
    {
      entries := map[];
      this.home := home;
    }
  }

  /** A proposal as a Go struct: copying it copies the references to its two tables. */
  datatype Record = Record(
    id: string, walletID: string, chain: Chain, status: Status,
    request: Request, raw: Payload, approvals: Table?<Approval>,
    signed: SignedTx, hash: string, error: string, trace: Table?<string>,
    createdAt: Time, updatedAt: Time)

  /** The proposal a record stands for; a nil table counts as an empty one. */
  function Value(r: Record): Proposal
    reads r.approvals, r.trace
  {
    Proposal(r.id, r.walletID, r.chain, r.status, r.request, r.raw,
             if r.approvals == null then map[] else r.approvals.entries,
             r.signed, r.hash, r.error,
             if r.trace == null then map[] else r.trace.entries,
             r.createdAt, r.updatedAt)
  }

  ghost predicate StandsFor(r: Record, p: Proposal)
    reads r.approvals, r.trace
  {
    Value(r) == p
  }

  /** The tables a record refers to. */
  ghost function Tables(r: Record): set<object> {
    (if r.approvals == null then {} else {r.approvals as object}) + (if r.trace == null then {} else {r.trace as object})
  }

  /** The record's tables, if any, were made for transaction `id`. */
  ghost predicate MadeFor(r: Record, id: string) {
    && (r.approvals != null ==> r.approvals.home == id)
    && (r.trace != null ==> r.trace.home == id)
  }

  /** The stored record's tables are its own, and say what row `p` says. */
  ghost predicate RowValid(r: Record, id: string, p: Proposal)
    reads r.approvals, r.trace
  {
    MadeFor(r, id) && StandsFor(r, p)
  }

  ghost predicate RowsValid(stored: map<string, Record>, rows: map<string, Proposal>, repr: set<object>)
    reads repr
  {
    && rows.Keys == stored.Keys
    && (forall id :: id in stored ==> Tables(stored[id]) <= repr && RowValid(stored[id], id, rows[id]))
  }

  /** Storing a record with tables made for it keeps every row. */
  lemma RowsPut(stored: map<string, Record>, rows: map<string, Proposal>, repr: set<object>, id: string, c: Record, v: Proposal)
    requires RowsValid(stored, rows, repr) && RowValid(c, id, v)
    ensures RowsValid(stored[id := c], rows[id := v], repr + Tables(c))
  {
    hide RowValid;
  }

  /** All rows but one, as long as only that one is being written. */
  ghost predicate OthersValid(stored: map<string, Record>, rows: map<string, Proposal>, repr: set<object>, id: string)
    reads repr
  {
    && rows.Keys == stored.Keys
    && (forall j :: j in stored ==> Tables(stored[j]) <= repr)
    && (forall j :: j in stored && j != id ==> RowValid(stored[j], j, rows[j]))
  }

  lemma RowWritten(stored: map<string, Record>, rows: map<string, Proposal>, repr: set<object>, id: string, p: Proposal)
    requires OthersValid(stored, rows, repr, id) && id in stored && RowValid(stored[id], id, p)
    ensures RowsValid(stored, rows[id := p], repr)
  {
    hide RowValid;
  }

  method CloneTable<V>(t: Table<V>, ghost home: string) returns (c: Table<V>)
    ensures fresh(c) && c.entries == t.entries && c.home == home
  {
    c := new Table<V>(home);
    var keys := t.entries.Keys;
    while keys != {}
      invariant keys <= t.entries.Keys && fresh(c) && c.home == home
      invariant c.entries == map k | k in t.entries && k !in keys :: t.entries[k]
      decreases |keys|
    {
      var k :| k in keys;
      c.entries := c.entries[k := t.entries[k]];
      keys := keys - {k};
    }
  }

  method CloneProposal(r: Record, ghost home: string) returns (c: Record)
    ensures RowValid(c, home, old(Value(r))) && fresh(Tables(c))
  {
    c := r;
    if c.approvals != null {
      var t := CloneTable(c.approvals, home);
      c := c.(approvals := t);
    }
    if c.trace != null {
      var t := CloneTable(c.trace, home);
      c := c.(trace := t);
    }
  }

  /** The proposal with one more entry in its approvals. */
  ghost function Entered(p: Proposal, a: Approval): Proposal {
    p.(approvals := p.approvals[a.signerID := a])
  }

  /** `proposal.Approvals[a.SignerID] = a`, through the reference the record holds. */
  method WriteEntry(r: Record, ghost id: string, ghost p: Proposal, a: Approval)
    requires r.approvals != null && RowValid(r, id, p)
    modifies r.approvals
    ensures RowValid(r, id, Entered(p, a))
  {
    r.approvals.entries := r.approvals.entries[a.signerID := a];
  }

  /** `proposal.Approvals = make(...)` and the first entry. */
  method FirstApproval(r: Record, a: Approval, ghost home: string) returns (c: Record)
    requires r.approvals == null
    ensures Value(c) == old(Value(r)).(approvals := map[a.signerID := a])
  {
    var t := new Table<Approval>(home);
    t.entries := map[a.signerID := a];
    c := r.(approvals := t);
  }

  class MemoryStore {
    var wallets: map<string, Wallet>
    var transactions: map<string, Record>
    var idempotency: map<string, IdempotencyRecord>
    var auditEvents: seq<AuditEvent>

    /** What the stored records stand for. */
    ghost var rows: map<string, Proposal>

    /** Every table ever stored. */
    ghost var repr: set<object>

    ghost predicate Valid()
      reads this, repr
    {
      this !in repr && RowsValid(transactions, rows, repr)
    }

    ghost function View(): Store
      reads this
    {
      Store(wallets, rows, idempotency, auditEvents)
    }

    constructor ()
      ensures Valid() && repr == {} && View() == EMPTY
    {
      wallets := map[];
      transactions := map[];
      idempotency := map[];
      auditEvents := [];
      rows := map[];
      repr := {};
    }

    method GetTransaction(id: string, live: bool) returns (out: Result<Record, Error>)
      requires Valid()
      ensures !live ==> out == Err(ContextDone)
      ensures live ==> match StoreSpec.GetTransaction(View(), id)
        case Ok(p) => out.Ok? && StandsFor(out.value, p)
        case Err(e) => out == Err(e)
      ensures out.Ok? ==> Private(out.value) && fresh(Tables(out.value))
    {
      if !live { return Err(ContextDone); }
      if id !in transactions { return Err(TransactionNotFound); }
      var c := CloneProposal(transactions[id], id);
      out := Ok(c);
    }

    /** The record shares no table with the store, nor with anything ever stored. */
    ghost predicate Private(r: Record)
      reads this
    {
      Tables(r) !! repr
    }

    /** `s.transactions[id] = cloneProposal(p)`, the common end of every write. */
    method Put(id: string, p: Record)
      requires Valid()
      modifies `transactions, `rows, `repr
      ensures Valid() && old(repr) <= repr && fresh(repr - old(repr))
      ensures rows == old(rows)[id := old(Value(p))]
    {
      ghost var v := Value(p);
      var c := CloneProposal(p, id);
      hide RowValid, RowsValid, Value;
      RowsPut(transactions, rows, repr, id, c, v);
      rows, transactions, repr := rows[id := v], transactions[id := c], repr + Tables(c);
    }

    method UpdateTransaction(p: Record, live: bool) returns (out: Result<(), Error>)
      requires Valid()
      modifies `transactions, `rows, `repr
      ensures Valid() && old(repr) <= repr && fresh(repr - old(repr))
      ensures !live ==> out == Err(ContextDone) && View() == old(View())
      ensures live ==> (View(), out) == StoreSpec.UpdateTransaction(old(View()), old(Value(p)))
    {
      if !live { return Err(ContextDone); }
      if p.id !in transactions { return Err(TransactionNotFound); }
      Put(p.id, p);
      out := Ok(());
    }

    /** `proposal.Approvals[a.SignerID] = a`, seen from the other rows: they stay as they were. */
    method WriteStored(id: string, a: Approval)
      requires Valid() && id in transactions && transactions[id].approvals != null
      modifies transactions[id].approvals
      ensures OthersValid(transactions, rows, repr, id)
      ensures id in rows && RowValid(transactions[id], id, Entered(rows[id], a))
    {
      assert transactions[id].approvals.home == id;
      hide Entered, StandsFor, Value;
      WriteEntry(transactions[id], id, rows[id], a);
      forall j | j in transactions && j != id ensures RowValid(transactions[j], j, rows[j]) {
        assert old(RowValid(transactions[j], j, rows[j]));
      }
    }

    /** The in-place write on the stored table: one row changes, every other stays as it was. */
    method WriteApproval(id: string, a: Approval)
      requires Valid() && id in transactions && transactions[id].approvals != null
      modifies `rows, transactions[id].approvals
      ensures Valid()
      ensures id in old(rows) && rows == old(rows)[id := Entered(old(rows)[id], a)]
    {
      hide RowsValid, OthersValid, RowValid, Entered, Tables, Value;
      WriteStored(id, a);
      ghost var p := Entered(rows[id], a);
      RowWritten(transactions, rows, repr, id, p);
      rows := rows[id := p];
    }

    /** `s.transactions[id] = cloneProposal(p); return cloneProposal(p)`. */
    method PutAndReturn(id: string, p: Record) returns (c: Record)
      requires Valid()
      modifies `transactions, `rows, `repr
      ensures Valid() && old(repr) <= repr && fresh(repr - old(repr))
      ensures rows == old(rows)[id := old(Value(p))] && StandsFor(c, old(Value(p)))
      ensures Private(c) && fresh(Tables(c))
    {
      hide Value, MadeFor, Tables;
      ghost var v := Value(p);
      Put(id, p);
      assert Value(p) == v;
      c := CloneProposal(p, id);
    }

    /** The three refusals of AddApproval. */
    method Refusal(id: string, signer: string) returns (out: Option<Error>)
      requires Valid()
      ensures forall a: Approval :: a.signerID == signer ==> match StoreSpec.AddApproval(View(), id, a).1
        case Ok(_) => out == None
        case Err(e) => out == Some(e)
    {
      if id !in transactions { return Some(TransactionNotFound); }
      var p := transactions[id];
      assert StandsFor(p, rows[id]);
      if p.status != Proposed { return Some(TransactionNotProposed); }
      if p.approvals != null && signer in p.approvals.entries { return Some(DuplicateApproval); }
      out := None;
    }

    /** The stored proposal with the approval added, in its own table unless that was nil. */
    method Approved(id: string, a: Approval) returns (p: Record)
      requires Valid() && id in rows
      modifies `rows, repr
      ensures Valid() && repr == old(repr) && rows.Keys == old(rows).Keys && View() == old(View()).(transactions := rows)
      ensures StandsFor(p, Approve(old(rows[id]), a))
      ensures forall j :: j in rows && j != id ==> rows[j] == old(rows)[j]
    {
      p := transactions[id];
      assert RowValid(p, id, rows[id]);
      if p.approvals == null {
        hide RowsValid;
        p := FirstApproval(p, a, id);
      } else {
        WriteApproval(id, a);
        assert RowValid(p, id, rows[id]);
        hide RowsValid;
      }
      p := p.(updatedAt := a.createdAt);
    }

    /** The part of AddApproval past its refusals. */
    method StoreApproval(id: string, a: Approval) returns (c: Record)
      requires Valid() && id in rows
      modifies `transactions, `rows, `repr, repr
      ensures Valid() && old(repr) <= repr && fresh(repr - old(repr))
      ensures View() == old(View()).(transactions := old(rows)[id := Approve(old(rows[id]), a)])
      ensures StandsFor(c, Approve(old(rows[id]), a)) && Private(c) && fresh(Tables(c))
    {
      hide Value, Valid, Tables, Approve;
      var p := Approved(id, a);
      assert Value(p) == Approve(old(rows[id]), a);
      c := PutAndReturn(id, p);
      assert rows == old(rows)[id := Approve(old(rows[id]), a)];
    }

    method AddApproval(id: string, a: Approval, live: bool) returns (out: Result<Record, Error>)
      requires Valid()
      modifies `transactions, `rows, `repr, repr
      ensures Valid() && old(repr) <= repr && fresh(repr - old(repr))
      ensures !live ==> out == Err(ContextDone) && View() == old(View())
      ensures live ==>
        var (s, r) := StoreSpec.AddApproval(old(View()), id, a);
        View() == s && match r case Ok(p) => out.Ok? && StandsFor(out.value, p) case Err(e) => out == Err(e)
      ensures out.Ok? ==> Private(out.value) && fresh(Tables(out.value))
    {
      hide StandsFor, Tables, Valid, Approve;
      if !live { return Err(ContextDone); }
      var refusal := Refusal(id, a.signerID);
      if refusal.Some? { return Err(refusal.value); }
      var c := StoreApproval(id, a);
      out := Ok(c);
    }

    /** The latest of the update time and the approval times, found in whatever order the map yields them. */
    method LatestApproval(p: Record) returns (t: Time)
      ensures IsLatest(t, p.updatedAt, Value(p).approvals)
    {
      t := p.updatedAt;
      if p.approvals == null { return; }
      var entries := p.approvals.entries;
      var keys := entries.Keys;
      while keys != {}
        invariant keys <= entries.Keys
        invariant p.updatedAt <= t && (forall k :: k in entries && k !in keys ==> entries[k].createdAt <= t)
        invariant t == p.updatedAt || exists k :: k in entries && entries[k].createdAt == t
        decreases |keys|
      {
        var k :| k in keys;
        if entries[k].createdAt > t { t := entries[k].createdAt; }
        keys := keys - {k};
      }
    }

    method MarkTransactionSigned(id: string, signed: SignedTx, live: bool) returns (out: Result<(Record, bool), Error>)
      requires Valid()
      modifies `transactions, `rows, `repr
      ensures Valid() && old(repr) <= repr && fresh(repr - old(repr))
      ensures !live ==> out == Err(ContextDone) && rows == old(rows)
      ensures live ==>
        var (s, r) := MarkSigned(old(View()), id, signed, None);
        View() == s && match r
          case Ok((p, won)) => out.Ok? && StandsFor(out.value.0, p) && out.value.1 == won
          case Err(e) => out == Err(e)
      ensures out.Ok? ==> Private(out.value.0) && fresh(Tables(out.value.0))
    {
      if !live { return Err(ContextDone); }
      if id !in transactions { return Err(TransactionNotFound); }
      var p := transactions[id];
      assert StandsFor(p, rows[id]);
      if p.status != Proposed {
        var c := CloneProposal(p, id);
        return Ok((c, false));
      }
      var latest := LatestApproval(p);
      LatestUnique(latest, p.updatedAt, Value(p).approvals);
      p := p.(status := Signed, signed := signed, updatedAt := latest);
      assert Value(p) == Seal(rows[id], signed, None);
      hide Value, StandsFor, Valid;
      var c := PutAndReturn(id, p);
      out := Ok((c, true));
    }

    method CreateWallet(w: Wallet, live: bool) returns (out: Result<Wallet, Error>)
      modifies `wallets
      ensures !live ==> out == Err(ContextDone) && wallets == old(wallets)
      ensures live ==> (View(), out) == StoreSpec.CreateWallet(old(View()), w)
    {
      if !live { return Err(ContextDone); }
      if w.id in wallets { return Err(DuplicateWallet); }
      wallets := wallets[w.id := w];
      out := Ok(w);
    }

    method CreateWalletIdempotently(w: Wallet, r: IdempotencyRecord, live: bool) returns (out: Result<Created<Wallet>, Error>)
      modifies `wallets, `idempotency
      ensures !live ==> out == Err(ContextDone) && View() == old(View())
      ensures live ==> (View(), out) == CreateWalletOnce(old(View()), w, r)
    {
      if !live { return Err(ContextDone); }
      var key := IdempotencyKey(r.scope, r.key);
      if key in idempotency {
        var existing := idempotency[key];
        if existing.resourceID !in wallets { return Err(WalletNotFound); }
        return Ok(Created(wallets[existing.resourceID], false));
      }
      if w.id in wallets { return Err(DuplicateWallet); }
      wallets := wallets[w.id := w];
      idempotency := idempotency[key := r];
      out := Ok(Created(w, true));
    }

    method GetWallet(id: string, live: bool) returns (out: Result<Wallet, Error>)
      ensures out == if !live then Err(ContextDone)
                     else if id in View().wallets then Ok(View().wallets[id]) else Err(WalletNotFound)
    {
      if !live { return Err(ContextDone); }
      if id !in wallets { return Err(WalletNotFound); }
      out := Ok(wallets[id]);
    }

    method CreateTransaction(p: Record, live: bool) returns (out: Result<(), Error>)
      requires Valid()
      modifies `transactions, `rows, `repr
      ensures Valid() && old(repr) <= repr && fresh(repr - old(repr))
      ensures !live ==> out == Err(ContextDone) && rows == old(rows)
      ensures live ==>
        var (s, r) := StoreSpec.CreateTransaction(old(View()), old(Value(p)));
        View() == s && match r case Ok(_) => out == Ok(()) case Err(e) => out == Err(e)
    {
      if !live { return Err(ContextDone); }
      if p.id in transactions { return Err(DuplicateTransaction); }
      Put(p.id, p);
      out := Ok(());
    }

    method CreateTransactionIdempotently(p: Record, r: IdempotencyRecord, live: bool) returns (out: Result<Created<Record>, Error>)
      requires Valid()
      modifies `transactions, `rows, `repr, `idempotency
      ensures Valid() && old(repr) <= repr && fresh(repr - old(repr))
      ensures !live ==> out == Err(ContextDone) && View() == old(View())
      ensures live ==>
        var (s, o) := CreateTransactionOnce(old(View()), old(Value(p)), r);
        View() == s && match o
          case Ok(Created(q, isNew)) => out.Ok? && StandsFor(out.value.resource, q) && out.value.isNew == isNew
          case Err(e) => out == Err(e)
      ensures out.Ok? ==> Private(out.value.resource) && fresh(Tables(out.value.resource))
    {
      hide StandsFor, MadeFor, IdempotencyKey;
      ghost var v := Value(p);
      assert v.id == p.id;
      hide Value;
      if !live { return Err(ContextDone); }
      var key := IdempotencyKey(r.scope, r.key);
      if key in idempotency {
        var stored := GetTransaction(idempotency[key].resourceID, true);
        return if stored.Ok? then Ok(Created(stored.value, false)) else Err(stored.error);
      }
      if p.id in transactions { return Err(DuplicateTransaction); }
      var c := PutAndReturn(p.id, p);
      idempotency := idempotency[key := r];
      out := Ok(Created(c, true));
    }

    method AppendAuditEvent(e: AuditEvent, live: bool) returns (ok: bool)
      modifies `auditEvents
      ensures ok == live
      ensures View() == if live then Append(old(View()), e) else old(View())
    {
      ok := live;
      if live { auditEvents := auditEvents + [e]; }
    }

    /** Newest first, only the asked resource when one is named, at most the normalised limit. */
    method ListAuditEvents(resourceID: string, asked: int, live: bool) returns (out: Result<seq<AuditEvent>, Error>)
      ensures !live ==> out == Err(ContextDone)
      ensures live ==> out.Ok? && out.value == Newest(View().audit, resourceID, asked)
    {
      if !live { return Err(ContextDone); }
      var limit := asked;
      if limit <= 0 || limit > 200 { limit := 100; }
      var events: seq<AuditEvent> := [];
      var i := |auditEvents| - 1;
      var log := auditEvents;
      hide About, Reversed, Newest;
      NothingListed(log, resourceID);
      while i >= 0 && |events| < limit
        invariant -1 <= i < |log| && |events| <= limit
        invariant events == About(Reversed(log[i + 1..]), resourceID)
      {
        ReversedHead(log, i, resourceID);
        if !(resourceID != "" && log[i].resourceID != resourceID) { events := events + [log[i]]; }
        i := i - 1;
      }
      ListedIsNewest(log, i + 1, events, resourceID, asked);
      out := Ok(events);
    }
  }

  // ----- the specification of ListAuditEvents

  function Reversed(log: seq<AuditEvent>): seq<AuditEvent> {
    if log == [] then [] else Reversed(log[1..]) + [log[0]]
  }

  /** The events about a resource; the empty name asks for all. */
  function About(log: seq<AuditEvent>, resourceID: string): seq<AuditEvent> {
    if log == [] then []
    else
      var n := |log| - 1;
      if resourceID == "" || log[n].resourceID == resourceID then About(log[..n], resourceID) + [log[n]]
      else About(log[..n], resourceID)
  }

  function Limit(asked: int): nat { if 1 <= asked <= 200 then asked else 100 }

  function Newest(log: seq<AuditEvent>, resourceID: string, asked: int): seq<AuditEvent> {
    var all := About(Reversed(log), resourceID);
    if |all| <= Limit(asked) then all else all[..Limit(asked)]
  }

  lemma ReversedHead(log: seq<AuditEvent>, i: int, resourceID: string)
    requires 0 <= i < |log|
    ensures var e := log[i]; var newer := About(Reversed(log[i + 1..]), resourceID);
      About(Reversed(log[i..]), resourceID)
      == if resourceID == "" || e.resourceID == resourceID then newer + [e] else newer
  {
    assert log[i..][1..] == log[i + 1..];
    var r := Reversed(log[i..]);
    assert r[..|r| - 1] == Reversed(log[i + 1..]) && r[|r| - 1] == log[i];
  }

  /** The events of a newer part of the log come first. */
  lemma {:induction false} AboutSplits(log: seq<AuditEvent>, k: nat, resourceID: string)
    requires k <= |log|
    ensures About(Reversed(log[k..]), resourceID) <= About(Reversed(log), resourceID)
    ensures k == 0 ==> About(Reversed(log[k..]), resourceID) == About(Reversed(log), resourceID)
    decreases k
  {
    hide About, Reversed;
    if k == 0 {
      assert log[0..] == log;
    } else {
      AboutSplits(log, k - 1, resourceID);
      ReversedHead(log, k - 1, resourceID);
    }
  }

  lemma NothingListed(log: seq<AuditEvent>, resourceID: string)
    ensures About(Reversed(log[|log|..]), resourceID) == []
  {
    assert log[|log|..] == [];
  }

  /** What the loop has gathered when it stops, at the start of the log or at the limit. */
  lemma ListedIsNewest(log: seq<AuditEvent>, k: nat, events: seq<AuditEvent>, resourceID: string, asked: int)
    requires k <= |log| && events == About(Reversed(log[k..]), resourceID)
    requires |events| == Limit(asked) || (|events| <= Limit(asked) && k == 0)
    ensures events == Newest(log, resourceID, asked)
  {
    hide About, Reversed;
    AboutSplits(log, k, resourceID);
  }

  predicate Concerns(e: AuditEvent, resourceID: string) { resourceID == "" || e.resourceID == resourceID }

  /** The positions of the events that concern a resource, from `k` on, newest first. */
  lemma {:induction false} MatchesFrom(log: seq<AuditEvent>, k: nat, resourceID: string) returns (at: seq<nat>)
    requires k <= |log|
    ensures var all := About(Reversed(log[k..]), resourceID);
      |at| == |all| && forall i :: 0 <= i < |at| ==> k <= at[i] < |log| && all[i] == log[at[i]] && Concerns(log[at[i]], resourceID)
    ensures forall i, j :: 0 <= i < j < |at| ==> at[j] < at[i]
    ensures forall j :: k <= j < |log| && Concerns(log[j], resourceID) ==> j in at
    decreases |log| - k
  {
    hide About, Reversed;
    if k == |log| {
      at := [];
      NothingListed(log, resourceID);
    } else {
      var later := MatchesFrom(log, k + 1, resourceID);
      ReversedHead(log, k, resourceID);
      at := if Concerns(log[k], resourceID) then later + [k] else later;
      assert forall j :: j in later ==> j in at;
      assert Concerns(log[k], resourceID) ==> at[|at| - 1] == k;
    }
  }

  /** `out` lists the events at positions `at`, newest first, and all concern the resource. */
  ghost predicate Placed(log: seq<AuditEvent>, resourceID: string, out: seq<AuditEvent>, at: seq<nat>) {
    && |out| == |at|
    && (forall i :: 0 <= i < |at| ==> at[i] < |log| && out[i] == log[at[i]] && (resourceID == "" || out[i].resourceID == resourceID))
    && (forall i, j :: 0 <= i < j < |at| ==> at[j] < at[i])
  }

  /** What concerns the resource and is not listed is older than a full listing. */
  ghost predicate NoneSkipped(log: seq<AuditEvent>, resourceID: string, at: seq<nat>, limit: int) {
    forall k :: 0 <= k < |log| && (resourceID == "" || log[k].resourceID == resourceID) ==>
      k in at || (|at| == limit && forall i :: 0 <= i < |at| ==> k < at[i])
  }

  lemma Truncated(log: seq<AuditEvent>, resourceID: string, all: seq<AuditEvent>, places: seq<nat>, limit: nat)
    requires Placed(log, resourceID, all, places) && limit <= |all|
    requires forall k :: 0 <= k < |log| && (resourceID == "" || log[k].resourceID == resourceID) ==> k in places
    ensures Placed(log, resourceID, all[..limit], places[..limit]) && NoneSkipped(log, resourceID, places[..limit], limit)
  {
    var at := places[..limit];
    forall k | 0 <= k < |log| && (resourceID == "" || log[k].resourceID == resourceID)
      ensures k in at || (|at| == limit && forall i :: 0 <= i < |at| ==> k < at[i])
    {
      assert k in places;
      var i :| 0 <= i < |places| && places[i] == k;
      if i < limit { assert at[i] == k; }
    }
  }

  /**
   * The listing, position by position: newest first, only what concerns the resource, at most as many as
   * asked, or 100 if that is not between 1 and 200, and nothing left out but what is older than a full listing.
   */
  lemma NewestTells(log: seq<AuditEvent>, resourceID: string, asked: int) returns (at: seq<nat>)
    ensures var out := Newest(log, resourceID, asked); var limit := if 1 <= asked <= 200 then asked else 100;
      |out| <= limit && Placed(log, resourceID, out, at) && NoneSkipped(log, resourceID, at, limit)
  {
    var all := About(Reversed(log), resourceID);
    at := MatchesFrom(log, 0, resourceID);
    assert log[0..] == log;
    assert Placed(log, resourceID, all, at);
    var limit: nat := if 1 <= asked <= 200 then asked else 100;
    if |all| > limit {
      Truncated(log, resourceID, all, at, limit);
      at := at[..limit];
    }
    hide About, Reversed, Placed;
  }

  /** There is only one latest time, so the order of the loop does not matter. */
  lemma LatestUnique(t: Time, base: Time, approvals: map<string, Approval>)
    requires IsLatest(t, base, approvals)
    ensures t == Latest(base, approvals)
  {}

  // ----- aliasing over any sequence of calls

  /** One call of the store by any caller, with any record of its own and a live or dead context. */
  datatype Use =
    | Approving(id: string, approval: Approval, live: bool)
    | Marking(id: string, signed: SignedTx, live: bool)
    | Getting(id: string, live: bool)
    | Overwriting(q: Record, live: bool)
    | Creating(p: Record, live: bool)
    | CreatingOnce(p: Record, record: IdempotencyRecord, live: bool)

  /** Each record shares no table with the store, and still says what it said when it was handed out. */
  ghost predicate Undisturbed(store: MemoryStore, copies: map<Record, Proposal>)
    reads store, set r, o | r in copies && o in Tables(r) :: o
  {
    forall r :: r in copies ==> store.Private(r) && StandsFor(r, copies[r])
  }

  /** One call, and the record it hands out, if it does. */
  method Serve(store: MemoryStore, use: Use) returns (handed: Option<Record>)
    requires store.Valid()
    modifies store, store.repr
    ensures store.Valid() && old(store.repr) <= store.repr && fresh(store.repr - old(store.repr))
    ensures handed.Some? ==> store.Private(handed.value)
  {
    hide StandsFor, MadeFor, IdempotencyKey, Tables, RowsValid;
    var out: Result<Record, Error> := Err(ContextDone);
    match use {
      case Approving(id, a, live) => out := store.AddApproval(id, a, live);
      case Marking(id, signed, live) =>
        var marked := store.MarkTransactionSigned(id, signed, live);
        if marked.Ok? { out := Ok(marked.value.0); }
      case Getting(id, live) => out := store.GetTransaction(id, live);
      case Overwriting(q, live) => var _ := store.UpdateTransaction(q, live);
      case Creating(p, live) => var _ := store.CreateTransaction(p, live);
      case CreatingOnce(p, r, live) =>
        var created := store.CreateTransactionIdempotently(p, r, live);
        if created.Ok? { out := Ok(created.value.resource); }
    }
    handed := if out.Ok? then Some(out.value) else None;
  }

  /**
   * Over any sequence of calls, by any callers with any records, every copy held at the start or
   * handed out on the way goes on sharing no table with the store, and never changes.
   */
  method SnapshotsStay(store: MemoryStore, uses: seq<Use>, ghost held: map<Record, Proposal>)
    returns (ghost copies: map<Record, Proposal>, handed: seq<Record>)
    requires store.Valid() && Undisturbed(store, held)
    modifies store, store.repr
    ensures store.Valid() && Undisturbed(store, copies)
    ensures held.Keys <= copies.Keys && (forall r :: r in handed ==> r in copies)
    ensures forall r :: r in held ==> copies[r] == held[r]
  {
    hide Value, RowsValid;
    copies, handed := held, [];
    ghost var began := store.repr;
    for i := 0 to |uses|
      invariant store.Valid() && began <= store.repr && fresh(store.repr - began)
      invariant Undisturbed(store, copies)
      invariant held.Keys <= copies.Keys && (forall r :: r in handed ==> r in copies)
      invariant forall r :: r in held ==> copies[r] == held[r]
    {
      label before:
      var out := Serve(store, uses[i]);
      forall r | r in copies ensures store.Private(r) && StandsFor(r, copies[r]) {
        assert old@before(store.Private(r)) && old@before(StandsFor(r, copies[r]));
      }
      if out.Some? {
        handed := handed + [out.value];
        if out.value !in copies { copies := copies[out.value := Value(out.value)]; }
      }
    }
  }
}
