/**
 * The EVM adapter's nonce counter against the stored proposals, without RPC. Each successful build
 * for an address takes the next running number; the ledger says where each one ended up.
 */
module Nonces {
  import opened Types
  import opened Amounts
  import opened Setup
  import opened StoreSpec
  import opened Chains
  import opened Custody
  import opened Evolution
  import opened Creations

  /** Running number `k` of the payload's address is its own, and gave the payload its nonce. */
  ghost predicate Holds(l: Ledger, raw: Payload, k: nat, owner: Owner)
    requires raw.EvmPayload?
  {
    (raw.from, k) in l.owners && l.owners[(raw.from, k)] == owner && raw.nonce == k % TWO_64
  }

  ghost predicate CallHolds(s: System, c: Call)
    requires c in s.pending
  {
    s.pending[c].RequestBuilt? && s.pending[c].raw.EvmPayload? ==>
      Holds(s.ledger, s.pending[c].raw, s.pending[c].slot, InFlight(c))
  }

  ghost predicate RowHolds(s: System, id: string)
    requires id in Rows(s)
  {
    Rows(s)[id].raw.EvmPayload? ==>
      id in s.ledger.slots && Holds(s.ledger, Rows(s)[id].raw, s.ledger.slots[id], Stored(id))
  }

  /** The owner of a running number really has a payload with that address and number. */
  ghost predicate OwnerOK(s: System, a: string, k: nat, o: Owner) {
    match o
    case Stored(id) =>
      && id in Rows(s) && Rows(s)[id].raw.EvmPayload? && Rows(s)[id].raw.from == a
      && id in s.ledger.slots && s.ledger.slots[id] == k
    case InFlight(c) =>
      && c in s.pending && s.pending[c].RequestBuilt? && s.pending[c].raw.EvmPayload?
      && s.pending[c].raw.from == a && s.pending[c].slot == k
    case Discarded => true
  }

  /** Running number `k` of an address got nonce `k` modulo 2^64. */
  ghost predicate HandedOK(l: Ledger, a: string) {
    forall k :: 0 <= k < Builds(l, a) ==> Handed(l, a)[k] == k % TWO_64
  }

  ghost predicate LedgerInv(s: System) {
    && (forall a: string, k: nat :: (a, k) in s.ledger.owners <==> k < Builds(s.ledger, a))
    && (forall a :: Counter(s.world.nonces, a) == Builds(s.ledger, a) % TWO_64)
    && (forall a :: HandedOK(s.ledger, a))
    && (forall c :: c in s.pending ==> CallHolds(s, c))
    && (forall id :: id in Rows(s) ==> RowHolds(s, id))
    && (forall a: string, k: nat :: (a, k) in s.ledger.owners ==> OwnerOK(s, a, k, s.ledger.owners[(a, k)]))
  }

  // ----- steps that build and store nothing

  ghost predicate BuiltKept(s: System, t: System) {
    && (forall c :: c in t.pending && t.pending[c].RequestBuilt? ==> c in s.pending && s.pending[c] == t.pending[c])
    && (forall c :: c in s.pending && s.pending[c].RequestBuilt? ==> c in t.pending && s.pending[c] == t.pending[c])
  }

  lemma LedgerFrame(s: System, t: System)
    requires LedgerInv(s) && Evolves(s, t) && Rows(t).Keys == Rows(s).Keys
    requires t.ledger == s.ledger && t.world.nonces == s.world.nonces && BuiltKept(s, t)
    ensures LedgerInv(t)
  {
    hide Submap;
    assert forall id :: id in Rows(s) ==> RowEvolves(s, t, id);
    forall c | c in t.pending ensures CallHolds(t, c) {
      if t.pending[c].RequestBuilt? { assert CallHolds(s, c); }
    }
    forall id | id in Rows(t) ensures RowHolds(t, id) { assert RowHolds(s, id); }
    forall a: string, k: nat | (a, k) in t.ledger.owners ensures OwnerOK(t, a, k, t.ledger.owners[(a, k)]) {
      assert OwnerOK(s, a, k, s.ledger.owners[(a, k)]);
    }
  }

  // ----- BuildTransaction takes the next running number

  lemma IssueOwners(l: Ledger, raw: Payload, c: Call)
    requires forall a: string, k: nat :: (a, k) in l.owners <==> k < Builds(l, a)
    ensures var m := Issue(l, raw, c);
      forall a: string, k: nat :: (a, k) in m.owners <==> k < Builds(m, a)
  {}

  lemma ModSucc(x: nat)
    ensures (x % TWO_64 + 1) % TWO_64 == (x + 1) % TWO_64
  {
    var q, r := x / TWO_64, x % TWO_64;
    if r + 1 < TWO_64 {
      assert x + 1 == q * TWO_64 + (r + 1);
    } else {
      assert x + 1 == (q + 1) * TWO_64;
    }
  }

  lemma BumpCounts(l: Ledger, nonces: map<string, nat>, raw: Payload, c: Call)
    requires raw.EvmPayload?
    requires forall a :: Counter(nonces, a) == Builds(l, a) % TWO_64
    ensures forall a :: Counter(Bump(nonces, raw.from), a) == Builds(Issue(l, raw, c), a) % TWO_64
  {
    var n, m := Bump(nonces, raw.from), Issue(l, raw, c);
    forall a ensures Counter(n, a) == Builds(m, a) % TWO_64 {
      if a == raw.from {
        ModSucc(Builds(l, a));
      } else {
        assert Counter(n, a) == Counter(nonces, a) && Builds(m, a) == Builds(l, a);
      }
    }
  }

  /** The effect of a successful build of `raw` by call `c`. */
  ghost predicate Issued(s: System, t: System, raw: Payload, c: Call) {
    && Rows(t) == Rows(s) && t.ledger == Issue(s.ledger, raw, c)
    && c in s.pending && !s.pending[c].RequestBuilt?
    && t.pending.Keys == s.pending.Keys && (forall d :: d in s.pending && d != c ==> t.pending[d] == s.pending[d])
    && t.pending[c].RequestBuilt? && t.pending[c].raw == raw
    && (raw.EvmPayload? ==>
          t.pending[c].slot == Builds(s.ledger, raw.from) && raw.nonce == Builds(s.ledger, raw.from) % TWO_64)
    && (forall a: string, k: nat :: (a, k) in s.ledger.owners <==> k < Builds(s.ledger, a))
  }

  lemma IssueCall(s: System, t: System, raw: Payload, c: Call, d: Call)
    requires Issued(s, t, raw, c) && d in t.pending && CallHolds(s, d)
    ensures CallHolds(t, d)
  {}

  lemma IssueRow(s: System, t: System, raw: Payload, c: Call, id: string)
    requires Issued(s, t, raw, c) && id in Rows(t) && RowHolds(s, id)
    ensures RowHolds(t, id)
  {}

  lemma IssueHands(s: System, t: System, raw: Payload, c: Call, a: string)
    requires Issued(s, t, raw, c) && raw.EvmPayload? && HandedOK(s.ledger, a)
    ensures HandedOK(t.ledger, a)
  {
    var before, after := Handed(s.ledger, a), Handed(t.ledger, a);
    assert after == if a == raw.from then before + [raw.nonce] else before;
    forall k | 0 <= k < |after| ensures after[k] == k % TWO_64 {
      if k < |before| { assert before[k] == k % TWO_64; }
    }
  }

  lemma IssueOwner(s: System, t: System, raw: Payload, c: Call, a: string, k: nat)
    requires Issued(s, t, raw, c) && (a, k) in t.ledger.owners
    requires (a, k) in s.ledger.owners ==> OwnerOK(s, a, k, s.ledger.owners[(a, k)])
    ensures OwnerOK(t, a, k, t.ledger.owners[(a, k)])
  {}

  lemma IssuedLedger(s: System, t: System, raw: Payload, c: Call)
    requires LedgerInv(s) && Issued(s, t, raw, c)
    requires t.world.nonces == if raw.EvmPayload? then Bump(s.world.nonces, raw.from) else s.world.nonces
    ensures LedgerInv(t)
  {
    hide Holds, OwnerOK, CallHolds, RowHolds, Bump, Issue;
    IssueOwners(s.ledger, raw, c);
    if raw.EvmPayload? {
      BumpCounts(s.ledger, s.world.nonces, raw, c);
      forall a ensures HandedOK(t.ledger, a) { IssueHands(s, t, raw, c, a); }
    } else {
      assert t.ledger == s.ledger by { IssueNothing(s.ledger, raw, c); }
    }
    forall d | d in t.pending ensures CallHolds(t, d) { IssueCall(s, t, raw, c, d); }
    forall id | id in Rows(t) ensures RowHolds(t, id) { IssueRow(s, t, raw, c, id); }
    forall a: string, k: nat | (a, k) in t.ledger.owners ensures OwnerOK(t, a, k, t.ledger.owners[(a, k)]) {
      IssueOwner(s, t, raw, c, a, k);
    }
  }

  lemma IssueNothing(l: Ledger, raw: Payload, c: Call)
    requires !raw.EvmPayload?
    ensures Issue(l, raw, c) == l
  {}

  lemma BuildLedger(cfg: Config, s: System, c: Call, w: Wallet, r: Request, key: string, live: bool)
    requires LedgerInv(s) && c in s.pending && s.pending[c] == RequestLoaded(w, r, key)
    requires live && Build(cfg, s.world.nonces, w, r).1.Ok?
    ensures LedgerInv(DoBuildRaw(cfg, s, c, w, r, key, live))
  {
    hide EvmGuard, BitcoinGuard, ParseInt64, Holds, OwnerOK, CallHolds, RowHolds, Issue;
    var t := DoBuildRaw(cfg, s, c, w, r, key, live);
    var raw := Build(cfg, s.world.nonces, w, r).1.value;
    assert raw.EvmPayload? ==> raw.from == w.address && raw.nonce == Counter(s.world.nonces, w.address);
    IssuedLedger(s, t, raw, c);
  }

  // ----- CreateTransaction settles the running number, one way or the other

  /** Call `c` gives its number to `owner`: the new row when there is one. */
  ghost predicate Settled(s: System, t: System, c: Call, owner: Owner) {
    && c in s.pending && s.pending[c].RequestBuilt?
    && (c in t.pending ==> !t.pending[c].RequestBuilt?)
    && (forall d :: d in s.pending && d != c ==> d in t.pending && t.pending[d] == s.pending[d])
    && (forall d :: d in t.pending && d != c ==> d in s.pending)
    && var b := s.pending[c];
       && t.ledger.owners == Settle(s.ledger, b.raw, b.slot, owner).owners
       && t.ledger.handed == s.ledger.handed
       && match owner
          case Stored(id) =>
            && id !in Rows(s) && Rows(t).Keys == Rows(s).Keys + {id} && Rows(t)[id].raw == b.raw
            && (forall i :: i in Rows(s) ==> Rows(t)[i] == Rows(s)[i])
            && t.ledger.slots == s.ledger.slots[id := b.slot]
          case Discarded => Rows(t) == Rows(s) && t.ledger.slots == s.ledger.slots
          case InFlight(_) => false
  }

  lemma SettledCall(s: System, t: System, c: Call, owner: Owner, d: Call)
    requires Settled(s, t, c, owner) && CallHolds(s, c) && d in t.pending && (d in s.pending ==> CallHolds(s, d))
    ensures CallHolds(t, d)
  {}

  lemma SettledRow(s: System, t: System, c: Call, owner: Owner, id: string)
    requires Settled(s, t, c, owner) && CallHolds(s, c) && id in Rows(t) && (id in Rows(s) ==> RowHolds(s, id))
    ensures RowHolds(t, id)
  {}

  lemma SettledOwner(s: System, t: System, c: Call, owner: Owner, a: string, k: nat)
    requires Settled(s, t, c, owner) && CallHolds(s, c) && (a, k) in s.ledger.owners
    requires OwnerOK(s, a, k, s.ledger.owners[(a, k)])
    ensures (a, k) in t.ledger.owners && OwnerOK(t, a, k, t.ledger.owners[(a, k)])
  {}

  lemma SettledLedger(s: System, t: System, c: Call, owner: Owner)
    requires LedgerInv(s) && Settled(s, t, c, owner) && t.world.nonces == s.world.nonces
    ensures LedgerInv(t)
  {
    hide Holds, OwnerOK, RowHolds;
    assert CallHolds(s, c);
    assert t.ledger.owners.Keys == s.ledger.owners.Keys by { SettleKeys(s, c, owner); }
    hide CallHolds, Settled;
    forall a ensures Handed(t.ledger, a) == Handed(s.ledger, a) && HandedOK(t.ledger, a) { SettledBuilds(s, t, c, owner, a); }
    forall d | d in t.pending ensures CallHolds(t, d) { SettledCalls(s, t, c, owner, d); SettledCall(s, t, c, owner, d); }
    forall id | id in Rows(t) ensures RowHolds(t, id) { SettledRow(s, t, c, owner, id); }
    forall a: string, k: nat | (a, k) in t.ledger.owners ensures OwnerOK(t, a, k, t.ledger.owners[(a, k)]) {
      SettledOwner(s, t, c, owner, a, k);
    }
  }

  lemma SettleKeys(s: System, c: Call, owner: Owner)
    requires c in s.pending && s.pending[c].RequestBuilt? && CallHolds(s, c)
    ensures Settle(s.ledger, s.pending[c].raw, s.pending[c].slot, owner).owners.Keys == s.ledger.owners.Keys
  {}

  lemma SettledBuilds(s: System, t: System, c: Call, owner: Owner, a: string)
    requires Settled(s, t, c, owner) && HandedOK(s.ledger, a)
    ensures Handed(t.ledger, a) == Handed(s.ledger, a) && HandedOK(t.ledger, a)
  {}

  lemma SettledCalls(s: System, t: System, c: Call, owner: Owner, d: Call)
    requires Settled(s, t, c, owner) && d in t.pending
    ensures d in s.pending
  {}

  lemma StoreProposalLedger(s: System, c: Call, b: Creation, id: string, trace: map<string, string>, now: Time, live: bool)
    requires LedgerInv(s) && c in s.pending && s.pending[c] == b && b.RequestBuilt?
    ensures LedgerInv(DoStoreProposal(s, c, b, id, trace, now, live))
  {
    hide LedgerInv, IdempotencyKey, TransactionScope;
    var t := DoStoreProposal(s, c, b, id, trace, now, live);
    if Stores(s, b, id, live) {
      assert Rows(t) == Rows(s)[id := NewProposal(id, b.source, b.request, b.raw, trace, now)];
      SettledLedger(s, t, c, Stored(id));
    } else {
      SettledLedger(s, t, c, Discarded);
    }
  }

  // ----- every step

  /** The step builds and settles nothing. */
  ghost predicate Unbuilt(s: System, t: System) {
    && Rows(t).Keys == Rows(s).Keys && t.ledger == s.ledger && t.world.nonces == s.world.nonces
    && BuiltKept(s, t)
  }

  lemma KeyWalletUnbuilt(cfg: Config, s: System, c: Call, id: string, chain: Chain, key: string, generated: Key, now: Time)
    ensures Unbuilt(s, DoKeyWallet(cfg, s, c, id, chain, key, generated, now))
  {
    hide Registered, IsId;
    var t := DoKeyWallet(cfg, s, c, id, chain, key, generated, now);
    assert t.ledger == s.ledger && t.world.nonces == s.world.nonces && Rows(t) == Rows(s);
  }

  lemma StoreWalletUnbuilt(s: System, c: Call, w: Wallet, key: string, now: Time, live: bool)
    requires c in s.pending && !s.pending[c].RequestBuilt?
    ensures Unbuilt(s, DoStoreWallet(s, c, w, key, now, live))
  {
    hide IdempotencyKey, WalletScope;
    var t := DoStoreWallet(s, c, w, key, now, live);
    assert t.ledger == s.ledger && t.world.nonces == s.world.nonces;
    assert Rows(t) == Rows(s);
  }

  lemma LoadRequestUnbuilt(cfg: Config, s: System, c: Call, r: Request, key: string, live: bool)
    ensures Unbuilt(s, DoLoadRequest(cfg, s, c, r, key, live))
  {
    hide Registered, AmountAllowed;
  }

  lemma EndUnbuilt(s: System, c: Call, e: AuditEvent, live: bool)
    requires c in s.pending ==> !s.pending[c].RequestBuilt?
    ensures Unbuilt(s, EndCreation(Log(s, e, live), c))
  {}

  lemma BuildFailsUnbuilt(cfg: Config, s: System, c: Call, w: Wallet, r: Request, key: string, live: bool)
    requires c in s.pending && s.pending[c] == RequestLoaded(w, r, key)
    requires !(live && Build(cfg, s.world.nonces, w, r).1.Ok?)
    ensures Unbuilt(s, DoBuildRaw(cfg, s, c, w, r, key, live))
  {
    hide Build;
  }

  lemma CreationLedger(cfg: Config, s: System, x: Step)
    requires LedgerInv(s) && IsCreation(x)
    ensures LedgerInv(DoCreation(cfg, s, x)) || Unbuilt(s, DoCreation(cfg, s, x))
  {
    hide LedgerInv, Unbuilt, DoKeyWallet, DoLoadRequest, DoStoreWallet, DoBuildRaw, DoStoreProposal, EndCreation, Log, Build;
    if x.KeyWallet? {
      KeyWalletUnbuilt(cfg, s, x.c, x.id, x.chain, x.key, x.generated, x.now);
    } else if x.LoadRequest? {
      LoadRequestUnbuilt(cfg, s, x.c, x.request, x.key, x.live);
    } else if x.c in s.pending {
      var b := s.pending[x.c];
      match x
      case StoreWallet(c, now, live) => if b.WalletKeyed? { StoreWalletUnbuilt(s, c, b.wallet, b.key, now, live); }
      case BuildRaw(c, live) =>
        if b.RequestLoaded? {
          if live && Build(cfg, s.world.nonces, b.source, b.request).1.Ok? {
            BuildLedger(cfg, s, c, b.source, b.request, b.key, live);
          } else {
            BuildFailsUnbuilt(cfg, s, c, b.source, b.request, b.key, live);
          }
        }
      case StoreProposal(c, id, trace, now, live) => if b.RequestBuilt? { StoreProposalLedger(s, c, b, id, trace, now, live); }
      case AuditCreation(c, now, live) =>
        if b.WalletStored? {
          EndUnbuilt(s, c, AuditEvent(WalletCreated, "", b.wallet.id, b.wallet.chain, now), live);
        } else if b.ProposalStored? {
          EndUnbuilt(s, c, Event(TransactionProposed, "", b.proposal, now), live);
        }
      case _ =>
    }
  }

  lemma LedgerStepOK(cfg: Config, s: System, x: Step)
    requires LedgerInv(s) && Evolves(s, Do(cfg, s, x))
    ensures LedgerInv(Do(cfg, s, x))
  {
    hide LedgerInv, Evolves, DoCreation, DoCoSign, DoBroadcast;
    var t := Do(cfg, s, x);
    if IsCreation(x) {
      CreationLedger(cfg, s, x);
    } else {
      SigningKeeps(cfg, s, x);
    }
    if Unbuilt(s, t) {
      LedgerFrame(s, t);
    }
  }

  // ----- what the ledger says

  ghost function StoredFrom(s: System, a: string): set<string> {
    set id | id in Rows(s) && Rows(s)[id].raw.EvmPayload? && Rows(s)[id].raw.from == a
  }

  ghost function InFlightFrom(s: System, a: string): set<Call> {
    set c | c in s.pending && s.pending[c].RequestBuilt? && s.pending[c].raw.EvmPayload? && s.pending[c].raw.from == a
  }

  ghost function DiscardedFrom(l: Ledger, a: string): set<nat> {
    set k | k in Below(Builds(l, a)) && (a, k) in l.owners && l.owners[(a, k)].Discarded?
  }

  ghost function Below(n: nat): set<nat> {
    if n == 0 then {} else Below(n - 1) + {n - 1}
  }

  lemma {:induction false} BelowIs(n: nat)
    ensures |Below(n)| == n
    ensures forall k: nat :: k in Below(n) <==> k < n
  {
    if n > 0 { BelowIs(n - 1); }
  }

  /** An injective image has as many elements. */
  lemma {:induction false} ImageSize<A(!new), B>(xs: set<A>, ys: set<B>, f: map<A, B>)
    requires xs <= f.Keys
    requires forall x, y :: x in xs && y in xs && f[x] == f[y] ==> x == y
    requires ys == set x | x in xs :: f[x]
    ensures |ys| == |xs|
    decreases |xs|
  {
    if xs != {} {
      var x :| x in xs;
      var rest := set z | z in xs - {x} :: f[z];
      assert ys == rest + {f[x]};
      ImageSize(xs - {x}, rest, f);
    }
  }

  ghost function StoredNumbers(l: Ledger, a: string): set<nat> {
    set k | k in Below(Builds(l, a)) && (a, k) in l.owners && l.owners[(a, k)].Stored?
  }

  ghost function InFlightNumbers(l: Ledger, a: string): set<nat> {
    set k | k in Below(Builds(l, a)) && (a, k) in l.owners && l.owners[(a, k)].InFlight?
  }

  lemma StoredCount(s: System, a: string)
    requires LedgerInv(s)
    ensures |StoredNumbers(s.ledger, a)| == |StoredFrom(s, a)|
  {
    BelowIs(Builds(s.ledger, a));
    var ids, ks := StoredFrom(s, a), StoredNumbers(s.ledger, a);
    forall id | id in ids ensures RowHolds(s, id) {}
    var f := map id | id in ids :: s.ledger.slots[id];
    forall k | k in ks ensures exists id :: id in ids && f[id] == k {
      assert OwnerOK(s, a, k, s.ledger.owners[(a, k)]);
      var id := s.ledger.owners[(a, k)].id;
      assert id in ids && f[id] == k;
    }
    ImageSize(ids, ks, f);
  }

  lemma InFlightCount(s: System, a: string)
    requires LedgerInv(s)
    ensures |InFlightNumbers(s.ledger, a)| == |InFlightFrom(s, a)|
  {
    BelowIs(Builds(s.ledger, a));
    var cs, ks := InFlightFrom(s, a), InFlightNumbers(s.ledger, a);
    forall c | c in cs ensures CallHolds(s, c) {}
    var f := map c | c in cs :: s.pending[c].slot;
    forall k | k in ks ensures exists c :: c in cs && f[c] == k {
      assert OwnerOK(s, a, k, s.ledger.owners[(a, k)]);
      var c := s.ledger.owners[(a, k)].call;
      assert c in cs && f[c] == k;
    }
    ImageSize(cs, ks, f);
  }

  lemma Partition(l: Ledger, a: string)
    requires forall k: nat :: (a, k) in l.owners <==> k < Builds(l, a)
    ensures |StoredNumbers(l, a)| + |InFlightNumbers(l, a)| + |DiscardedFrom(l, a)| == Builds(l, a)
  {
    BelowIs(Builds(l, a));
    var x, y, z := StoredNumbers(l, a), InFlightNumbers(l, a), DiscardedFrom(l, a);
    forall k ensures k in Below(Builds(l, a)) <==> k in x || k in y || k in z {}
    Parts(Below(Builds(l, a)), x, y, z);
  }

  lemma Parts(all: set<nat>, x: set<nat>, y: set<nat>, z: set<nat>)
    requires (forall k :: k in all <==> k in x || k in y || k in z) && x !! y && x !! z && y !! z
    ensures |x| + |y| + |z| == |all|
  {
    assert all == x + y + z;
    assert |x + y| == |x| + |y|;
  }

  /** No nonce is lost or invented: each build is stored, still in flight, or was discarded. */
  lemma Conserved(s: System, a: string)
    requires LedgerInv(s)
    ensures |StoredFrom(s, a)| + |InFlightFrom(s, a)| + |DiscardedFrom(s.ledger, a)| == Builds(s.ledger, a)
    ensures Counter(s.world.nonces, a) == Builds(s.ledger, a) % TWO_64
  {
    StoredCount(s, a);
    InFlightCount(s, a);
    Partition(s.ledger, a);
  }

  /** While an address has had at most 2^64 builds, its stored proposals have distinct nonces. */
  lemma DistinctNonces(s: System, i: string, j: string)
    requires LedgerInv(s) && i in Rows(s) && j in Rows(s) && i != j
    requires Rows(s)[i].raw.EvmPayload? && Rows(s)[j].raw.EvmPayload? && Rows(s)[i].raw.from == Rows(s)[j].raw.from
    requires Builds(s.ledger, Rows(s)[i].raw.from) <= TWO_64
    ensures Rows(s)[i].raw.nonce != Rows(s)[j].raw.nonce
    ensures Rows(s)[i].raw.nonce < Builds(s.ledger, Rows(s)[i].raw.from)
  {
    assert RowHolds(s, i) && RowHolds(s, j);
  }

  /** The bound is exact: two nonces handed out for an address coincide if and only if it had more builds. */
  lemma RepeatsIff(s: System, a: string)
    requires LedgerInv(s)
    ensures (exists j, k :: 0 <= j < k < Builds(s.ledger, a) && Handed(s.ledger, a)[j] == Handed(s.ledger, a)[k])
            <==> Builds(s.ledger, a) > TWO_64
  {
    assert HandedOK(s.ledger, a);
    if Builds(s.ledger, a) > TWO_64 {
      assert Handed(s.ledger, a)[0] == Handed(s.ledger, a)[TWO_64];
    }
  }
}
