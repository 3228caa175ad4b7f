/**
  Register semantics (src/register.ts): per-key winner, owner, conflict frontier, reset generation and
  member set, folded over totally ordered entries while rows arrive in any order. The reference is one
  fold of every row in total order; the fold looks causal ancestors up in the whole store as it goes.
*/
module Registers {
  import opened HlcClock
  import opened Entries
  import opened Cuts

  datatype Policy = Lww | Fww | Resolver | Owned

  datatype Adopted = Adopted(id: EntryId, order: Order)

  datatype MemberState = MemberState(
    present: bool, head: Adopted, frontier: seq<EntryId>, superseded: seq<EntryId>)

  datatype RequestState = RequestState(
    entry: EntryId, requester: string, value: Json, at: Hlc, approvedBy: Option<EntryId>)

  datatype KeyState = KeyState(
    value: Option<Json>, scalar: bool, winner: Option<Adopted>, owner: Option<string>, resetGen: nat,
    members: map<string, MemberState>, frontier: seq<EntryId>, superseded: seq<EntryId>,
    requests: seq<RequestState>)

  type Keys = map<string, KeyState>

  const FreshKey: KeyState := KeyState(None, true, None, None, 0, map[], [], [], [])

  /**
    What the fold takes from outside: the topic's conflict policy per key, the (cached) verdict of the
    takeover verifier, JavaScript's String() of a payload value, and how a payload lists entry ids.
  */
  datatype Env = Env(
    policyFor: string -> Policy, takeoverOk: Entry -> bool, text: Json -> string, ids: Json -> seq<EntryId>)

  const ANCESTOR_WALK_CAP: nat := 1024

  // ---- payload access ----

  function Field(payload: Json, name: string): Option<Json>
  {
    if payload.JObject? && name in payload.fields then Some(payload.fields[name]) else None
  }

  function FieldText(env: Env, payload: Json, name: string): string
  {
    match Field(payload, name)
    case None => ""
    case Some(JNull) => ""
    case Some(j) => env.text(j)
  }

  function FieldIds(env: Env, payload: Json, name: string): seq<EntryId>
  {
    match Field(payload, name)
    case None => []
    case Some(JNull) => []
    case Some(j) => env.ids(j)
  }

  /** Boolean(payload[name]). */
  function FieldTruthy(payload: Json, name: string): bool
  {
    match Field(payload, name)
    case None => false
    case Some(JNull) => false
    case Some(JBool(b)) => b
    case Some(JNumber(n)) => n != 0
    case Some(JString(s)) => s != ""
    case Some(_) => true
  }

  // ---- causal ancestry ----

  /** getEntry(topic, writer, seq). */
  function Lookup(store: seq<Entry>, writer: string, seqNo: nat): Option<Entry>
  {
    if store == [] then None
    else if store[0].writer == writer && store[0].body.seqNo == seqNo then Some(store[0])
    else Lookup(store[1..], writer, seqNo)
  }

  function Walk(store: seq<Entry>, a: EntryId, cur: Option<Entry>, hops: nat): bool
    decreases hops
  {
    if hops == 0 || cur == None then false
    else
      match cur.value.body.causal
      case None => false
      case Some((w, n)) =>
        if w == a.writer && n == a.seqNo then true
        else Walk(store, a, Lookup(store, w, n), hops - 1)
  }

  /** Is `a` reached by walking e's causal chain, at most ANCESTOR_WALK_CAP hops? */
  predicate IsAncestor(store: seq<Entry>, a: EntryId, e: Entry)
  {
    Walk(store, a, Some(e), ANCESTOR_WALK_CAP)
  }

  // ---- the fold ----

  /** The heads that e does not supersede. */
  function Unsuperseded(store: seq<Entry>, frontier: seq<EntryId>, e: Entry): seq<EntryId>
  {
    if frontier == [] then []
    else (if IsAncestor(store, frontier[0], e) || frontier[0] == IdOf(e) then [] else [frontier[0]])
         + Unsuperseded(store, frontier[1..], e)
  }

  function FindId(ids: seq<EntryId>, id: EntryId): (i: nat)
    ensures i <= |ids| && (i < |ids| ==> ids[i] == id) && forall j | 0 <= j < i :: ids[j] != id
  {
    if ids == [] || ids[0] == id then 0 else 1 + FindId(ids[1..], id)
  }

  /** Move each named head from the frontier to the superseded list. */
  function ApplySupersedes(frontier: seq<EntryId>, superseded: seq<EntryId>, ids: seq<EntryId>):
    (seq<EntryId>, seq<EntryId>)
    decreases |ids|
  {
    if ids == [] then (frontier, superseded)
    else
      var i := FindId(frontier, ids[0]);
      if i < |frontier|
      then ApplySupersedes(frontier[..i] + frontier[i + 1..], superseded + [frontier[i]], ids[1..])
      else ApplySupersedes(frontier, superseded, ids[1..])
  }

  function FoldKeyWrite(store: seq<Entry>, ks: KeyState, e: Entry, policy: Policy, value: Option<Json>): KeyState
  {
    var adopt :=
      if ks.winner == None then true
      else if policy == Fww then IsAncestor(store, ks.winner.value.id, e)
      else OrderCompare(OrderOf(e), ks.winner.value.order) > 0;
    var ks1 := ks.(frontier := Unsuperseded(store, ks.frontier, e) + [IdOf(e)]);
    if !adopt then ks1
    else
      var ks2 := ks1.(winner := Some(Adopted(IdOf(e), OrderOf(e))));
      if e.body.kind == "del" then ks2.(value := None)
      else if value.Some? then ks2.(value := value)
      else ks2
  }

  function FoldMember(store: seq<Entry>, ms: MemberState, e: Entry, policy: Policy, present: bool): MemberState
  {
    var adopt :=
      if policy == Fww then IsAncestor(store, ms.head.id, e)
      else OrderCompare(OrderOf(e), ms.head.order) > 0;
    var ms1 := ms.(frontier := Unsuperseded(store, ms.frontier, e) + [IdOf(e)]);
    if adopt then ms1.(present := present, head := Adopted(IdOf(e), OrderOf(e))) else ms1
  }

  function FoldMemberOp(store: seq<Entry>, ks: KeyState, e: Entry, policy: Policy, member: string, present: bool): KeyState
  {
    var own := Adopted(IdOf(e), OrderOf(e));
    var ks1 :=
      if ks.winner == None || OrderCompare(OrderOf(e), ks.winner.value.order) > 0
      then ks.(winner := Some(own)) else ks;
    var ms :=
      if member in ks.members then FoldMember(store, ks.members[member], e, policy, present)
      else MemberState(present, own, [IdOf(e)], []);
    ks1.(members := ks.members[member := ms])
  }

  /** The first request whose entry is `ref` is approved by `approver`. */
  function MarkApproved(requests: seq<RequestState>, ref: EntryId, approver: EntryId): seq<RequestState>
  {
    if requests == [] then []
    else if requests[0].entry == ref then [requests[0].(approvedBy := Some(approver))] + requests[1..]
    else [requests[0]] + MarkApproved(requests[1..], ref, approver)
  }

  predicate OwnedWriteAllowed(ks: KeyState, e: Entry) { ks.owner == None || ks.owner == Some(e.writer) }

  function ClaimOwner(ks: KeyState, e: Entry, policy: Policy): KeyState
  {
    if policy == Owned && ks.owner == None then ks.(owner := Some(e.writer)) else ks
  }

  function FoldSet(env: Env, store: seq<Entry>, ks: KeyState, e: Entry, policy: Policy): KeyState
  {
    // a set on a member key replaces the whole member map
    var ks1 := if ks.scalar then ks else ks.(members := map[], resetGen := ks.resetGen + 1, scalar := true);
    var ks2 := FoldKeyWrite(store, ks1, e, policy, Field(e.body.payload, "value"));
    if e.body.ref.Some? then ks2.(requests := MarkApproved(ks2.requests, e.body.ref.value, IdOf(e))) else ks2
  }

  function FoldDel(store: seq<Entry>, ks: KeyState, e: Entry, policy: Policy): KeyState
  {
    FoldKeyWrite(store, ks.(members := map[], resetGen := ks.resetGen + 1, scalar := true), e, policy, None)
  }

  function FoldResolve(env: Env, store: seq<Entry>, ks: KeyState, e: Entry, policy: Policy): KeyState
  {
    var r := ApplySupersedes(ks.frontier, ks.superseded, FieldIds(env, e.body.payload, "supersedes"));
    FoldKeyWrite(store, ks.(frontier := r.0, superseded := r.1), e, policy, Field(e.body.payload, "value"))
  }

  function FoldAddRemove(env: Env, store: seq<Entry>, ks: KeyState, e: Entry, policy: Policy): KeyState
  {
    // a member op on a scalar-valued key clears the scalar
    var ks1 := if ks.scalar && ks.value.Some? then ks.(value := None, resetGen := ks.resetGen + 1) else ks;
    FoldMemberOp(store, ks1.(scalar := false), e, policy, FieldText(env, e.body.payload, "member"), e.body.kind == "add")
  }

  function SupersedeMember(env: Env, ks: KeyState, e: Entry, member: string): KeyState
  {
    if member in ks.members then
      var ms := ks.members[member];
      var r := ApplySupersedes(ms.frontier, ms.superseded, FieldIds(env, e.body.payload, "supersedes"));
      ks.(members := ks.members[member := ms.(frontier := r.0, superseded := r.1)])
    else ks
  }

  function FoldResolveMember(env: Env, store: seq<Entry>, ks: KeyState, e: Entry, policy: Policy): KeyState
  {
    var member := FieldText(env, e.body.payload, "member");
    FoldMemberOp(store, SupersedeMember(env, ks, e, member), e, policy, member, FieldTruthy(e.body.payload, "present"))
  }

  function FoldRequest(ks: KeyState, e: Entry): KeyState
  {
    var value := match Field(e.body.payload, "value") case None => JNull case Some(v) => v;
    ks.(requests := ks.requests + [RequestState(IdOf(e), e.writer, value, e.body.hlc, None)])
  }

  /** One entry on one key. */
  function FoldKey(env: Env, store: seq<Entry>, ks: KeyState, e: Entry, policy: Policy): KeyState
  {
    var kind := e.body.kind;
    var newOwner := FieldText(env, e.body.payload, "newOwner");
    var refused := policy == Owned && !OwnedWriteAllowed(ks, e);
    if kind == "request" then FoldRequest(ks, e)
    else if kind == "chown" then (if OwnedWriteAllowed(ks, e) then ks.(owner := Some(newOwner)) else ks)
    else if kind == "chown-takeover" then (if env.takeoverOk(e) then ks.(owner := Some(newOwner)) else ks)
    else if kind == "set" then (if refused then ks else ClaimOwner(FoldSet(env, store, ks, e, policy), e, policy))
    else if kind == "del" then (if refused then ks else ClaimOwner(FoldDel(store, ks, e, policy), e, policy))
    else if kind == "resolve" then FoldResolve(env, store, ks, e, policy)
    else if kind == "add" || kind == "remove" then
      (if refused then ks else ClaimOwner(FoldAddRemove(env, store, ks, e, policy), e, policy))
    else if kind == "resolve-member" then FoldResolveMember(env, store, ks, e, policy)
    else ks
  }

  /** One entry: a keyless entry is no register op; an unseen key starts fresh. */
  function FoldEntry(env: Env, store: seq<Entry>, keys: Keys, e: Entry): Keys
  {
    match e.body.key
    case None => keys
    case Some(key) =>
      var ks := if key in keys then keys[key] else FreshKey;
      keys[key := FoldKey(env, store, ks, e, env.policyFor(key))]
  }

  /** The reference: entries folded in the order given. */
  function FoldAll(env: Env, store: seq<Entry>, base: Keys, xs: seq<Entry>): Keys
  {
    if xs == [] then base
    else FoldEntry(env, store, FoldAll(env, store, base, xs[..|xs| - 1]), xs[|xs| - 1])
  }

  // ---- looking only backwards ----

  /** Writers and seqs name rows uniquely. */
  ghost predicate UniqueIds(store: seq<Entry>)
  {
    forall x, y | x in store && y in store && x.writer == y.writer && x.body.seqNo == y.body.seqNo :: x == y
  }

  ghost predicate PointsDown(store: seq<Entry>, x: Entry)
  {
    x.body.causal.Some? ==>
      forall y | y in store && y.writer == x.body.causal.value.0 && y.body.seqNo == x.body.causal.value.1 ::
        Before(OrderOf(y), OrderOf(x))
  }

  /** A causal pointer to a held row goes down the total order. */
  ghost predicate CausalDown(store: seq<Entry>)
  {
    forall x | x in store :: PointsDown(store, x)
  }

  ghost predicate Sound(store: seq<Entry>) { UniqueIds(store) && CausalDown(store) }

  /** Two stores hold the same rows at or below a place in the order. */
  ghost predicate AgreeUpTo(s1: seq<Entry>, s2: seq<Entry>, bound: Order)
  {
    forall x | UpTo(x, bound) :: x in s1 <==> x in s2
  }

  lemma {:induction false} LookupFinds(store: seq<Entry>, writer: string, seqNo: nat)
    ensures match Lookup(store, writer, seqNo)
            case Some(x) => x in store && x.writer == writer && x.body.seqNo == seqNo
            case None => forall x | x in store :: !(x.writer == writer && x.body.seqNo == seqNo)
  {
    if store != [] {
      LookupFinds(store[1..], writer, seqNo);
    }
  }

  /** A causal step from a row both stores hold lands on the same row in both. */
  lemma SameStep(s1: seq<Entry>, s2: seq<Entry>, bound: Order, x: Entry)
    requires Sound(s1) && Sound(s2) && AgreeUpTo(s1, s2, bound)
    requires x in s1 && UpTo(x, bound) && x.body.causal.Some?
    ensures var (w, n) := x.body.causal.value;
            && Lookup(s1, w, n) == Lookup(s2, w, n)
            && (Lookup(s1, w, n).Some? ==> Lookup(s1, w, n).value in s1 && UpTo(Lookup(s1, w, n).value, bound))
  {
    var (w, n) := x.body.causal.value;
    LookupFinds(s1, w, n);
    LookupFinds(s2, w, n);
    assert x in s2;
    assert PointsDown(s1, x) && PointsDown(s2, x);
    if Lookup(s1, w, n).Some? {
      UpToBelow(x, Lookup(s1, w, n).value, bound);
    }
    if Lookup(s2, w, n).Some? {
      UpToBelow(x, Lookup(s2, w, n).value, bound);
    }
  }

  lemma {:induction false} SameWalk(s1: seq<Entry>, s2: seq<Entry>, bound: Order, a: EntryId, cur: Option<Entry>, hops: nat)
    requires Sound(s1) && Sound(s2) && AgreeUpTo(s1, s2, bound)
    requires cur.Some? ==> cur.value in s1 && UpTo(cur.value, bound)
    ensures Walk(s1, a, cur, hops) == Walk(s2, a, cur, hops)
    decreases hops
  {
    if hops > 0 && cur.Some? && cur.value.body.causal.Some? {
      var (w, n) := cur.value.body.causal.value;
      SameStep(s1, s2, bound, cur.value);
      SameWalk(s1, s2, bound, a, Lookup(s1, w, n), hops - 1);
    }
  }

  lemma {:induction false} SameUnsuperseded(s1: seq<Entry>, s2: seq<Entry>, bound: Order, frontier: seq<EntryId>, e: Entry)
    requires Sound(s1) && Sound(s2) && AgreeUpTo(s1, s2, bound) && e in s1 && UpTo(e, bound)
    ensures Unsuperseded(s1, frontier, e) == Unsuperseded(s2, frontier, e)
  {
    if frontier != [] {
      SameWalk(s1, s2, bound, frontier[0], Some(e), ANCESTOR_WALK_CAP);
      SameUnsuperseded(s1, s2, bound, frontier[1..], e);
    }
  }

  /** The two stores give e the same ancestors. */
  ghost predicate SameAncestors(s1: seq<Entry>, s2: seq<Entry>, e: Entry)
  {
    && (forall a :: IsAncestor(s1, a, e) == IsAncestor(s2, a, e))
    && (forall frontier :: Unsuperseded(s1, frontier, e) == Unsuperseded(s2, frontier, e))
  }

  lemma SameKeyWrite(s1: seq<Entry>, s2: seq<Entry>, ks: KeyState, e: Entry, policy: Policy, value: Option<Json>)
    requires SameAncestors(s1, s2, e)
    ensures FoldKeyWrite(s1, ks, e, policy, value) == FoldKeyWrite(s2, ks, e, policy, value)
  {
    assert Unsuperseded(s1, ks.frontier, e) == Unsuperseded(s2, ks.frontier, e);
    if ks.winner.Some? {
      assert IsAncestor(s1, ks.winner.value.id, e) == IsAncestor(s2, ks.winner.value.id, e);
    }
  }

  lemma SameMemberOp(s1: seq<Entry>, s2: seq<Entry>, ks: KeyState, e: Entry, policy: Policy, member: string, present: bool)
    requires SameAncestors(s1, s2, e)
    ensures FoldMemberOp(s1, ks, e, policy, member, present) == FoldMemberOp(s2, ks, e, policy, member, present)
  {
    if member in ks.members {
      var ms := ks.members[member];
      assert Unsuperseded(s1, ms.frontier, e) == Unsuperseded(s2, ms.frontier, e);
      assert IsAncestor(s1, ms.head.id, e) == IsAncestor(s2, ms.head.id, e);
    }
  }

  lemma SameFoldKey(env: Env, s1: seq<Entry>, s2: seq<Entry>, ks: KeyState, e: Entry, policy: Policy)
    requires SameAncestors(s1, s2, e)
    ensures FoldKey(env, s1, ks, e, policy) == FoldKey(env, s2, ks, e, policy)
  {
    forall k: KeyState, value: Option<Json>
      ensures FoldKeyWrite(s1, k, e, policy, value) == FoldKeyWrite(s2, k, e, policy, value)
    {
      SameKeyWrite(s1, s2, k, e, policy, value);
    }
    forall k: KeyState, member: string, present: bool
      ensures FoldMemberOp(s1, k, e, policy, member, present) == FoldMemberOp(s2, k, e, policy, member, present)
    {
      SameMemberOp(s1, s2, k, e, policy, member, present);
    }
  }

  /** Folding an entry reads the store only at or below that entry. */
  lemma SameFoldEntry(env: Env, s1: seq<Entry>, s2: seq<Entry>, bound: Order, keys: Keys, e: Entry)
    requires Sound(s1) && Sound(s2) && AgreeUpTo(s1, s2, bound) && e in s1 && UpTo(e, bound)
    ensures FoldEntry(env, s1, keys, e) == FoldEntry(env, s2, keys, e)
  {
    hide Sound, AgreeUpTo, UpTo, FoldKey;
    forall frontier: seq<EntryId>
      ensures Unsuperseded(s1, frontier, e) == Unsuperseded(s2, frontier, e)
    {
      SameUnsuperseded(s1, s2, bound, frontier, e);
    }
    forall a: EntryId
      ensures IsAncestor(s1, a, e) == IsAncestor(s2, a, e)
    {
      SameWalk(s1, s2, bound, a, Some(e), ANCESTOR_WALK_CAP);
    }
    if e.body.key.Some? {
      var key := e.body.key.value;
      SameFoldKey(env, s1, s2, if key in keys then keys[key] else FreshKey, e, env.policyFor(key));
    }
  }

  lemma {:induction false} SameFoldAll(env: Env, s1: seq<Entry>, s2: seq<Entry>, bound: Order, base: Keys, xs: seq<Entry>)
    requires Sound(s1) && Sound(s2) && AgreeUpTo(s1, s2, bound)
    requires forall e | e in xs :: e in s1 && UpTo(e, bound)
    ensures FoldAll(env, s1, base, xs) == FoldAll(env, s2, base, xs)
  {
    if xs != [] {
      SameFoldAll(env, s1, s2, bound, base, xs[..|xs| - 1]);
      SameFoldEntry(env, s1, s2, bound, FoldAll(env, s1, base, xs[..|xs| - 1]), xs[|xs| - 1]);
    }
  }

  // ---- what a pass keeps ----

  /** A persisted fold floor: refolds start from these keys, with the rows above this place. */
  datatype Base = Base(keys: Keys, ord: Order)

  function BaseKeys(base: Option<Base>): Keys { if base == None then map[] else base.value.keys }

  function Floor(base: Option<Base>): Option<Order> { if base == None then None else Some(base.value.ord) }

  predicate Above(floor: Option<Order>, e: Entry) { floor == None || Before(floor.value, OrderOf(e)) }

  /** Folded rows are in order, held, and above the floor. */
  ghost predicate Held(folded: seq<Entry>, log: seq<LogRow>, floor: Option<Order>)
  {
    Sorted(folded) && forall e | e in folded :: e in EntriesOf(log) && Above(floor, e)
  }

  /** Every consumed row above the floor has been folded. */
  ghost predicate Consumed(folded: seq<Entry>, log: seq<LogRow>, lastRowid: nat, floor: Option<Order>)
  {
    forall r | r in log && r.rowid <= lastRowid && Above(floor, r.entry) :: r.entry in folded
  }

  /** No row still to be consumed lies at or below the watermark. */
  ghost predicate Clean(log: seq<LogRow>, lastRowid: nat, ord: Option<Order>)
  {
    forall r | r in log && r.rowid > lastRowid :: Above(ord, r.entry)
  }

  ghost predicate TopicOk(log: seq<LogRow>)
  {
    StoreOk(log) && Sound(EntriesOf(log)) && forall r | r in log :: r.rowid > 0
  }

  /** The rows a whole fold covers. */
  ghost function Target(log: seq<LogRow>, floor: Option<Order>): seq<Entry>
  {
    After(SortEntries(EntriesOf(log)), floor)
  }

  /** Nothing left to consume: the folded rows are all rows above the floor. */
  lemma NothingLeft(folded: seq<Entry>, log: seq<LogRow>, lastRowid: nat, floor: Option<Order>)
    requires TopicOk(log) && Held(folded, log, floor) && Consumed(folded, log, lastRowid, floor)
    requires forall r | r in log :: r.rowid <= lastRowid
    ensures folded == Target(log, floor)
  {
    var all := SortEntries(EntriesOf(log));
    SortSorts(EntriesOf(log));
    AfterSorted(all, floor);
    AfterMembers(all, floor);
    forall e | e in EntriesOf(log) && Above(floor, e)
      ensures e in folded
    {
      var i :| 0 <= i < |log| && EntriesOf(log)[i] == e;
      assert log[i] in log;
    }
    SortedUnique(folded, Target(log, floor));
  }

  lemma PageEmpty(log: seq<LogRow>, lastRowid: nat, limit: nat)
    requires limit > 0 && Page(log, lastRowid, limit) == []
    ensures forall r | r in log :: r.rowid <= lastRowid
  {
    RowsAfterMembers(log, lastRowid);
  }

  /** A batch wholly above the watermark extends what is folded; and a clean rest was clean before. */
  lemma NextBatch(folded: seq<Entry>, log: seq<LogRow>, lastRowid: nat, limit: nat, floor: Option<Order>)
    requires TopicOk(log) && Held(folded, log, floor) && Consumed(folded, log, lastRowid, floor)
    requires Page(log, lastRowid, limit) != []
    requires var batch := SortEntries(EntriesOf(Page(log, lastRowid, limit)));
             batch != [] ==> Above(Top(folded, floor), batch[0])
    ensures var page := Page(log, lastRowid, limit);
            var last := page[|page| - 1].rowid;
            var batch := SortEntries(EntriesOf(page));
            && batch != []
            && Held(folded + batch, log, floor) && Consumed(folded + batch, log, last, floor)
            && (Clean(log, last, LastOrder(batch)) ==> Clean(log, lastRowid, Top(folded, floor)))
  {
    BatchFacts(log, lastRowid, limit);
    BatchAbove(folded, log, lastRowid, limit, floor);
    BatchConsumed(folded, log, lastRowid, limit, floor);
    AppendSorted(folded, SortEntries(EntriesOf(Page(log, lastRowid, limit))));
  }

  lemma BatchConsumed(folded: seq<Entry>, log: seq<LogRow>, lastRowid: nat, limit: nat, floor: Option<Order>)
    requires TopicOk(log) && Consumed(folded, log, lastRowid, floor) && Page(log, lastRowid, limit) != []
    requires forall e | e in SortEntries(EntriesOf(Page(log, lastRowid, limit))) :: Above(Top(folded, floor), e)
    ensures var page := Page(log, lastRowid, limit);
            var last := page[|page| - 1].rowid;
            var batch := SortEntries(EntriesOf(page));
            && batch != []
            && Consumed(folded + batch, log, last, floor)
            && (Clean(log, last, LastOrder(batch)) ==> Clean(log, lastRowid, Top(folded, floor)))
  {
    hide Above, Before, Sound;
    var page := Page(log, lastRowid, limit);
    var last := page[|page| - 1].rowid;
    var batch := SortEntries(EntriesOf(page));
    BatchFacts(log, lastRowid, limit);
    PageMembers(log, lastRowid, limit);
    forall r | r in log && lastRowid < r.rowid <= last
      ensures r.entry in batch
    {
      InBatch(log, lastRowid, limit, r);
    }
    if Clean(log, last, LastOrder(batch)) {
      forall r | r in log && r.rowid > last
        ensures Above(Top(folded, floor), r.entry)
      {
        AboveLast(Top(folded, floor), batch, r.entry);
      }
    }
  }

  lemma AboveLast(floor: Option<Order>, batch: seq<Entry>, e: Entry)
    requires batch != [] && Above(floor, batch[|batch| - 1]) && Above(LastOrder(batch), e)
    ensures Above(floor, e)
  {
    AboveChain(floor, batch[|batch| - 1], e);
  }

  lemma InBatch(log: seq<LogRow>, lastRowid: nat, limit: nat, r: LogRow)
    requires StoreOk(log) && r in Page(log, lastRowid, limit)
    ensures r.entry in SortEntries(EntriesOf(Page(log, lastRowid, limit)))
  {
    var page := Page(log, lastRowid, limit);
    BatchFacts(log, lastRowid, limit);
    var i :| 0 <= i < |page| && page[i] == r;
    assert EntriesOf(page)[i] == r.entry;
  }

  lemma AboveChain(floor: Option<Order>, x: Entry, y: Entry)
    requires Above(floor, x) && Before(OrderOf(x), OrderOf(y))
    ensures Above(floor, y)
  {
    if floor.Some? {
      OrderTransitive(floor.value, OrderOf(x), OrderOf(y));
    }
  }

  lemma BatchHeld(log: seq<LogRow>, lastRowid: nat, limit: nat, e: Entry)
    requires StoreOk(log) && Page(log, lastRowid, limit) != [] && e in SortEntries(EntriesOf(Page(log, lastRowid, limit)))
    ensures e in EntriesOf(log)
  {
    var page := Page(log, lastRowid, limit);
    BatchFacts(log, lastRowid, limit);
    PageMembers(log, lastRowid, limit);
    hide Page, StoreOk, SortEntries;
    var i :| 0 <= i < |page| && EntriesOf(page)[i] == e;
    var j :| 0 <= j < |log| && log[j] == page[i];
    assert EntriesOf(log)[j] == e;
  }

  /** Every batch row is held, above the watermark and above the floor. */
  lemma BatchAbove(folded: seq<Entry>, log: seq<LogRow>, lastRowid: nat, limit: nat, floor: Option<Order>)
    requires TopicOk(log) && Held(folded, log, floor) && Page(log, lastRowid, limit) != []
    requires var batch := SortEntries(EntriesOf(Page(log, lastRowid, limit)));
             batch != [] ==> Above(Top(folded, floor), batch[0])
    ensures forall e | e in SortEntries(EntriesOf(Page(log, lastRowid, limit))) ::
              e in EntriesOf(log) && Above(Top(folded, floor), e) && Above(floor, e)
  {
    var batch := SortEntries(EntriesOf(Page(log, lastRowid, limit)));
    BatchFacts(log, lastRowid, limit);
    hide Page, SortEntries, EntriesOf, Sound, OrderOf, StoreOk;
    StoreFacts(log);
    forall e | e in batch
      ensures e in EntriesOf(log) && Above(Top(folded, floor), e) && Above(floor, e)
    {
      BatchHeld(log, lastRowid, limit, e);
      var k :| 0 <= k < |batch| && batch[k] == e;
      if k > 0 { AboveChain(Top(folded, floor), batch[0], e); }
      if folded != [] {
        assert folded[|folded| - 1] in folded;
        AboveChain(floor, folded[|folded| - 1], e);
      }
    }
  }

  /** New rows do not disturb a fold whose watermark they all lie above. */
  lemma CommitKeepsFold(env: Env, log: seq<LogRow>, more: LogRow, base: Option<Base>, folded: seq<Entry>, lastRowid: nat)
    requires TopicOk(log) && TopicOk(log + [more]) && Held(folded, log, Floor(base))
    requires more.rowid > lastRowid && Clean(log + [more], lastRowid, Top(folded, Floor(base)))
    ensures FoldAll(env, EntriesOf(log), BaseKeys(base), folded)
            == FoldAll(env, EntriesOf(log + [more]), BaseKeys(base), folded)
  {
    var s1, s2 := EntriesOf(log), EntriesOf(log + [more]);
    assert s2 == s1 + [more.entry];
    if folded != [] {
      var bound := OrderOf(folded[|folded| - 1]);
      assert Above(Some(bound), more.entry) by { assert (log + [more])[|log|] == more; }
      forall e | e in folded
        ensures UpTo(e, bound)
      {
        var i :| 0 <= i < |folded| && folded[i] == e;
        OrderTotal(bound, OrderOf(e));
      }
      SameFoldAll(env, s1, s2, bound, BaseKeys(base), folded);
    }
  }

  // ---- snapshots of the state ----

  /** What a snapshot says of a member; an empty list is left out. */
  datatype MemberSnap = MemberSnap(present: bool, head: Adopted, frontier: Option<seq<EntryId>>, superseded: Option<seq<EntryId>>)

  datatype KeySnap = KeySnap(
    value: Option<Json>, winner: Adopted, owner: Option<string>, resetGen: nat, members: Option<map<string, MemberSnap>>,
    frontier: seq<EntryId>, superseded: Option<seq<EntryId>>)

  type Snapshot = map<string, KeySnap>

  function Listed(ids: seq<EntryId>): Option<seq<EntryId>> { if ids == [] then None else Some(ids) }

  function SnapMember(ms: MemberState): MemberSnap { MemberSnap(ms.present, ms.head, Listed(ms.frontier), Listed(ms.superseded)) }

  function SnapKey(ks: KeyState): KeySnap
    requires ks.winner.Some?
  {
    KeySnap(
      if ks.scalar then ks.value else None, ks.winner.value, ks.owner, ks.resetGen,
      if ks.members == map[] then None else Some(map m | m in ks.members :: SnapMember(ks.members[m])), ks.frontier, Listed(ks.superseded))
  }

  /** snapshotOf: keys without a winner are left out. */
  function SnapshotOf(keys: Keys): Snapshot { map k | k in keys && keys[k].winner.Some? :: SnapKey(keys[k]) }

  function RestoreMember(mm: MemberSnap): MemberState
  {
    MemberState(mm.present, mm.head, if mm.frontier.Some? then mm.frontier.value else [mm.head.id],
                if mm.superseded.Some? then mm.superseded.value else [])
  }

  function RestoreKey(k: KeySnap): KeyState
  {
    var members := match k.members case None => map[] case Some(ms) => map m | m in ms :: RestoreMember(ms[m]);
    KeyState(k.value, members == map[], Some(k.winner), k.owner, k.resetGen, members, k.frontier,
             if k.superseded.Some? then k.superseded.value else [], [])
  }

  function KeysFromSnapshot(snap: Snapshot): Keys { map k | k in snap :: RestoreKey(snap[k]) }

  /** A base as it is saved. */
  datatype Saved = Saved(snap: Snapshot, ord: Order)

  function Restored(saved: Option<Saved>): Option<Base>
  {
    if saved == None then None else Some(Base(KeysFromSnapshot(saved.value.snap), saved.value.ord))
  }

  /** The base that a rebase at a cut leaves. */
  ghost function Rebase(env: Env, log: seq<LogRow>, base: Option<Base>, at: Order): Base
  {
    Base(KeysFromSnapshot(SnapshotOf(KeysAt(env, log, base, at))), at)
  }

  /** What comes back from a snapshot as it went in. */
  predicate Carried(ks: KeyState)
  {
    && ks.winner.Some? && ks.requests == [] && (ks.scalar <==> ks.members == map[]) && (ks.value.Some? ==> ks.scalar)
    && forall m | m in ks.members :: ks.members[m].frontier != []
  }

  predicate AllCarried(keys: Keys) { forall k | k in keys :: Carried(keys[k]) }

  lemma MemberCarriedIff(ms: MemberState)
    ensures RestoreMember(SnapMember(ms)) == ms <==> ms.frontier != []
  {
  }

  lemma KeyCarriedIff(ks: KeyState)
    requires ks.winner.Some?
    ensures RestoreKey(SnapKey(ks)) == ks <==> Carried(ks)
  {
    var back := RestoreKey(SnapKey(ks));
    forall m | m in ks.members
      ensures m in back.members && (back.members[m] == ks.members[m] <==> ks.members[m].frontier != [])
    {
      MemberCarriedIff(ks.members[m]);
    }
    assert back.members.Keys == ks.members.Keys;
    assert (ks.members == map[]) == (ks.members.Keys == {});
    if Carried(ks) { assert back.members == ks.members; }
  }

  /** What comes back of a key with a winner: its requests are gone, its value unless it was a scalar, and a member without heads has its row for one. */
  lemma RestoredKey(ks: KeyState)
    requires ks.winner.Some?
    ensures var back := RestoreKey(SnapKey(ks));
            && back.winner == ks.winner && back.owner == ks.owner && back.resetGen == ks.resetGen && back.frontier == ks.frontier
            && back.superseded == ks.superseded && back.requests == []
            && back.value == (if ks.scalar then ks.value else None) && (back.scalar <==> ks.members == map[]) && back.members.Keys == ks.members.Keys
            && forall m | m in ks.members :: back.members[m] == if ks.members[m].frontier == [] then ks.members[m].(frontier := [ks.members[m].head.id]) else ks.members[m]
  {
    var back := RestoreKey(SnapKey(ks));
    assert back.members.Keys == ks.members.Keys;
    assert (ks.members == map[]) == (ks.members.Keys == {});
  }

  /** Exactly when a snapshot carries the whole state: when it carries every key. */
  lemma CarriedIff(keys: Keys)
    ensures KeysFromSnapshot(SnapshotOf(keys)) == keys <==> AllCarried(keys)
  {
    hide Carried, RestoreKey, SnapKey;
    var back := KeysFromSnapshot(SnapshotOf(keys));
    forall k | k in keys && keys[k].winner.Some?
      ensures k in back && (back[k] == keys[k] <==> Carried(keys[k]))
    {
      KeyCarriedIff(keys[k]);
    }
    CarriedWinner();
    if AllCarried(keys) { assert back.Keys == keys.Keys; }
    if back == keys { assert back.Keys == keys.Keys; }
  }

  lemma CarriedWinner()
    ensures forall ks: KeyState | Carried(ks) :: ks.winner.Some?
  {
  }

  // ---- the code ----

  class RegisterTopic {
    const env: Env
    const ownWriter: string
    const foldBatch: nat

    /** The state refolds start from: restored from a snapshot, or none. */
    var base: Option<Base>
    var log: seq<LogRow>
    var keys: Keys
    var ord: Option<Order>
    var lastRowid: nat
    /** Own uncommitted tail per causal scope: the seq of the newest own write not yet materialized. */
    var scopeTails: map<string, nat>

    /** The base `keys` was folded from, and the rows folded, in order. */
    ghost var from: Option<Base>
    ghost var folded: seq<Entry>

    ghost predicate Valid()
      reads this
    {
      && foldBatch > 0 && TopicOk(log)
      && Held(folded, log, Floor(from)) && Consumed(folded, log, lastRowid, Floor(from))
      && ord == Top(folded, Floor(from))
      && (Clean(log, lastRowid, ord) ==> keys == FoldAll(env, EntriesOf(log), BaseKeys(from), folded))
    }

    /** Every committed row has been consumed. */
    ghost predicate CaughtUp()
      reads this`log, this`lastRowid
    {
      forall r | r in log :: r.rowid <= lastRowid
    }

    /** Every own tail is newer than every own row folded. */
    ghost predicate TailsOk()
      reads this`scopeTails, this`folded
    {
      forall scope, e | scope in scopeTails && e in folded && e.writer == ownWriter :: scopeTails[scope] > e.body.seqNo
    }

    /** Opened over what was stored: the rows, and the base as it was saved. */
    constructor (env: Env, ownWriter: string, foldBatch: nat, saved: Option<Saved>, log: seq<LogRow>)
      requires foldBatch > 0 && TopicOk(log)
      ensures Valid() && TailsOk() && this.log == log && this.env == env && this.ownWriter == ownWriter
      ensures base == from == Restored(saved)
    {
      this.env, this.ownWriter, this.foldBatch, this.base, this.log := env, ownWriter, foldBatch, Restored(saved), log;
      from, keys, ord := Restored(saved), BaseKeys(Restored(saved)), Floor(Restored(saved));
      lastRowid, scopeTails, folded := 0, map[], [];
    }

    /** A row is committed between passes. */
    method Commit(r: LogRow)
      requires Valid() && r.rowid > lastRowid && TopicOk(log + [r])
      modifies this`log
      ensures Valid() && log == old(log) + [r]
    {
      ghost var was := log;
      log := log + [r];
      assert EntriesOf(log) == EntriesOf(was) + [r.entry];
      if Clean(log, lastRowid, ord) {
        assert Clean(was, lastRowid, ord) by {
          forall x | x in was ensures x in log { }
        }
        CommitKeepsFold(env, was, r, from, folded, lastRowid);
      }
    }

    /** The causal pointer of an own write given its seq at commit: the own uncommitted tail, else what is materialized. */
    method StampCausal(scope: string, materialized: Option<(string, nat)>, seqNo: nat) returns (causal: Option<(string, nat)>)
      requires TailsOk() && forall e | e in folded && e.writer == ownWriter :: e.body.seqNo < seqNo
      modifies this`scopeTails
      ensures TailsOk() && scopeTails == old(scopeTails)[scope := seqNo]
      ensures causal == if scope in old(scopeTails) then Some((ownWriter, old(scopeTails)[scope])) else materialized
    {
      causal := if scope in scopeTails then Some((ownWriter, scopeTails[scope])) else materialized;
      scopeTails := scopeTails[scope := seqNo];
    }

    /** fold, live mode: one row into the keys; an own row retires the tails it covers. */
    method Fold(e: Entry)
      modifies this`keys, this`ord, this`scopeTails, this`folded
      ensures keys == FoldEntry(env, EntriesOf(log), old(keys), e)
      ensures ord == Some(OrderOf(e)) && folded == old(folded) + [e]
      ensures scopeTails == TailsAfter(ownWriter, old(scopeTails), e)
      ensures old(TailsOk()) ==> TailsOk()
    {
      ord := Some(OrderOf(e));
      if e.writer == ownWriter {
        scopeTails := map scope | scope in scopeTails && scopeTails[scope] > e.body.seqNo :: scopeTails[scope];
      }
      keys := FoldEntry(env, EntriesOf(log), keys, e);
      folded := folded + [e];
    }

    method FoldRows(xs: seq<Entry>)
      modifies this`keys, this`ord, this`scopeTails, this`folded
      ensures folded == old(folded) + xs
      ensures ord == if xs == [] then old(ord) else LastOrder(xs)
      ensures old(TailsOk()) ==> TailsOk()
      ensures (old(keys) == FoldAll(env, EntriesOf(log), BaseKeys(from), old(folded))) ==>
                keys == FoldAll(env, EntriesOf(log), BaseKeys(from), folded)
    {
      ghost var right := keys == FoldAll(env, EntriesOf(log), BaseKeys(from), folded);
      ghost var start := folded;
      var i := 0;
      while i < |xs|
        invariant 0 <= i <= |xs| && folded == start + xs[..i]
        invariant ord == if i == 0 then old(ord) else Some(OrderOf(xs[i - 1]))
        invariant old(TailsOk()) ==> TailsOk()
        invariant right ==> keys == FoldAll(env, EntriesOf(log), BaseKeys(from), folded)
      {
        ghost var was := folded;
        Fold(xs[i]);
        assert folded[..|folded| - 1] == was;
        i := i + 1;
      }
      assert xs[..i] == xs;
    }

    /** Start over from the base and fold every held row above it in total order, page by page. */
    method Refold()
      requires foldBatch > 0 && StoreOk(log)
      modifies this`keys, this`ord, this`scopeTails, this`folded, this`from
      ensures from == base && folded == Target(log, Floor(base)) && ord == Top(folded, Floor(base)) && TailsOk()
      ensures keys == FoldAll(env, EntriesOf(log), BaseKeys(base), folded)
    {
      hide *;
      from, keys, ord, folded := base, BaseKeys(base), Floor(base), [];
      FromBase(env, log, base);
      NothingFolded();
      ghost var all := SortEntries(EntriesOf(log));
      var cursor := ord;
      var batch := Take(After(SortEntries(EntriesOf(log)), cursor), foldBatch);
      while batch != []
        invariant from == base && cursor == ord && ord == Top(folded, Floor(base)) && TailsOk()
        invariant folded + After(all, cursor) == Target(log, Floor(base))
        invariant batch == Take(After(all, cursor), foldBatch)
        invariant keys == FoldAll(env, EntriesOf(log), BaseKeys(base), folded)
        decreases |After(all, cursor)|
      {
        PageAdvance(all, cursor, foldBatch, folded);
        TopAfter(folded, batch, Floor(base));
        FoldRows(batch);
        cursor := ord;
        batch := Take(After(SortEntries(EntriesOf(log)), cursor), foldBatch);
      }
      EmptyPage(After(all, cursor), foldBatch);
    }

    lemma NothingFolded()
      requires folded == []
      ensures TailsOk()
    {
    }

    /** A late arrival: refold in total order from the base. */
    method RefoldLate()
      requires foldBatch > 0 && TopicOk(log)
      modifies this`keys, this`ord, this`lastRowid, this`scopeTails, this`folded, this`from
      ensures Valid() && TailsOk() && CaughtUp() && from == base && folded == Target(log, Floor(base))
      ensures keys == FoldAll(env, EntriesOf(log), BaseKeys(base), folded)
    {
      hide Sound, Held, Consumed, FoldAll, SortEntries, TailsOk, BaseKeys, Target, EntriesOf;
      Refold();
      lastRowid := MaxRowid(log);
      Refolded(log, Floor(base));
    }

    /** The next batch of rows, all above the watermark. */
    method FoldBatch(rows: seq<LogRow>, sorted: seq<Entry>)
      requires Valid() && TailsOk() && rows == Page(log, lastRowid, foldBatch) != [] && sorted == SortEntries(EntriesOf(rows))
      requires sorted != [] && Above(ord, sorted[0])
      modifies this`keys, this`ord, this`lastRowid, this`scopeTails, this`folded
      ensures Valid() && TailsOk() && lastRowid == rows[|rows| - 1].rowid
    {
      hide StoreOk, Held, Consumed, FoldAll, Page, SortEntries, TailsOk, BaseKeys, Sorted, After, EntriesOf, OrderOf;
      StoreOfTopic();
      NextBatch(folded, log, lastRowid, foldBatch, Floor(from));
      FoldRows(sorted);
      lastRowid := rows[|rows| - 1].rowid;
    }

    lemma StoreOfTopic()
      requires TopicOk(log)
      ensures StoreOk(log)
    {
    }

    /**
      Consume every committed row. Afterwards the keys are one fold, from the base they started from (the present
      one after a late arrival), of every row above it in total order, whatever order and batches the rows came in;
      and no scope tail names an own row that has been folded.
    */
    method Materialize()
      requires Valid() && TailsOk()
      modifies this`keys, this`ord, this`lastRowid, this`scopeTails, this`folded, this`from
      ensures Valid() && TailsOk() && CaughtUp() && folded == Target(log, Floor(from)) && (from == old(from) || from == base)
      ensures keys == FoldAll(env, EntriesOf(log), BaseKeys(from), Target(log, Floor(from)))
    {
      hide StoreOk, TopicOk, Held, Consumed, FoldAll, Page, SortEntries, TailsOk, BaseKeys, Sorted, RowsAfter, After, Target;
      while true
        invariant Valid() && TailsOk() && from == old(from)
        decreases |RowsAfter(log, lastRowid)|
      {
        var rows := Page(log, lastRowid, foldBatch);
        if rows == [] {
          PageEmpty(log, lastRowid, foldBatch);
          NothingLeft(folded, log, lastRowid, Floor(from));
          return;
        }
        StoreFacts(log);
        BatchFacts(log, lastRowid, foldBatch);
        var sorted := SortEntries(EntriesOf(rows));
        var first := sorted[0];
        if ord.Some? && OrderCompare(OrderOf(first), ord.value) <= 0 {
          RefoldLate();
          return;
        }
        NotLate(ord, first);
        FoldBatch(rows, sorted);
      }
    }

    /** Fold the rows of a page up to a place; answers how many those were. */
    method FoldThrough(start: Keys, page: seq<Entry>, at: Order, ghost from: Keys, ghost done: seq<Entry>) returns (out: Keys, n: nat)
      requires start == FoldAll(env, EntriesOf(log), from, done)
      ensures n <= |page| && (forall x | x in page[..n] :: UpTo(x, at)) && (n < |page| ==> !UpTo(page[n], at))
      ensures out == FoldAll(env, EntriesOf(log), from, done + page[..n])
    {
      hide FoldEntry, EntriesOf, FoldAll, UpTo, OrderCompare, OrderOf, Before;
      out, n := start, 0;
      assert done + page[..0] == done;
      while n < |page|
        invariant n <= |page| && forall x | x in page[..n] :: UpTo(x, at)
        invariant out == FoldAll(env, EntriesOf(log), from, done + page[..n])
      {
        PastPlace(page[n], at);
        if OrderCompare(OrderOf(page[n]), at) > 0 { return; }
        assert page[..n + 1] == page[..n] + [page[n]];
        assert done + page[..n + 1] == (done + page[..n]) + [page[n]];
        FoldSnoc(env, EntriesOf(log), from, done + page[..n], page[n]);
        out := FoldEntry(env, EntriesOf(log), out, page[n]);
        n := n + 1;
      }
    }

    /** The register at a place in the total order: a fold bounded by it, from the base when that is not above it. */
    method KeysThrough(at: Order) returns (out: Keys, place: Option<Order>)
      requires TopicOk(log)
      ensures out == KeysAt(env, log, base, at)
      ensures place == Top(RowsAt(log, base, at), Floor(BaseAt(base, at)))
    {
      ghost var all, target, floor := SortEntries(EntriesOf(log)), RowsAt(log, base, at), Floor(BaseAt(base, at));
      ghost var done := [];
      out, place := BaseKeys(BaseAt(base, at)), Floor(BaseAt(base, at));
      SortSorts(EntriesOf(log));
      assert PartWay(all, floor, target, at, done, place);
      assert out == FoldAll(env, EntriesOf(log), BaseKeys(BaseAt(base, at)), done);
      assert KeysAt(env, log, base, at) == FoldAll(env, EntriesOf(log), BaseKeys(BaseAt(base, at)), target);
      hide *;
      while true
        invariant PartWay(all, floor, target, at, done, place)
        invariant out == FoldAll(env, EntriesOf(log), BaseKeys(BaseAt(base, at)), done)
        decreases |After(all, place)|
      {
        var page := Take(After(SortEntries(EntriesOf(log)), place), STATE_PAGE);
        if page == [] {
          Finished(all, floor, target, at, done, place, STATE_PAGE);
          return;
        }
        var n;
        out, n := FoldThrough(out, page, at, BaseKeys(BaseAt(base, at)), done);
        PageThrough(all, floor, target, at, done, place, STATE_PAGE, n);
        done := done + page[..n];
        if n < |page| {
          if n > 0 { place := Some(OrderOf(page[n - 1])); }
          return;
        }
        place := LastOrder(page);
      }
    }

    /** stateAt: what a snapshot holds of that state. */
    method StateAt(at: Order) returns (snap: Snapshot)
      requires TopicOk(log)
      ensures snap == SnapshotOf(KeysAt(env, log, base, at))
    {
      hide *;
      var out, _ := KeysThrough(at);
      snap := SnapshotOf(out);
    }

    /** rebaseAtCut: the state at the cut becomes the base, as it comes back from its snapshot. Nothing folded so far changes. */
    method RebaseAtCut(at: Order) returns (saved: Saved)
      requires Valid()
      modifies this`base
      ensures Valid() && saved == Saved(SnapshotOf(KeysAt(env, log, old(base), at)), at)
      ensures base == Restored(Some(saved)) == Some(Rebase(env, log, old(base), at))
    {
      var snap := StateAt(at);
      saved := Saved(snap, at);
      base := Restored(Some(saved));
    }
  }

  /** Rows read at a time by stateAt. */
  const STATE_PAGE: nat := 500

  /** A base above the place asked for is of no use. */
  function BaseAt(base: Option<Base>, at: Order): Option<Base>
  {
    if base.Some? && OrderCompare(base.value.ord, at) <= 0 then base else None
  }

  /** The rows the state at a place is folded from. */
  ghost function RowsAt(log: seq<LogRow>, base: Option<Base>, at: Order): seq<Entry>
  {
    Through(Target(log, Floor(BaseAt(base, at))), at)
  }

  /** The register at a place in the total order. */
  ghost function KeysAt(env: Env, log: seq<LogRow>, base: Option<Base>, at: Order): Keys
  {
    FoldAll(env, EntriesOf(log), BaseKeys(BaseAt(base, at)), RowsAt(log, base, at))
  }

  /** The rows of a state are exactly the held rows above the base and at or below the place, in order. */
  lemma RowsAtMembers(log: seq<LogRow>, base: Option<Base>, at: Order)
    requires TopicOk(log)
    ensures Sorted(RowsAt(log, base, at))
    ensures forall e :: e in RowsAt(log, base, at) <==> e in EntriesOf(log) && Above(Floor(BaseAt(base, at)), e) && UpTo(e, at)
  {
    var all, floor := SortEntries(EntriesOf(log)), Floor(BaseAt(base, at));
    SortSorts(EntriesOf(log));
    AfterSorted(all, floor);
    AfterMembers(all, floor);
    ThroughMembers(Target(log, floor), at);
  }

  /** What a node holds above a cut does not show in the state at the cut: holding the same rows up to it is enough. */
  lemma CutsAgree(env: Env, base: Option<Base>, a: seq<LogRow>, b: seq<LogRow>, at: Order)
    requires TopicOk(a) && TopicOk(b) && AgreeUpTo(EntriesOf(a), EntriesOf(b), at)
    ensures KeysAt(env, a, base, at) == KeysAt(env, b, base, at)
  {
    RowsAtMembers(a, base, at);
    RowsAtMembers(b, base, at);
    hide RowsAt, FoldAll, Above, Sorted, Sound, StoreOk, UpTo;
    SortedUnique(RowsAt(a, base, at), RowsAt(b, base, at));
    SameFoldAll(env, EntriesOf(a), EntriesOf(b), at, BaseKeys(BaseAt(base, at)), RowsAt(a, base, at));
  }

  lemma BaseBelowTop(log: seq<LogRow>, base: Option<Base>, at: Order)
    requires Top(Target(log, Floor(base)), Floor(base)) == Some(at)
    ensures BaseAt(base, at) == base
  {
    var xs := Target(log, Floor(base));
    AfterMembers(SortEntries(EntriesOf(log)), Floor(base));
    hide SortEntries, EntriesOf, After, OrderOf;
    if base.Some? {
      OrderTotal(base.value.ord, at);
      if xs != [] { assert xs[|xs| - 1] in xs; }
    }
  }

  /** At the watermark of a materialized hub the state is what the hub holds. */
  lemma StateAtWatermark(env: Env, log: seq<LogRow>, base: Option<Base>, at: Order)
    requires TopicOk(log) && Top(Target(log, Floor(base)), Floor(base)) == Some(at)
    ensures KeysAt(env, log, base, at) == FoldAll(env, EntriesOf(log), BaseKeys(base), Target(log, Floor(base)))
  {
    SortSorts(EntriesOf(log));
    AfterSorted(SortEntries(EntriesOf(log)), Floor(base));
    hide TopicOk, FoldAll, OrderOf, BaseAt, After, SortEntries, EntriesOf, Through, Sorted;
    BaseBelowTop(log, base, at);
    ThroughLast(Target(log, Floor(base)), at);
  }

  /** Own tails at or below an own row are materialized. */
  function TailsAfter(own: string, tails: map<string, nat>, e: Entry): map<string, nat>
  {
    if e.writer == own then map scope | scope in tails && tails[scope] > e.body.seqNo :: tails[scope] else tails
  }

  lemma FromBase(env: Env, log: seq<LogRow>, base: Option<Base>)
    requires StoreOk(log)
    ensures Sorted(SortEntries(EntriesOf(log))) && Top([], Floor(base)) == Floor(base)
    ensures FoldAll(env, EntriesOf(log), BaseKeys(base), []) == BaseKeys(base)
    ensures [] + After(SortEntries(EntriesOf(log)), Floor(base)) == Target(log, Floor(base))
  {
    SortSorts(EntriesOf(log));
    hide StoreOk, Sorted, SortEntries, EntriesOf, After;
    assert [] + After(SortEntries(EntriesOf(log)), Floor(base)) == After(SortEntries(EntriesOf(log)), Floor(base));
  }

  lemma FoldSnoc(env: Env, store: seq<Entry>, base: Keys, xs: seq<Entry>, e: Entry)
    ensures FoldAll(env, store, base, xs + [e]) == FoldEntry(env, store, FoldAll(env, store, base, xs), e)
  {
    hide FoldEntry;
    assert (xs + [e])[..|xs|] == xs;
  }

  lemma StoreFacts(log: seq<LogRow>)
    requires TopicOk(log)
    ensures StoreOk(log)
  {
  }

  lemma NotLate(ord: Option<Order>, e: Entry)
    requires !(ord.Some? && OrderCompare(OrderOf(e), ord.value) <= 0)
    ensures Above(ord, e)
  {
    if ord.Some? { OrderTotal(OrderOf(e), ord.value); }
  }

  /** After a refold everything held is consumed. */
  lemma Refolded(log: seq<LogRow>, floor: Option<Order>)
    requires TopicOk(log)
    ensures Held(Target(log, floor), log, floor) && Consumed(Target(log, floor), log, MaxRowid(log), floor)
  {
    var all := SortEntries(EntriesOf(log));
    SortSorts(EntriesOf(log));
    AfterSorted(all, floor);
    AfterMembers(all, floor);
    forall r | r in log && Above(floor, r.entry)
      ensures r.entry in Target(log, floor)
    {
      var i :| 0 <= i < |log| && log[i] == r;
      assert EntriesOf(log)[i] == r.entry;
    }
  }

  // ---- results about the fold ----

  /** Hubs holding the same rows agree, whatever order the rows were committed in. */
  lemma HubsAgree(env: Env, base: Option<Base>, a: seq<LogRow>, b: seq<LogRow>)
    requires TopicOk(a) && TopicOk(b) && forall e :: e in EntriesOf(a) <==> e in EntriesOf(b)
    ensures FoldAll(env, EntriesOf(a), BaseKeys(base), Target(a, Floor(base)))
            == FoldAll(env, EntriesOf(b), BaseKeys(base), Target(b, Floor(base)))
  {
    SameRowsSameOrder(a, b);
    var xs := Target(a, Floor(base));
    var all := SortEntries(EntriesOf(a));
    SortSorts(EntriesOf(a));
    AfterMembers(all, Floor(base));
    AfterSorted(all, Floor(base));
    if xs != [] {
      var bound := OrderOf(xs[|xs| - 1]);
      forall e | e in xs
        ensures UpTo(e, bound)
      {
        var i :| 0 <= i < |xs| && xs[i] == e;
        OrderTotal(bound, OrderOf(e));
      }
      SameFoldAll(env, EntriesOf(a), EntriesOf(b), bound, BaseKeys(base), xs);
    }
  }

  /** No row known by `b` has `a` among its ancestors. */
  ghost predicate NotUnder(store: seq<Entry>, a: EntryId, b: EntryId)
  {
    forall x | x in store && x.writer == b.writer && x.body.seqNo == b.seqNo :: !IsAncestor(store, a, x)
  }

  ghost predicate Known(folded: seq<Entry>, h: EntryId)
  {
    exists x :: x in folded && IdOf(x) == h
  }

  /** Conflict heads are distinct folded rows, none an ancestor of another. */
  ghost predicate Antichain(store: seq<Entry>, folded: seq<Entry>, heads: seq<EntryId>)
  {
    && (forall h | h in heads :: Known(folded, h))
    && (forall i, j | 0 <= i < j < |heads| ::
          heads[i] != heads[j] && NotUnder(store, heads[i], heads[j]) && NotUnder(store, heads[j], heads[i]))
  }

  ghost predicate KeyOk(store: seq<Entry>, folded: seq<Entry>, ks: KeyState)
  {
    && Antichain(store, folded, ks.frontier)
    && forall m | m in ks.members :: Antichain(store, folded, ks.members[m].frontier)
  }

  ghost predicate KeysOk(store: seq<Entry>, folded: seq<Entry>, keys: Keys)
  {
    forall k | k in keys :: KeyOk(store, folded, keys[k])
  }

  /** A later row is nobody's ancestor among the earlier ones. */
  lemma {:induction false} NoPathUp(store: seq<Entry>, e: Entry, cur: Entry, hops: nat)
    requires Sound(store) && e in store && cur in store && Before(OrderOf(cur), OrderOf(e))
    ensures !Walk(store, IdOf(e), Some(cur), hops)
    decreases hops
  {
    if hops > 0 && cur.body.causal.Some? {
      var (w, n) := cur.body.causal.value;
      assert PointsDown(store, cur);
      OrderTotal(OrderOf(cur), OrderOf(e));
      LookupFinds(store, w, n);
      if Lookup(store, w, n).Some? {
        OrderTransitive(OrderOf(Lookup(store, w, n).value), OrderOf(cur), OrderOf(e));
        NoPathUp(store, e, Lookup(store, w, n).value, hops - 1);
      }
    }
  }

  lemma {:induction false} UnsupersededHeads(store: seq<Entry>, folded: seq<Entry>, heads: seq<EntryId>, e: Entry)
    requires Antichain(store, folded, heads)
    ensures Antichain(store, folded, Unsuperseded(store, heads, e))
    ensures forall h | h in Unsuperseded(store, heads, e) ::
              h in heads && h != IdOf(e) && !IsAncestor(store, h, e)
  {
    if heads != [] {
      assert Antichain(store, folded, heads[1..]);
      UnsupersededHeads(store, folded, heads[1..], e);
      var rest := Unsuperseded(store, heads[1..], e);
      forall j | 0 <= j < |rest|
        ensures heads[0] != rest[j] && NotUnder(store, heads[0], rest[j]) && NotUnder(store, rest[j], heads[0])
      {
        assert rest[j] in heads[1..];
        var k :| 0 <= k < |heads[1..]| && heads[1..][k] == rest[j];
        assert heads[k + 1] == rest[j];
      }
    }
  }

  /** The new head joins what it does not supersede. */
  lemma PushHead(store: seq<Entry>, folded: seq<Entry>, heads: seq<EntryId>, e: Entry)
    requires Sound(store) && e in store && Antichain(store, folded, heads)
    requires forall x | x in folded :: x in store && Before(OrderOf(x), OrderOf(e))
    ensures Antichain(store, folded + [e], Unsuperseded(store, heads, e) + [IdOf(e)])
  {
    UnsupersededHeads(store, folded, heads, e);
    var rest := Unsuperseded(store, heads, e);
    forall h | h in rest
      ensures Known(folded + [e], h) && NotUnder(store, h, IdOf(e)) && NotUnder(store, IdOf(e), h)
    {
      var x :| x in folded && IdOf(x) == h;
      assert x in folded + [e];
      NoPathUp(store, e, x, ANCESTOR_WALK_CAP);
    }
    assert e in folded + [e];
    hide NotUnder, Known, Sound, OrderOf, Unsuperseded;
    AppendHead(store, folded, rest, e);
  }

  lemma AppendHead(store: seq<Entry>, folded: seq<Entry>, rest: seq<EntryId>, e: Entry)
    requires Antichain(store, folded, rest) && Known(folded + [e], IdOf(e))
    requires forall h | h in rest :: h != IdOf(e) && Known(folded + [e], h) && NotUnder(store, h, IdOf(e)) && NotUnder(store, IdOf(e), h)
    ensures Antichain(store, folded + [e], rest + [IdOf(e)])
  {
    hide NotUnder, Known;
    var heads := rest + [IdOf(e)];
    forall i, j | 0 <= i < j < |heads|
      ensures heads[i] != heads[j] && NotUnder(store, heads[i], heads[j]) && NotUnder(store, heads[j], heads[i])
    {
      assert heads[i] == rest[i] && rest[i] in rest;
      if j < |rest| { assert heads[j] == rest[j]; }
    }
  }

  lemma GrowHeads(store: seq<Entry>, folded: seq<Entry>, heads: seq<EntryId>, e: Entry)
    requires Antichain(store, folded, heads)
    ensures Antichain(store, folded + [e], heads)
  {
    forall h | h in heads
      ensures Known(folded + [e], h)
    {
      var x :| x in folded && IdOf(x) == h;
      assert x in folded + [e];
    }
  }

  lemma {:induction false} SupersedeHeads(store: seq<Entry>, folded: seq<Entry>, frontier: seq<EntryId>, superseded: seq<EntryId>, ids: seq<EntryId>)
    requires Antichain(store, folded, frontier)
    ensures Antichain(store, folded, ApplySupersedes(frontier, superseded, ids).0)
    decreases |ids|
  {
    if ids != [] {
      var i := FindId(frontier, ids[0]);
      if i < |frontier| {
        SupersedeHeads(store, folded, frontier[..i] + frontier[i + 1..], superseded + [frontier[i]], ids[1..]);
      } else {
        SupersedeHeads(store, folded, frontier, superseded, ids[1..]);
      }
    }
  }

  /** The state of one fold step: e comes after everything folded. */
  ghost predicate NextRow(store: seq<Entry>, folded: seq<Entry>, e: Entry)
  {
    Sound(store) && e in store && forall x | x in folded :: x in store && Before(OrderOf(x), OrderOf(e))
  }

  lemma GrowKey(store: seq<Entry>, folded: seq<Entry>, ks: KeyState, e: Entry)
    requires KeyOk(store, folded, ks)
    ensures KeyOk(store, folded + [e], ks)
  {
    hide Antichain;
    GrowHeads(store, folded, ks.frontier, e);
    forall m | m in ks.members
      ensures Antichain(store, folded + [e], ks.members[m].frontier)
    {
      GrowHeads(store, folded, ks.members[m].frontier, e);
    }
  }

  lemma KeyWriteHeads(store: seq<Entry>, folded: seq<Entry>, ks: KeyState, e: Entry, policy: Policy, value: Option<Json>)
    requires NextRow(store, folded, e) && KeyOk(store, folded, ks)
    ensures KeyOk(store, folded + [e], FoldKeyWrite(store, ks, e, policy, value))
  {
    PushHead(store, folded, ks.frontier, e);
    GrowKey(store, folded, ks, e);
    hide Antichain;
  }

  lemma MemberOpHeads(store: seq<Entry>, folded: seq<Entry>, ks: KeyState, e: Entry, policy: Policy, member: string, present: bool)
    requires NextRow(store, folded, e) && KeyOk(store, folded, ks)
    ensures KeyOk(store, folded + [e], FoldMemberOp(store, ks, e, policy, member, present))
  {
    assert Antichain(store, folded, []);
    PushHead(store, folded, [], e);
    assert [] + [IdOf(e)] == [IdOf(e)];
    if member in ks.members {
      PushHead(store, folded, ks.members[member].frontier, e);
    }
    GrowKey(store, folded, ks, e);
    hide Antichain;
  }

  lemma SetHeads(env: Env, store: seq<Entry>, folded: seq<Entry>, ks: KeyState, e: Entry, policy: Policy)
    requires NextRow(store, folded, e) && KeyOk(store, folded, ks)
    ensures KeyOk(store, folded + [e], FoldSet(env, store, ks, e, policy))
  {
    hide Antichain, NextRow, FoldKeyWrite;
    var ks1 := if ks.scalar then ks else ks.(members := map[], resetGen := ks.resetGen + 1, scalar := true);
    KeyWriteHeads(store, folded, ks1, e, policy, Field(e.body.payload, "value"));
  }

  lemma DelHeads(store: seq<Entry>, folded: seq<Entry>, ks: KeyState, e: Entry, policy: Policy)
    requires NextRow(store, folded, e) && KeyOk(store, folded, ks)
    ensures KeyOk(store, folded + [e], FoldDel(store, ks, e, policy))
  {
    hide Antichain, NextRow, FoldKeyWrite;
    KeyWriteHeads(store, folded, ks.(members := map[], resetGen := ks.resetGen + 1, scalar := true), e, policy, None);
  }

  lemma ResolveHeads(env: Env, store: seq<Entry>, folded: seq<Entry>, ks: KeyState, e: Entry, policy: Policy)
    requires NextRow(store, folded, e) && KeyOk(store, folded, ks)
    ensures KeyOk(store, folded + [e], FoldResolve(env, store, ks, e, policy))
  {
    hide Antichain, NextRow, FoldKeyWrite;
    var ids := FieldIds(env, e.body.payload, "supersedes");
    SupersedeHeads(store, folded, ks.frontier, ks.superseded, ids);
    var r := ApplySupersedes(ks.frontier, ks.superseded, ids);
    KeyWriteHeads(store, folded, ks.(frontier := r.0, superseded := r.1), e, policy, Field(e.body.payload, "value"));
  }

  lemma AddRemoveHeads(env: Env, store: seq<Entry>, folded: seq<Entry>, ks: KeyState, e: Entry, policy: Policy)
    requires NextRow(store, folded, e) && KeyOk(store, folded, ks)
    ensures KeyOk(store, folded + [e], FoldAddRemove(env, store, ks, e, policy))
  {
    hide Antichain, NextRow, FoldMemberOp;
    var ks1 := if ks.scalar && ks.value.Some? then ks.(value := None, resetGen := ks.resetGen + 1) else ks;
    MemberOpHeads(store, folded, ks1.(scalar := false), e, policy,
                  FieldText(env, e.body.payload, "member"), e.body.kind == "add");
  }

  lemma ResolveMemberHeads(env: Env, store: seq<Entry>, folded: seq<Entry>, ks: KeyState, e: Entry, policy: Policy)
    requires NextRow(store, folded, e) && KeyOk(store, folded, ks)
    ensures KeyOk(store, folded + [e], FoldResolveMember(env, store, ks, e, policy))
  {
    hide Antichain, NextRow, FoldMemberOp;
    var member := FieldText(env, e.body.payload, "member");
    if member in ks.members {
      SupersedeHeads(store, folded, ks.members[member].frontier, ks.members[member].superseded,
                     FieldIds(env, e.body.payload, "supersedes"));
    }
    MemberOpHeads(store, folded, SupersedeMember(env, ks, e, member), e, policy, member,
                  FieldTruthy(e.body.payload, "present"));
  }

  lemma FoldKeyHeads(env: Env, store: seq<Entry>, folded: seq<Entry>, ks: KeyState, e: Entry, policy: Policy)
    requires NextRow(store, folded, e) && KeyOk(store, folded, ks)
    ensures KeyOk(store, folded + [e], FoldKey(env, store, ks, e, policy))
  {
    hide Antichain, NextRow, FoldSet, FoldDel, FoldResolve, FoldAddRemove, FoldResolveMember;
    SetHeads(env, store, folded, ks, e, policy);
    DelHeads(store, folded, ks, e, policy);
    ResolveHeads(env, store, folded, ks, e, policy);
    AddRemoveHeads(env, store, folded, ks, e, policy);
    ResolveMemberHeads(env, store, folded, ks, e, policy);
    GrowKey(store, folded, ks, e);
  }

  lemma {:induction false} FoldAllHeads(env: Env, store: seq<Entry>, xs: seq<Entry>)
    requires Sound(store) && Sorted(xs) && forall x | x in xs :: x in store
    ensures KeysOk(store, xs, FoldAll(env, store, map[], xs))
  {
    if xs != [] {
      var front, e := xs[..|xs| - 1], xs[|xs| - 1];
      FoldAllHeads(env, store, front);
      assert front + [e] == xs;
      var keys := FoldAll(env, store, map[], front);
      assert NextRow(store, front, e);
      forall k | k in keys
        ensures KeyOk(store, xs, keys[k])
      {
        GrowKey(store, front, keys[k], e);
      }
      if e.body.key.Some? {
        var key := e.body.key.value;
        var ks := if key in keys then keys[key] else FreshKey;
        assert KeyOk(store, front, ks);
        FoldKeyHeads(env, store, front, ks, e, env.policyFor(key));
      }
    }
  }

  // ---- the base ----

  /** The base holds what folding the topic from scratch up to its place gives. */
  ghost predicate GoodBase(env: Env, log: seq<LogRow>, base: Option<Base>)
  {
    base.Some? ==> base.value.keys == KeysAt(env, log, None, base.value.ord)
  }

  lemma {:induction false} FoldAllConcat(env: Env, store: seq<Entry>, base: Keys, xs: seq<Entry>, ys: seq<Entry>)
    ensures FoldAll(env, store, base, xs + ys) == FoldAll(env, store, FoldAll(env, store, base, xs), ys)
  {
    hide FoldEntry;
    if ys == [] {
      assert xs + ys == xs;
    } else {
      var front := ys[..|ys| - 1];
      FoldAllConcat(env, store, base, xs, front);
      assert (xs + ys)[..|xs + ys| - 1] == xs + front;
    }
  }

  /** Rebasing at a cut leaves the fold of the topic unchanged: from a good base it is the fold from scratch. */
  lemma RebaseKeepsFold(env: Env, log: seq<LogRow>, base: Option<Base>)
    requires TopicOk(log) && GoodBase(env, log, base)
    ensures FoldAll(env, EntriesOf(log), BaseKeys(base), Target(log, Floor(base))) == FoldAll(env, EntriesOf(log), map[], Target(log, None))
  {
    if base.Some? {
      var all, at := SortEntries(EntriesOf(log)), base.value.ord;
      SortSorts(EntriesOf(log));
      AfterNone(all);
      CutSplits(all, at);
      hide TopicOk, FoldAll, After, Through, SortEntries, EntriesOf;
      FoldAllConcat(env, EntriesOf(log), map[], Through(all, at), After(all, Some(at)));
    }
  }

  /** A base stays good as the log grows above it, and wherever the same rows are held up to it. */
  lemma GoodBaseKept(env: Env, a: seq<LogRow>, b: seq<LogRow>, base: Base)
    requires TopicOk(a) && TopicOk(b) && GoodBase(env, a, Some(base)) && AgreeUpTo(EntriesOf(a), EntriesOf(b), base.ord)
    ensures GoodBase(env, b, Some(base))
  {
    hide TopicOk, KeysAt, AgreeUpTo;
    CutsAgree(env, None, a, b, base.ord);
  }

  /** From a good base the state at any place is the one from scratch. */
  lemma GoodBaseState(env: Env, log: seq<LogRow>, base: Option<Base>, at: Order)
    requires TopicOk(log) && GoodBase(env, log, base)
    ensures KeysAt(env, log, base, at) == KeysAt(env, log, None, at)
  {
    if base.Some? && OrderCompare(base.value.ord, at) <= 0 {
      var all, ord := SortEntries(EntriesOf(log)), base.value.ord;
      SortSorts(EntriesOf(log));
      AfterNone(all);
      LaterCut(all, ord, at);
      hide TopicOk, FoldAll, After, Through, SortEntries, EntriesOf;
      FoldAllConcat(env, EntriesOf(log), map[], Through(all, ord), Through(After(all, Some(ord)), at));
    }
  }

  /** Rebasing at a cut gives a good base again if and only if a snapshot carries every key of the state at the cut. */
  lemma Rebased(env: Env, log: seq<LogRow>, base: Option<Base>, at: Order)
    requires TopicOk(log) && GoodBase(env, log, base)
    ensures GoodBase(env, log, Some(Rebase(env, log, base, at))) <==> AllCarried(KeysAt(env, log, None, at))
  {
    hide TopicOk, KeysAt, SnapshotOf, KeysFromSnapshot, AllCarried;
    GoodBaseState(env, log, base, at);
    CarriedIff(KeysAt(env, log, None, at));
  }

  /** Up to the later of two cuts: up to the earlier, then from there up to the later. */
  lemma LaterCut(all: seq<Entry>, ord: Order, at: Order)
    requires Sorted(all) && OrderCompare(ord, at) <= 0
    ensures Through(all, at) == Through(all, ord) + Through(After(all, Some(ord)), at)
  {
    CutSplits(all, ord);
    ThroughMembers(all, ord);
    OrderTotal(ord, at);
    hide Sorted, After, Through, OrderCompare, OrderOf;
    forall x | x in Through(all, ord)
      ensures UpTo(x, at)
    {
      OrderTotal(OrderOf(x), ord);
      OrderTotal(OrderOf(x), at);
      if OrderOf(x) != ord && ord != at { OrderTransitive(OrderOf(x), ord, at); }
    }
    ThroughSplit(Through(all, ord), After(all, Some(ord)), at);
  }

  /** Hubs holding the same rows agree, whatever good base each started from. */
  lemma GoodBasesAgree(env: Env, a: seq<LogRow>, b: seq<LogRow>, baseA: Option<Base>, baseB: Option<Base>)
    requires TopicOk(a) && TopicOk(b) && forall e :: e in EntriesOf(a) <==> e in EntriesOf(b)
    requires GoodBase(env, a, baseA) && GoodBase(env, b, baseB)
    ensures FoldAll(env, EntriesOf(a), BaseKeys(baseA), Target(a, Floor(baseA))) == FoldAll(env, EntriesOf(b), BaseKeys(baseB), Target(b, Floor(baseB)))
  {
    hide FoldAll, Target, TopicOk, GoodBase, EntriesOf;
    RebaseKeepsFold(env, a, baseA);
    RebaseKeepsFold(env, b, baseB);
    HubsAgree(env, None, a, b);
  }

  /** Hubs holding the same rows agree, rebased where they may be, as long as a snapshot carries every key at either cut. */
  lemma RebasedHubsAgree(env: Env, a: seq<LogRow>, b: seq<LogRow>, baseA: Option<Base>, baseB: Option<Base>, cutA: Order, cutB: Order)
    requires TopicOk(a) && TopicOk(b) && forall e :: e in EntriesOf(a) <==> e in EntriesOf(b)
    requires GoodBase(env, a, baseA) && GoodBase(env, b, baseB)
    requires AllCarried(KeysAt(env, a, None, cutA)) && AllCarried(KeysAt(env, b, None, cutB))
    ensures var ra, rb := Rebase(env, a, baseA, cutA), Rebase(env, b, baseB, cutB);
            FoldAll(env, EntriesOf(a), ra.keys, Target(a, Some(cutA))) == FoldAll(env, EntriesOf(b), rb.keys, Target(b, Some(cutB)))
  {
    hide FoldAll, Target, TopicOk, GoodBase, EntriesOf, KeysAt, AllCarried, SnapshotOf, KeysFromSnapshot;
    Rebased(env, a, baseA, cutA);
    Rebased(env, b, baseB, cutB);
    GoodBasesAgree(env, a, b, Some(Rebase(env, a, baseA, cutA)), Some(Rebase(env, b, baseB, cutB)));
  }

  // ---- what a snapshot loses ----

  ghost predicate Headed(ks: KeyState) { forall m | m in ks.members :: ks.members[m].frontier != [] }

  lemma KeyWriteMembers(store: seq<Entry>, ks: KeyState, e: Entry, policy: Policy, value: Option<Json>)
    ensures FoldKeyWrite(store, ks, e, policy, value).members == ks.members
  {
    hide Unsuperseded, IsAncestor, OrderCompare;
  }

  lemma MemberOpHeaded(store: seq<Entry>, ks: KeyState, e: Entry, policy: Policy, member: string, present: bool)
    requires forall m | m in ks.members && m != member :: ks.members[m].frontier != []
    ensures Headed(FoldMemberOp(store, ks, e, policy, member, present))
  {
    hide Unsuperseded, IsAncestor, OrderCompare;
  }

  lemma WriteHeaded(env: Env, store: seq<Entry>, ks: KeyState, e: Entry, policy: Policy)
    requires Headed(ks)
    ensures Headed(FoldSet(env, store, ks, e, policy)) && Headed(FoldDel(store, ks, e, policy)) && Headed(FoldResolve(env, store, ks, e, policy))
  {
    hide FoldKeyWrite, ApplySupersedes, Field, FieldIds;
    var cleared := ks.(members := map[], resetGen := ks.resetGen + 1, scalar := true);
    var value := Field(e.body.payload, "value");
    var r := ApplySupersedes(ks.frontier, ks.superseded, FieldIds(env, e.body.payload, "supersedes"));
    KeyWriteMembers(store, ks, e, policy, value);
    KeyWriteMembers(store, cleared, e, policy, value);
    KeyWriteMembers(store, cleared, e, policy, None);
    KeyWriteMembers(store, ks.(frontier := r.0, superseded := r.1), e, policy, value);
  }

  lemma MemberHeaded(env: Env, store: seq<Entry>, ks: KeyState, e: Entry, policy: Policy)
    requires Headed(ks)
    ensures Headed(FoldAddRemove(env, store, ks, e, policy)) && Headed(FoldResolveMember(env, store, ks, e, policy))
  {
    hide FoldMemberOp, ApplySupersedes, FieldText, FieldTruthy;
    var member := FieldText(env, e.body.payload, "member");
    var cleared := (if ks.scalar && ks.value.Some? then ks.(value := None, resetGen := ks.resetGen + 1) else ks).(scalar := false);
    MemberOpHeaded(store, cleared, e, policy, member, e.body.kind == "add");
    MemberOpHeaded(store, SupersedeMember(env, ks, e, member), e, policy, member, FieldTruthy(e.body.payload, "present"));
  }

  lemma SameHeaded()
    ensures forall a, b: KeyState | Headed(a) && b.members == a.members :: Headed(b)
  {
  }

  lemma FoldHeaded(env: Env, store: seq<Entry>, ks: KeyState, e: Entry, policy: Policy)
    requires Headed(ks)
    ensures Headed(FoldKey(env, store, ks, e, policy))
  {
    hide FoldSet, FoldDel, FoldResolve, FoldAddRemove, FoldResolveMember, Field, FieldText, Headed;
    SameHeaded();
    WriteHeaded(env, store, ks, e, policy);
    MemberHeaded(env, store, ks, e, policy);
  }

  lemma {:induction false} FoldAllHeaded(env: Env, store: seq<Entry>, xs: seq<Entry>)
    ensures forall k | k in FoldAll(env, store, map[], xs) :: Headed(FoldAll(env, store, map[], xs)[k])
  {
    hide Headed, FoldKey;
    if xs != [] {
      var front, e := xs[..|xs| - 1], xs[|xs| - 1];
      FoldAllHeaded(env, store, front);
      var keys := FoldAll(env, store, map[], front);
      if e.body.key.Some? {
        var key := e.body.key.value;
        FreshHeaded();
        FoldHeaded(env, store, if key in keys then keys[key] else FreshKey, e, env.policyFor(key));
      }
    }
  }

  lemma FreshHeaded()
    ensures Headed(FreshKey)
  {
  }

  /** In a state that was folded a snapshot carries exactly the keys with a winner and no requests, scalar just when without members, with a value only when scalar. */
  lemma FoldedCarriedIff(env: Env, log: seq<LogRow>, at: Order, key: string)
    requires key in KeysAt(env, log, None, at)
    ensures var ks := KeysAt(env, log, None, at)[key];
            Carried(ks) <==> ks.winner.Some? && ks.requests == [] && (ks.scalar <==> ks.members == map[]) && (ks.value.Some? ==> ks.scalar)
  {
    FoldAllHeaded(env, EntriesOf(log), RowsAt(log, None, at));
    hide FoldAll, RowsAt;
    assert Headed(KeysAt(env, log, None, at)[key]);
  }

  /** Two rows, in order. */
  ghost predicate TwoRows(log: seq<LogRow>, first: Entry, second: Entry)
  {
    log == [LogRow(1, first), LogRow(2, second)] && Before(OrderOf(first), OrderOf(second)) && TopicOk(log)
  }

  lemma TwoSorted(log: seq<LogRow>, first: Entry, second: Entry)
    requires TwoRows(log, first, second)
    ensures EntriesOf(log) == [first, second] && RowsAt(log, None, OrderOf(first)) == [first]
    ensures Target(log, Some(OrderOf(first))) == [second] && Target(log, None) == [first, second]
  {
    assert EntriesOf(log) == [first, second];
    TwoInOrder(first, second);
    TwoCut(first, second);
    hide SortEntries, After, Through, TopicOk, EntriesOf, OrderCompare;
    AfterNone([first, second]);
  }

  lemma TwoInOrder(first: Entry, second: Entry)
    requires Before(OrderOf(first), OrderOf(second))
    ensures Sorted([first, second]) && SortEntries([first, second]) == [first, second]
  {
    hide OrderCompare, SortEntries;
    OrderTotal(OrderOf(first), OrderOf(second));
    SortSorts([first, second]);
    SortedUnique(SortEntries([first, second]), [first, second]);
  }

  lemma TwoCut(first: Entry, second: Entry)
    requires Before(OrderOf(first), OrderOf(second))
    ensures var at := OrderOf(first); Through([first, second], at) == [first] && After([first, second], Some(at)) == [second]
  {
    hide OrderCompare;
    var at := OrderOf(first);
    OrderTotal(at, OrderOf(second));
    OrderTotal(at, at);
    assert [first, second][1..] == [second] && [second][1..] == [];
    assert Through([second], at) == [] && After([second], Some(at)) == [second] + After([], Some(at)) == [second];
  }

  /**
    An owner set by a chown alone is lost: on an owned key, after a rebase at the chown another's write is taken and
    makes that one the owner; from scratch it is refused.
  */
  lemma RebaseLosesOwner(env: Env, log: seq<LogRow>, chown: Entry, write: Entry, key: string)
    requires TwoRows(log, chown, write) && chown.body.key == write.body.key == Some(key) && env.policyFor(key) == Owned
    requires chown.body.kind == "chown" && FieldText(env, chown.body.payload, "newOwner") == chown.writer
    requires write.body.kind == "set" && write.writer != chown.writer
    ensures var base := Rebase(env, log, None, OrderOf(chown));
            var whole := FoldAll(env, EntriesOf(log), map[], Target(log, None));
            var rebased := FoldAll(env, EntriesOf(log), base.keys, Target(log, Some(base.ord)));
            && key in whole && whole[key].owner == Some(chown.writer) && whole[key].winner == None
            && key in rebased && rebased[key].owner == Some(write.writer) && rebased[key].winner == Some(Adopted(IdOf(write), OrderOf(write)))
  {
    TwoSorted(log, chown, write);
    hide TopicOk, Target, RowsAt, EntriesOf, FieldText, Field, Unsuperseded;
    var store := EntriesOf(log);
    FoldOne(env, store, map[], chown);
    FoldSnoc(env, store, map[], [chown], write);
    assert [chown] + [write] == [chown, write];
    FoldOne(env, store, Rebase(env, log, None, OrderOf(chown)).keys, write);
  }

  lemma FoldOne(env: Env, store: seq<Entry>, base: Keys, e: Entry)
    ensures FoldAll(env, store, base, [e]) == FoldEntry(env, store, base, e)
  {
    hide FoldEntry;
    assert [e][..0] == [];
  }

  /** In the fold of a topic from any good base, every key's and every member's conflict heads form an antichain. */
  lemma FrontiersAreAntichains(env: Env, log: seq<LogRow>, base: Option<Base>)
    requires TopicOk(log) && GoodBase(env, log, base)
    ensures KeysOk(EntriesOf(log), Target(log, None), FoldAll(env, EntriesOf(log), BaseKeys(base), Target(log, Floor(base))))
  {
    SortSorts(EntriesOf(log));
    AfterNone(SortEntries(EntriesOf(log)));
    hide FoldAll, KeysOk;
    RebaseKeepsFold(env, log, base);
    FoldAllHeads(env, EntriesOf(log), Target(log, None));
  }
}
