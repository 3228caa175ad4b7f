/**
  The rest of what a register keeps, told by the rows (src/register.ts:517-716): which rows are ancestors of which, which
  conflict heads stand, which were resolved away, the reset generation, and the requests with their approvals.
*/
module RegisterHeads {
  import opened HlcClock
  import opened Entries
  import opened Cuts
  import opened Registers
  import opened RegisterHistory

  // ---- ancestry ----

  predicate PointsAt(x: Entry, y: Entry) { x.body.causal == Some((y.writer, y.body.seqNo)) }

  /** From e, each row's causal pointer names the next, which is held; the last names `a`. */
  ghost predicate Leads(store: seq<Entry>, a: EntryId, e: Entry, rest: seq<Entry>)
    decreases |rest|
  {
    if rest == [] then e.body.causal == Some((a.writer, a.seqNo))
    else PointsAt(e, rest[0]) && rest[0] in store && Leads(store, a, rest[0], rest[1..])
  }

  lemma {:induction false} WalkIff(store: seq<Entry>, a: EntryId, e: Entry, hops: nat)
    requires UniqueIds(store)
    ensures Walk(store, a, Some(e), hops) <==> exists rest :: |rest| < hops && Leads(store, a, e, rest)
    decreases hops
  {
    if hops > 0 && e.body.causal.Some? {
      var (w, n) := e.body.causal.value;
      LookupFinds(store, w, n);
      if w == a.writer && n == a.seqNo {
        assert Leads(store, a, e, []);
      } else {
        if Lookup(store, w, n).Some? {
          var next := Lookup(store, w, n).value;
          WalkIff(store, a, next, hops - 1);
          if Walk(store, a, Some(next), hops - 1) {
            var q :| |q| < hops - 1 && Leads(store, a, next, q);
            assert ([next] + q)[1..] == q;
            assert Leads(store, a, e, [next] + q);
          }
        }
        forall rest | |rest| < hops && Leads(store, a, e, rest)
          ensures Walk(store, a, Some(e), hops)
        {
          FirstStep(store, a, e, rest, w, n);
          assert |rest[1..]| < hops - 1;
        }
      }
    } else {
      NoPath(store, a, e, hops);
    }
  }

  lemma FirstStep(store: seq<Entry>, a: EntryId, e: Entry, rest: seq<Entry>, w: string, n: nat)
    requires UniqueIds(store) && Leads(store, a, e, rest) && e.body.causal == Some((w, n)) && !(w == a.writer && n == a.seqNo)
    ensures rest != [] && Lookup(store, w, n) == Some(rest[0]) && Leads(store, a, rest[0], rest[1..])
  {
    LookupFinds(store, w, n);
  }

  lemma NoPath(store: seq<Entry>, a: EntryId, e: Entry, hops: nat)
    requires hops == 0 || e.body.causal.None?
    ensures !exists rest :: |rest| < hops && Leads(store, a, e, rest)
  {
  }

  /** A row is an ancestor of another if and only if causal pointers lead from the one to the other through held rows, in at most as many steps as the walk allows. */
  lemma AncestorIff(store: seq<Entry>, a: EntryId, e: Entry)
    requires UniqueIds(store)
    ensures IsAncestor(store, a, e) <==> exists rest :: |rest| < ANCESTOR_WALK_CAP && Leads(store, a, e, rest)
  {
    WalkIff(store, a, e, ANCESTOR_WALK_CAP);
  }

  // ---- conflict heads ----

  function Named(t: Topic, e: Entry): seq<EntryId> { FieldIds(t.env, e.body.payload, "supersedes") }

  /** A key write stands as a head until a key write that descends from it, or a resolve that names it. */
  function HeadEffect(t: Topic, before: seq<Entry>, e: Entry, h: EntryId): Effect<bool>
  {
    if !(Effective(t, before, e) && KeyWrite(e)) then Keep
    else if IdOf(e) == h then Put(true)
    else if IsAncestor(t.store, h, e) || (e.body.kind == "resolve" && h in Named(t, e)) then Clear
    else Keep
  }

  function HeadEffects(t: Topic, xs: seq<Entry>, h: EntryId): (fx: seq<Effect<bool>>)
    ensures |fx| == |xs|
  {
    if xs == [] then [] else HeadEffects(t, xs[..|xs| - 1], h) + [HeadEffect(t, xs[..|xs| - 1], xs[|xs| - 1], h)]
  }

  predicate Stands(t: Topic, xs: seq<Entry>, h: EntryId) { Last(HeadEffects(t, xs, h)).Some? }

  /** The same for the heads of a member, which a reset takes away with the member. */
  function MemberHeadEffect(t: Topic, before: seq<Entry>, e: Entry, m: string, h: EntryId): Effect<bool>
  {
    if Resets(t, before, e) then Clear
    else if !OnMember(t, before, e, m) then Keep
    else if IdOf(e) == h then Put(true)
    else if IsAncestor(t.store, h, e) || (e.body.kind == "resolve-member" && h in Named(t, e)) then Clear
    else Keep
  }

  function MemberHeadEffects(t: Topic, xs: seq<Entry>, m: string, h: EntryId): (fx: seq<Effect<bool>>)
    ensures |fx| == |xs|
  {
    if xs == [] then [] else MemberHeadEffects(t, xs[..|xs| - 1], m, h) + [MemberHeadEffect(t, xs[..|xs| - 1], xs[|xs| - 1], m, h)]
  }

  predicate MemberStands(t: Topic, xs: seq<Entry>, m: string, h: EntryId) { Last(MemberHeadEffects(t, xs, m, h)).Some? }

  /** A head was resolved away: a resolve named it while it stood. */
  predicate Resolved(t: Topic, xs: seq<Entry>, h: EntryId)
  {
    xs != [] && var front, e := xs[..|xs| - 1], xs[|xs| - 1];
    Resolved(t, front, h) || (Effective(t, front, e) && e.body.kind == "resolve" && h in Named(t, e) && Stands(t, front, h))
  }

  /** The same of a member, since the last reset. */
  predicate MemberResolved(t: Topic, xs: seq<Entry>, m: string, h: EntryId)
  {
    xs != [] && var front, e := xs[..|xs| - 1], xs[|xs| - 1];
    !Resets(t, front, e)
    && (MemberResolved(t, front, m, h) || (OnMember(t, front, e, m) && e.body.kind == "resolve-member" && h in Named(t, e) && MemberStands(t, front, m, h)))
  }

  /** How often the key was reset: by a del, a set over members, or a member op over a value. */
  function Resettings(t: Topic, xs: seq<Entry>): nat
  {
    if xs == [] then 0
    else
      var front, e := xs[..|xs| - 1], xs[|xs| - 1];
      Resettings(t, front)
      + if Resets(t, front, e) || (Effective(t, front, e) && (e.body.kind == "add" || e.body.kind == "remove") && Scalar(t, front) && Value(t, front).Some?)
        then 1 else 0
  }

  ghost predicate HeadsRead(t: Topic, xs: seq<Entry>, ks: KeyState)
  {
    && (forall h :: h in ks.frontier <==> Stands(t, xs, h))
    && (forall m, h :: (m in ks.members && h in ks.members[m].frontier) <==> MemberStands(t, xs, m, h))
    && (forall h :: h in ks.superseded <==> Resolved(t, xs, h))
    && (forall m, h :: (m in ks.members && h in ks.members[m].superseded) <==> MemberResolved(t, xs, m, h))
    && ks.resetGen == Resettings(t, xs)
  }

  // ---- one fold step ----

  lemma {:induction false} UnsupersededIff(store: seq<Entry>, heads: seq<EntryId>, e: Entry, h: EntryId)
    ensures h in Unsuperseded(store, heads, e) <==> h in heads && !IsAncestor(store, h, e) && h != IdOf(e)
  {
    hide IsAncestor;
    if heads != [] {
      UnsupersededIff(store, heads[1..], e, h);
      assert heads == [heads[0]] + heads[1..];
    }
  }

  ghost predicate Distinct(ids: seq<EntryId>) { forall i, j | 0 <= i < j < |ids| :: ids[i] != ids[j] }

  lemma {:induction false} SupersedesIff(frontier: seq<EntryId>, superseded: seq<EntryId>, ids: seq<EntryId>, h: EntryId)
    requires Distinct(frontier)
    ensures var r := ApplySupersedes(frontier, superseded, ids);
            && Distinct(r.0) && (h in r.0 <==> h in frontier && h !in ids)
            && (h in r.1 <==> h in superseded || (h in frontier && h in ids))
    decreases |ids|
  {
    if ids != [] {
      var i := FindId(frontier, ids[0]);
      assert ids == [ids[0]] + ids[1..];
      if i < |frontier| {
        Without(frontier, i, h);
        SupersedesIff(frontier[..i] + frontier[i + 1..], superseded + [frontier[i]], ids[1..], h);
      } else {
        SupersedesIff(frontier, superseded, ids[1..], h);
      }
    }
  }

  lemma Without(ids: seq<EntryId>, i: nat, h: EntryId)
    requires Distinct(ids) && i < |ids|
    ensures var r := ids[..i] + ids[i + 1..]; Distinct(r) && (h in r <==> h in ids && h != ids[i])
  {
    var r := ids[..i] + ids[i + 1..];
    forall j | 0 <= j < |ids| && j != i
      ensures ids[j] in r
    {
      if j < i { assert r[j] == ids[j]; } else { assert r[j - 1] == ids[j]; }
    }
  }

  lemma OneMoreHead(t: Topic, xs: seq<Entry>, e: Entry)
    ensures forall h :: Stands(t, xs + [e], h) <==> (var fx := HeadEffect(t, xs, e, h); fx.Put? || (fx.Keep? && Stands(t, xs, h)))
    ensures forall m, h :: MemberStands(t, xs + [e], m, h) <==>
                           (var fx := MemberHeadEffect(t, xs, e, m, h); fx.Put? || (fx.Keep? && MemberStands(t, xs, m, h)))
    ensures forall h :: Resolved(t, xs + [e], h) <==>
                        Resolved(t, xs, h) || (Effective(t, xs, e) && e.body.kind == "resolve" && h in Named(t, e) && Stands(t, xs, h))
    ensures forall m, h :: MemberResolved(t, xs + [e], m, h) <==>
                           !Resets(t, xs, e) && (MemberResolved(t, xs, m, h)
                                                 || (OnMember(t, xs, e, m) && e.body.kind == "resolve-member" && h in Named(t, e) && MemberStands(t, xs, m, h)))
    ensures Resettings(t, xs + [e]) == Resettings(t, xs)
              + if Resets(t, xs, e) || (Effective(t, xs, e) && (e.body.kind == "add" || e.body.kind == "remove") && Scalar(t, xs) && Value(t, xs).Some?)
                then 1 else 0
  {
    hide HeadEffect, MemberHeadEffect, Effective, Resets, Scalar, Value, Named, OnMember;
    assert (xs + [e])[..|xs|] == xs;
    forall h
      ensures Stands(t, xs + [e], h) <==> (var fx := HeadEffect(t, xs, e, h); fx.Put? || (fx.Keep? && Stands(t, xs, h)))
    {
      LastSnoc(HeadEffects(t, xs, h), HeadEffect(t, xs, e, h));
    }
    forall m, h
      ensures MemberStands(t, xs + [e], m, h) <==> (var fx := MemberHeadEffect(t, xs, e, m, h); fx.Put? || (fx.Keep? && MemberStands(t, xs, m, h)))
    {
      LastSnoc(MemberHeadEffects(t, xs, m, h), MemberHeadEffect(t, xs, e, m, h));
    }
  }

  ghost predicate AllDistinct(ks: KeyState) { Distinct(ks.frontier) && forall m | m in ks.members :: Distinct(ks.members[m].frontier) }

  /** The heads after a key write, from those a resolve has left. */
  lemma KeyHeads(t: Topic, xs: seq<Entry>, e: Entry, left: seq<EntryId>)
    requires Effective(t, xs, e) && KeyWrite(e)
    requires forall h :: h in left <==> Stands(t, xs, h) && !(e.body.kind == "resolve" && h in Named(t, e))
    ensures forall h :: h in Unsuperseded(t.store, left, e) + [IdOf(e)] <==> Stands(t, xs + [e], h)
  {
    hide Effective, IsAncestor, Stands, Named;
    OneMoreHead(t, xs, e);
    forall h
      ensures h in Unsuperseded(t.store, left, e) + [IdOf(e)] <==> Stands(t, xs + [e], h)
    {
      UnsupersededIff(t.store, left, e, h);
    }
  }

  /** The heads of a member after an op on it, from those a resolve has left. */
  lemma MemberHeads(t: Topic, xs: seq<Entry>, e: Entry, m: string, left: seq<EntryId>)
    requires OnMember(t, xs, e, m)
    requires forall h :: h in left <==> MemberStands(t, xs, m, h) && !(e.body.kind == "resolve-member" && h in Named(t, e))
    ensures forall h :: h in Unsuperseded(t.store, left, e) + [IdOf(e)] <==> MemberStands(t, xs + [e], m, h)
  {
    NoReset(t, xs, e);
    hide Effective, IsAncestor, MemberStands, Named, OnMember, Resets;
    OneMoreHead(t, xs, e);
    forall h
      ensures h in Unsuperseded(t.store, left, e) + [IdOf(e)] <==> MemberStands(t, xs + [e], m, h)
    {
      UnsupersededIff(t.store, left, e, h);
    }
  }

  /** What a row not on a member leaves of it. */
  lemma OtherMember(t: Topic, xs: seq<Entry>, e: Entry, m: string)
    requires !OnMember(t, xs, e, m)
    ensures forall h :: MemberStands(t, xs + [e], m, h) <==> !Resets(t, xs, e) && MemberStands(t, xs, m, h)
    ensures forall h :: MemberResolved(t, xs + [e], m, h) <==> !Resets(t, xs, e) && MemberResolved(t, xs, m, h)
  {
    hide Effective, IsAncestor, MemberStands, MemberResolved, OnMember, Resets;
    OneMoreHead(t, xs, e);
  }

  /** The heads of the key are those of its key writes only. */
  lemma OtherKey(t: Topic, xs: seq<Entry>, e: Entry)
    requires !(Effective(t, xs, e) && KeyWrite(e))
    ensures forall h :: Stands(t, xs + [e], h) <==> Stands(t, xs, h)
    ensures forall h :: Resolved(t, xs + [e], h) <==> Resolved(t, xs, h)
  {
    hide Effective, Stands, Resolved;
    OneMoreHead(t, xs, e);
  }

  lemma KeyWriteLists(store: seq<Entry>, ks: KeyState, e: Entry, policy: Policy, value: Option<Json>)
    ensures var r := FoldKeyWrite(store, ks, e, policy, value);
            r.frontier == Unsuperseded(store, ks.frontier, e) + [IdOf(e)] && r.superseded == ks.superseded && r.members == ks.members && r.resetGen == ks.resetGen
            && r.requests == ks.requests
  {
    hide Unsuperseded, IsAncestor, OrderCompare;
  }

  lemma MemberOpLists(store: seq<Entry>, ks: KeyState, e: Entry, policy: Policy, m: string, present: bool)
    ensures var r := FoldMemberOp(store, ks, e, policy, m, present);
            && r.frontier == ks.frontier && r.superseded == ks.superseded && r.resetGen == ks.resetGen && r.requests == ks.requests && r.members.Keys == ks.members.Keys + {m}
            && (forall o | o in ks.members && o != m :: r.members[o] == ks.members[o])
            && r.members[m].frontier == Unsuperseded(store, if m in ks.members then ks.members[m].frontier else [], e) + [IdOf(e)]
            && r.members[m].superseded == if m in ks.members then ks.members[m].superseded else []
  {
    hide IsAncestor, OrderCompare;
  }

  /** Members untouched, or all gone. */
  lemma MembersKept(t: Topic, xs: seq<Entry>, ks: KeyState, e: Entry, members: map<string, MemberState>)
    requires HeadsRead(t, xs, ks) && !MemberOp(e) && members == if Resets(t, xs, e) then map[] else ks.members
    ensures forall m, h :: (m in members && h in members[m].frontier) <==> MemberStands(t, xs + [e], m, h)
    ensures forall m, h :: (m in members && h in members[m].superseded) <==> MemberResolved(t, xs + [e], m, h)
  {
    hide MemberStands, MemberResolved, Resets, Stands, Resolved, Resettings;
    forall m, h
      ensures (m in members && h in members[m].frontier) <==> MemberStands(t, xs + [e], m, h)
      ensures (m in members && h in members[m].superseded) <==> MemberResolved(t, xs + [e], m, h)
    {
      OtherMember(t, xs, e, m);
    }
  }

  lemma SetHeads(t: Topic, xs: seq<Entry>, ks: KeyState, e: Entry)
    requires Reads(t, xs, ks) && HeadsRead(t, xs, ks) && AllDistinct(ks) && Effective(t, xs, e) && (e.body.kind == "set" || e.body.kind == "del")
    ensures HeadsRead(t, xs + [e], if e.body.kind == "set" then FoldSet(t.env, t.store, ks, e, t.env.policyFor(t.key)) else FoldDel(t.store, ks, e, t.env.policyFor(t.key)))
  {
    hide FoldKeyWrite, Owner, Winner, Value, Member, IsAncestor, MarkApproved, Field, Stands, MemberStands, Resolved, MemberResolved, Resettings, Unsuperseded, Scalar,
         MemberHeadEffect, HeadEffect;
    var clear := ks.(members := map[], resetGen := ks.resetGen + 1, scalar := true);
    var ks1 := if e.body.kind == "set" && ks.scalar then ks else clear;
    KeyWriteLists(t.store, ks1, e, t.env.policyFor(t.key), if e.body.kind == "set" then Field(e.body.payload, "value") else None);
    KeyHeads(t, xs, e, ks.frontier);
    MembersKept(t, xs, ks, e, ks1.members);
    OneMoreHead(t, xs, e);
  }

  lemma ResolveHeads(t: Topic, xs: seq<Entry>, ks: KeyState, e: Entry)
    requires Reads(t, xs, ks) && HeadsRead(t, xs, ks) && AllDistinct(ks) && Effective(t, xs, e) && e.body.kind == "resolve"
    ensures HeadsRead(t, xs + [e], FoldResolve(t.env, t.store, ks, e, t.env.policyFor(t.key)))
  {
    hide FoldKeyWrite, Owner, Winner, Value, Member, IsAncestor, Field, Stands, MemberStands, Resolved, MemberResolved, Resettings, Unsuperseded, Scalar,
         ApplySupersedes, FieldIds, MemberHeadEffect, HeadEffect;
    var r := ApplySupersedes(ks.frontier, ks.superseded, Named(t, e));
    forall h
      ensures (h in r.0 <==> Stands(t, xs, h) && h !in Named(t, e)) && (h in r.1 <==> Resolved(t, xs, h) || (Stands(t, xs, h) && h in Named(t, e)))
    {
      SupersedesIff(ks.frontier, ks.superseded, Named(t, e), h);
    }
    KeyWriteLists(t.store, ks.(frontier := r.0, superseded := r.1), e, t.env.policyFor(t.key), Field(e.body.payload, "value"));
    KeyHeads(t, xs, e, r.0);
    MembersKept(t, xs, ks, e, ks.members);
    OneMoreHead(t, xs, e);
  }

  /** What standing and resolved heads an op on a member finds there. */
  ghost predicate Left(t: Topic, xs: seq<Entry>, e: Entry, m: string, left: seq<EntryId>, gone: seq<EntryId>)
  {
    && (forall h :: h in left <==> MemberStands(t, xs, m, h) && !(e.body.kind == "resolve-member" && h in Named(t, e)))
    && (forall h :: h in gone <==> MemberResolved(t, xs, m, h) || (e.body.kind == "resolve-member" && h in Named(t, e) && MemberStands(t, xs, m, h)))
  }

  /** The members' heads after an op on one of them. */
  lemma MembersHeads(t: Topic, xs: seq<Entry>, ks: KeyState, e: Entry, m: string, left: seq<EntryId>, members: map<string, MemberState>)
    requires HeadsRead(t, xs, ks) && OnMember(t, xs, e, m)
    requires members.Keys == ks.members.Keys + {m} && (forall o | o in ks.members && o != m :: members[o] == ks.members[o])
    requires members[m].frontier == Unsuperseded(t.store, left, e) + [IdOf(e)] && Left(t, xs, e, m, left, members[m].superseded)
    ensures forall o, h :: (o in members && h in members[o].frontier) <==> MemberStands(t, xs + [e], o, h)
    ensures forall o, h :: (o in members && h in members[o].superseded) <==> MemberResolved(t, xs + [e], o, h)
  {
    MemberHeads(t, xs, e, m, left);
    NoReset(t, xs, e);
    NotOthers(t, xs, e, m);
    OneMoreHead(t, xs, e);
    hide MemberStands, MemberResolved, Resets, Stands, Resolved, Resettings, Unsuperseded, OnMember, MemberHeadEffect, HeadEffect, Effective;
    forall o, h
      ensures (o in members && h in members[o].frontier) <==> MemberStands(t, xs + [e], o, h)
      ensures (o in members && h in members[o].superseded) <==> MemberResolved(t, xs + [e], o, h)
    {
      if o != m { OtherMember(t, xs, e, o); }
    }
  }

  lemma NotOthers(t: Topic, xs: seq<Entry>, e: Entry, m: string)
    requires OnMember(t, xs, e, m)
    ensures forall o | o != m :: !OnMember(t, xs, e, o)
  {
  }

  lemma AddHeads(t: Topic, xs: seq<Entry>, ks: KeyState, e: Entry)
    requires Reads(t, xs, ks) && HeadsRead(t, xs, ks) && Effective(t, xs, e) && (e.body.kind == "add" || e.body.kind == "remove")
    ensures HeadsRead(t, xs + [e], FoldAddRemove(t.env, t.store, ks, e, t.env.policyFor(t.key)))
  {
    hide FoldMemberOp, Owner, Winner, Value, Scalar, Member, IsAncestor, FieldText, Stands, MemberStands, Resolved, MemberResolved, Resettings, Unsuperseded,
         MemberHeadEffect, HeadEffect;
    var m := FieldText(t.env, e.body.payload, "member");
    var ks1 := (if ks.scalar && ks.value.Some? then ks.(value := None, resetGen := ks.resetGen + 1) else ks).(scalar := false);
    MemberOpLists(t.store, ks1, e, t.env.policyFor(t.key), m, e.body.kind == "add");
    var r := FoldMemberOp(t.store, ks1, e, t.env.policyFor(t.key), m, e.body.kind == "add");
    var left := if m in ks.members then ks.members[m].frontier else [];
    assert Left(t, xs, e, m, left, r.members[m].superseded);
    MembersHeads(t, xs, ks, e, m, left, r.members);
    OtherKey(t, xs, e);
    NoReset(t, xs, e);
    OneMoreHead(t, xs, e);
  }

  /** What the named heads of a member leave. */
  lemma MemberLeft(t: Topic, xs: seq<Entry>, ks: KeyState, e: Entry, m: string)
    requires HeadsRead(t, xs, ks) && AllDistinct(ks) && e.body.kind == "resolve-member"
    ensures var ms := SupersedeMember(t.env, ks, e, m).members;
            Left(t, xs, e, m, if m in ms then ms[m].frontier else [], if m in ms then ms[m].superseded else [])
  {
    hide Stands, MemberStands, Resolved, MemberResolved, Resettings, ApplySupersedes, FieldIds, Distinct;
    if m in ks.members {
      assert Distinct(ks.members[m].frontier);
      forall h
        ensures var r := ApplySupersedes(ks.members[m].frontier, ks.members[m].superseded, Named(t, e));
                && (h in r.0 <==> h in ks.members[m].frontier && h !in Named(t, e))
                && (h in r.1 <==> h in ks.members[m].superseded || (h in ks.members[m].frontier && h in Named(t, e)))
      {
        SupersedesIff(ks.members[m].frontier, ks.members[m].superseded, Named(t, e), h);
      }
    }
  }

  lemma ResolveMemberHeads(t: Topic, xs: seq<Entry>, ks: KeyState, e: Entry)
    requires Reads(t, xs, ks) && HeadsRead(t, xs, ks) && AllDistinct(ks) && Effective(t, xs, e) && e.body.kind == "resolve-member"
    ensures HeadsRead(t, xs + [e], FoldResolveMember(t.env, t.store, ks, e, t.env.policyFor(t.key)))
  {
    hide FoldMemberOp, Owner, Winner, Value, Scalar, Member, IsAncestor, FieldText, Stands, MemberStands, Resolved, MemberResolved, Resettings, Unsuperseded,
         ApplySupersedes, FieldIds, FieldTruthy, Left, MemberHeadEffect, HeadEffect, Distinct;
    var m, present := FieldText(t.env, e.body.payload, "member"), FieldTruthy(e.body.payload, "present");
    var ks1 := SupersedeMember(t.env, ks, e, m);
    MemberOpLists(t.store, ks1, e, t.env.policyFor(t.key), m, present);
    var r := FoldMemberOp(t.store, ks1, e, t.env.policyFor(t.key), m, present);
    MemberLeft(t, xs, ks, e, m);
    MembersHeads(t, xs, ks, e, m, if m in ks1.members then ks1.members[m].frontier else [], r.members);
    OtherKey(t, xs, e);
    NoReset(t, xs, e);
    OneMoreHead(t, xs, e);
  }

  lemma NothingHeads(t: Topic, xs: seq<Entry>, ks: KeyState, e: Entry)
    requires HeadsRead(t, xs, ks) && !Effective(t, xs, e)
    ensures HeadsRead(t, xs + [e], ks)
  {
    hide Owner, Winner, Value, Scalar, Member, IsAncestor, Stands, MemberStands, Resolved, MemberResolved, Resettings;
    OneMoreHead(t, xs, e);
  }

  lemma SameHeads(t: Topic, xs: seq<Entry>, a: KeyState, b: KeyState)
    requires HeadsRead(t, xs, a) && SameLists(a, b)
    ensures HeadsRead(t, xs, b)
  {
  }

  predicate SameLists(a: KeyState, b: KeyState)
  {
    b.frontier == a.frontier && b.members == a.members && b.superseded == a.superseded && b.resetGen == a.resetGen
  }

  /** What one entry does to a key's lists, by its kind. */
  lemma FoldLists(env: Env, store: seq<Entry>, ks: KeyState, e: Entry, policy: Policy)
    ensures var r, allowed := FoldKey(env, store, ks, e, policy), !(policy == Owned && OwnersOnly(e) && !OwnedWriteAllowed(ks, e));
            SameLists(if !(KeyWrite(e) || MemberOp(e)) || !allowed then ks
                      else if e.body.kind == "set" then FoldSet(env, store, ks, e, policy)
                      else if e.body.kind == "del" then FoldDel(store, ks, e, policy)
                      else if e.body.kind == "resolve" then FoldResolve(env, store, ks, e, policy)
                      else if e.body.kind == "resolve-member" then FoldResolveMember(env, store, ks, e, policy)
                      else FoldAddRemove(env, store, ks, e, policy), r)
  {
    hide FoldSet, FoldDel, FoldResolve, FoldAddRemove, FoldResolveMember, FieldText, Field;
  }

  lemma StepHeads(t: Topic, xs: seq<Entry>, ks: KeyState, e: Entry)
    requires Reads(t, xs, ks) && HeadsRead(t, xs, ks) && AllDistinct(ks) && On(t, e)
    ensures HeadsRead(t, xs + [e], FoldKey(t.env, t.store, ks, e, t.env.policyFor(t.key)))
  {
    hide FoldKey, FoldSet, FoldDel, FoldResolve, FoldAddRemove, FoldResolveMember, HeadsRead, Reads, Effective, AllDistinct, OwnedWriteAllowed;
    var policy := t.env.policyFor(t.key);
    var r := FoldKey(t.env, t.store, ks, e, policy);
    OwnerSays(t, xs, ks, e);
    FoldLists(t.env, t.store, ks, e, policy);
    if !Effective(t, xs, e) {
      NothingHeads(t, xs, ks, e);
      SameHeads(t, xs + [e], ks, r);
    } else if e.body.kind == "set" {
      SetHeads(t, xs, ks, e);
      SameHeads(t, xs + [e], FoldSet(t.env, t.store, ks, e, policy), r);
    } else if e.body.kind == "del" {
      SetHeads(t, xs, ks, e);
      SameHeads(t, xs + [e], FoldDel(t.store, ks, e, policy), r);
    } else if e.body.kind == "resolve" {
      ResolveHeads(t, xs, ks, e);
      SameHeads(t, xs + [e], FoldResolve(t.env, t.store, ks, e, policy), r);
    } else if e.body.kind == "resolve-member" {
      ResolveMemberHeads(t, xs, ks, e);
      SameHeads(t, xs + [e], FoldResolveMember(t.env, t.store, ks, e, policy), r);
    } else {
      AddHeads(t, xs, ks, e);
      SameHeads(t, xs + [e], FoldAddRemove(t.env, t.store, ks, e, policy), r);
    }
  }

  /** The fold refuses exactly what is not effective. */
  lemma OwnerSays(t: Topic, xs: seq<Entry>, ks: KeyState, e: Entry)
    requires Reads(t, xs, ks) && On(t, e)
    ensures Effective(t, xs, e) <==> (KeyWrite(e) || MemberOp(e)) && !(t.env.policyFor(t.key) == Owned && OwnersOnly(e) && !OwnedWriteAllowed(ks, e))
  {
    hide Owner, Winner, Value, Scalar, Member;
  }

  lemma DistinctHeads(store: seq<Entry>, folded: seq<Entry>, ks: KeyState)
    requires KeyOk(store, folded, ks)
    ensures AllDistinct(ks)
  {
    hide NotUnder, Known;
  }

  /** Folded over rows in order, every key's heads, resolved heads and reset generation are what its rows say. */
  lemma {:induction false} FoldHeads(t: Topic, xs: seq<Entry>)
    requires Sound(t.store) && Sorted(xs) && forall x | x in xs :: x in t.store
    ensures HeadsRead(t, xs, StateOf(FoldAll(t.env, t.store, map[], xs), t.key))
  {
    hide Reads, HeadsRead, FoldKey, OrderOf, KeyOk, AllDistinct, Sound, Effective;
    if xs == [] {
      FreshHeads(t);
    } else {
      var front, e := xs[..|xs| - 1], xs[|xs| - 1];
      assert xs == front + [e];
      FoldHeads(t, front);
      FoldReads(t, front);
      FoldAllHeads(t.env, t.store, front);
      var ks := StateOf(FoldAll(t.env, t.store, map[], front), t.key);
      FreshKeyOk(t.store, front);
      DistinctHeads(t.store, front, ks);
      if On(t, e) { StepHeads(t, front, ks, e); } else { OffKey(t, front, e); NothingHeads(t, front, ks, e); }
    }
  }

  lemma OffKey(t: Topic, xs: seq<Entry>, e: Entry)
    requires !On(t, e)
    ensures !Effective(t, xs, e)
  {
  }

  lemma FreshKeyOk(store: seq<Entry>, folded: seq<Entry>)
    ensures KeyOk(store, folded, FreshKey)
  {
  }

  lemma FreshHeads(t: Topic)
    ensures HeadsRead(t, [], FreshKey)
  {
  }

  // ---- requests ----

  predicate Asks(t: Topic, e: Entry) { On(t, e) && e.body.kind == "request" }

  /** A request waits until a set that names it is taken; the last such set approves it. */
  function ApprovalEffect(t: Topic, before: seq<Entry>, e: Entry, r: EntryId): Effect<Option<EntryId>>
    decreases |before|, 2
  {
    if Asks(t, e) && IdOf(e) == r then Put(None)
    else if Effective(t, before, e) && e.body.kind == "set" && e.body.ref == Some(r) && Approval(t, before, r).Some? then Put(Some(IdOf(e)))
    else Keep
  }

  function ApprovalEffects(t: Topic, xs: seq<Entry>, r: EntryId): (fx: seq<Effect<Option<EntryId>>>)
    ensures |fx| == |xs|
    decreases |xs|, 0
  {
    if xs == [] then [] else ApprovalEffects(t, xs[..|xs| - 1], r) + [ApprovalEffect(t, xs[..|xs| - 1], xs[|xs| - 1], r)]
  }

  function Approval(t: Topic, xs: seq<Entry>, r: EntryId): Option<Option<EntryId>>
    decreases |xs|, 1
  {
    Last(ApprovalEffects(t, xs, r))
  }

  /** The request says what its row says. */
  predicate SaidBy(q: RequestState, e: Entry)
  {
    q.entry == IdOf(e) && q.requester == e.writer && q.at == e.body.hlc
    && q.value == (match Field(e.body.payload, "value") case None => JNull case Some(v) => v)
  }

  ghost predicate RequestsRead(t: Topic, xs: seq<Entry>, qs: seq<RequestState>)
  {
    && (forall i, j | 0 <= i < j < |qs| :: qs[i].entry != qs[j].entry)
    && (forall q | q in qs :: Approval(t, xs, q.entry) == Some(q.approvedBy) && exists e :: e in xs && Asks(t, e) && SaidBy(q, e))
    && (forall r | Approval(t, xs, r).Some? :: exists q :: q in qs && q.entry == r)
  }

  lemma OneMoreApproval(t: Topic, xs: seq<Entry>, e: Entry, r: EntryId)
    ensures Approval(t, xs + [e], r) == Apply(ApprovalEffect(t, xs, e, r), Approval(t, xs, r))
  {
    hide ApprovalEffect;
    assert (xs + [e])[..|xs|] == xs;
    LastSnoc(ApprovalEffects(t, xs, r), ApprovalEffect(t, xs, e, r));
  }

  lemma {:induction false} Marked(qs: seq<RequestState>, ref: EntryId, approver: EntryId)
    requires forall i, j | 0 <= i < j < |qs| :: qs[i].entry != qs[j].entry
    ensures var r := MarkApproved(qs, ref, approver);
            |r| == |qs| && forall i | 0 <= i < |qs| :: r[i] == if qs[i].entry == ref then qs[i].(approvedBy := Some(approver)) else qs[i]
  {
    if qs != [] && qs[0].entry != ref {
      Marked(qs[1..], ref, approver);
    }
  }

  lemma AskedReads(t: Topic, xs: seq<Entry>, qs: seq<RequestState>, e: Entry, q: RequestState)
    requires RequestsRead(t, xs, qs) && Asks(t, e) && SaidBy(q, e) && q.approvedBy == None && forall x | x in xs :: IdOf(x) != IdOf(e)
    ensures RequestsRead(t, xs + [e], qs + [q])
  {
    hide Effective, Approval;
    forall p | p in qs
      ensures Approval(t, xs + [e], p.entry) == Some(p.approvedBy) && (exists x :: x in xs + [e] && Asks(t, x) && SaidBy(p, x)) && p.entry != q.entry
    {
      var x :| x in xs && Asks(t, x) && SaidBy(p, x);
      assert x in xs + [e];
      OneMoreApproval(t, xs, e, p.entry);
    }
    assert e in xs + [e];
    OneMoreApproval(t, xs, e, q.entry);
    forall r | Approval(t, xs + [e], r).Some?
      ensures exists p :: p in qs + [q] && p.entry == r
    {
      OneMoreApproval(t, xs, e, r);
      if r == q.entry {
        assert q in qs + [q];
      } else {
        var p :| p in qs && p.entry == r;
        assert p in qs + [q];
      }
    }
  }

  /** The requests a set names are approved by it. */
  ghost predicate MarkedBy(qs: seq<RequestState>, ref: Option<EntryId>, approver: EntryId, qs': seq<RequestState>)
  {
    |qs'| == |qs| && forall i | 0 <= i < |qs| :: qs'[i] == if ref == Some(qs[i].entry) then qs[i].(approvedBy := Some(approver)) else qs[i]
  }

  function Names(t: Topic, xs: seq<Entry>, e: Entry): Option<EntryId>
  {
    if Effective(t, xs, e) && e.body.kind == "set" then e.body.ref else None
  }

  lemma ApprovalNow(t: Topic, xs: seq<Entry>, e: Entry)
    requires !Asks(t, e)
    ensures forall r :: Approval(t, xs + [e], r) == if Approval(t, xs, r).Some? && Names(t, xs, e) == Some(r) then Some(Some(IdOf(e))) else Approval(t, xs, r)
  {
    hide Effective, Approval;
    forall r
      ensures Approval(t, xs + [e], r) == if Approval(t, xs, r).Some? && Names(t, xs, e) == Some(r) then Some(Some(IdOf(e))) else Approval(t, xs, r)
    {
      OneMoreApproval(t, xs, e, r);
    }
  }

  lemma ApprovedReads(t: Topic, xs: seq<Entry>, qs: seq<RequestState>, e: Entry, qs': seq<RequestState>)
    requires RequestsRead(t, xs, qs) && !Asks(t, e) && MarkedBy(qs, Names(t, xs, e), IdOf(e), qs')
    ensures RequestsRead(t, xs + [e], qs')
  {
    hide Effective, Approval, Names, Asks, SaidBy;
    ApprovalNow(t, xs, e);
    forall q | q in qs'
      ensures Approval(t, xs + [e], q.entry) == Some(q.approvedBy) && exists x :: x in xs + [e] && Asks(t, x) && SaidBy(q, x)
    {
      var i :| 0 <= i < |qs'| && qs'[i] == q;
      assert qs[i] in qs && qs[i].entry == q.entry;
      var x :| x in xs && Asks(t, x) && SaidBy(qs[i], x);
      SameSaid(qs[i], q, x);
      assert x in xs + [e];
    }
    forall r | Approval(t, xs + [e], r).Some?
      ensures exists q :: q in qs' && q.entry == r
    {
      var p :| p in qs && p.entry == r;
      var i :| 0 <= i < |qs| && qs[i] == p;
      assert qs'[i] in qs';
    }
  }

  lemma SameSaid(p: RequestState, q: RequestState, e: Entry)
    requires SaidBy(p, e) && q == p.(approvedBy := q.approvedBy)
    ensures SaidBy(q, e)
  {
  }

  lemma MarksOf(qs: seq<RequestState>, ref: Option<EntryId>, approver: EntryId)
    requires forall i, j | 0 <= i < j < |qs| :: qs[i].entry != qs[j].entry
    ensures MarkedBy(qs, ref, approver, if ref.Some? then MarkApproved(qs, ref.value, approver) else qs)
  {
    if ref.Some? { Marked(qs, ref.value, approver); }
  }

  /** What one entry does to a key's requests. */
  lemma FoldRequests(env: Env, store: seq<Entry>, ks: KeyState, e: Entry, policy: Policy)
    ensures var r, allowed := FoldKey(env, store, ks, e, policy).requests, !(policy == Owned && OwnersOnly(e) && !OwnedWriteAllowed(ks, e));
            if e.body.kind == "request" then exists q :: r == ks.requests + [q] && SaidBy(q, e) && q.approvedBy == None
            else r == if e.body.kind == "set" && allowed && e.body.ref.Some? then MarkApproved(ks.requests, e.body.ref.value, IdOf(e)) else ks.requests
  {
    hide FoldSet, FoldDel, FoldResolve, FoldAddRemove, FoldResolveMember, Field, FieldText, MarkApproved;
    if e.body.kind == "request" {
      RequestSaid(ks, e);
    } else {
      WriteRequests(env, store, ks, e, policy);
    }
  }

  lemma RequestSaid(ks: KeyState, e: Entry)
    ensures var q := FoldRequest(ks, e).requests[|ks.requests|];
            FoldRequest(ks, e).requests == ks.requests + [q] && SaidBy(q, e) && q.approvedBy == None
  {
  }

  lemma WriteRequests(env: Env, store: seq<Entry>, ks: KeyState, e: Entry, policy: Policy)
    ensures FoldSet(env, store, ks, e, policy).requests == if e.body.ref.Some? then MarkApproved(ks.requests, e.body.ref.value, IdOf(e)) else ks.requests
    ensures FoldDel(store, ks, e, policy).requests == ks.requests && FoldResolve(env, store, ks, e, policy).requests == ks.requests
    ensures FoldAddRemove(env, store, ks, e, policy).requests == ks.requests && FoldResolveMember(env, store, ks, e, policy).requests == ks.requests
  {
    hide FoldKeyWrite, FoldMemberOp, ApplySupersedes, Field, FieldText, FieldIds, FieldTruthy, MarkApproved;
    var clear := ks.(members := map[], resetGen := ks.resetGen + 1, scalar := true);
    var r := ApplySupersedes(ks.frontier, ks.superseded, FieldIds(env, e.body.payload, "supersedes"));
    var m, value := FieldText(env, e.body.payload, "member"), Field(e.body.payload, "value");
    KeyWriteLists(store, if ks.scalar then ks else clear, e, policy, value);
    KeyWriteLists(store, clear, e, policy, None);
    KeyWriteLists(store, ks.(frontier := r.0, superseded := r.1), e, policy, value);
    MemberOpLists(store, (if ks.scalar && ks.value.Some? then ks.(value := None, resetGen := ks.resetGen + 1) else ks).(scalar := false), e, policy, m, e.body.kind == "add");
    MemberOpLists(store, SupersedeMember(env, ks, e, m), e, policy, m, FieldTruthy(e.body.payload, "present"));
  }

  /** Folded over rows in order, every key's requests are those its rows ask, each once, with what approved it. */
  lemma {:induction false} FoldAsks(t: Topic, xs: seq<Entry>)
    requires Sound(t.store) && Sorted(xs) && forall x | x in xs :: x in t.store
    ensures RequestsRead(t, xs, StateOf(FoldAll(t.env, t.store, map[], xs), t.key).requests)
  {
    hide Reads, RequestsRead, FoldKey, Sound, Effective, OwnedWriteAllowed;
    if xs == [] {
      NoneAsked(t);
    } else {
      var front, e := xs[..|xs| - 1], xs[|xs| - 1];
      assert xs == front + [e];
      FoldAsks(t, front);
      FoldReads(t, front);
      var ks := StateOf(FoldAll(t.env, t.store, map[], front), t.key);
      DistinctAsks(t, front, ks.requests);
      OtherIds(t.store, front, e);
      if On(t, e) {
        OwnerSays(t, front, ks, e);
        FoldRequests(t.env, t.store, ks, e, t.env.policyFor(t.key));
        if Asks(t, e) {
          var q :| FoldKey(t.env, t.store, ks, e, t.env.policyFor(t.key)).requests == ks.requests + [q] && SaidBy(q, e) && q.approvedBy == None;
          AskedReads(t, front, ks.requests, e, q);
        } else {
          MarksOf(ks.requests, Names(t, front, e), IdOf(e));
          ApprovedReads(t, front, ks.requests, e, FoldKey(t.env, t.store, ks, e, t.env.policyFor(t.key)).requests);
        }
      } else {
        OffKey(t, front, e);
        MarksOf(ks.requests, Names(t, front, e), IdOf(e));
        ApprovedReads(t, front, ks.requests, e, ks.requests);
      }
    }
  }

  lemma DistinctAsks(t: Topic, xs: seq<Entry>, qs: seq<RequestState>)
    requires RequestsRead(t, xs, qs)
    ensures forall i, j | 0 <= i < j < |qs| :: qs[i].entry != qs[j].entry
  {
  }

  lemma OtherIds(store: seq<Entry>, xs: seq<Entry>, e: Entry)
    requires Sound(store) && Sorted(xs + [e]) && e in store && forall x | x in xs :: x in store
    ensures forall x | x in xs :: IdOf(x) != IdOf(e)
  {
    forall x | x in xs
      ensures IdOf(x) != IdOf(e)
    {
      var i :| 0 <= i < |xs| && xs[i] == x;
      assert (xs + [e])[i] == x && (xs + [e])[|xs|] == e;
      OrderTotal(OrderOf(x), OrderOf(e));
    }
  }

  lemma NoneAsked(t: Topic)
    ensures RequestsRead(t, [], FreshKey.requests)
  {
  }

  // ---- the hub ----

  /** What any hub holds of a key, rebased or not, is what the rows say of it. */
  lemma HubReads(env: Env, log: seq<LogRow>, base: Option<Base>, key: string)
    requires TopicOk(log) && GoodBase(env, log, base)
    ensures var t, xs := Topic(env, EntriesOf(log), key), Target(log, None);
            var ks := StateOf(FoldAll(env, EntriesOf(log), BaseKeys(base), Target(log, Floor(base))), key);
            Reads(t, xs, ks) && HeadsRead(t, xs, ks) && RequestsRead(t, xs, ks.requests)
  {
    var t, xs := Topic(env, EntriesOf(log), key), Target(log, None);
    SortSorts(EntriesOf(log));
    AfterNone(SortEntries(EntriesOf(log)));
    hide Reads, HeadsRead, RequestsRead, FoldAll, EntriesOf, SortEntries, After;
    RebaseKeepsFold(env, log, base);
    FoldReads(t, xs);
    FoldHeads(t, xs);
    FoldAsks(t, xs);
  }

  /** The same at any place in the order: what the register read there is what the rows up to it say. */
  lemma PlaceReads(env: Env, log: seq<LogRow>, base: Option<Base>, at: Order, key: string)
    requires TopicOk(log) && GoodBase(env, log, base)
    ensures var t, xs, ks := Topic(env, EntriesOf(log), key), RowsAt(log, None, at), StateOf(KeysAt(env, log, base, at), key);
            Reads(t, xs, ks) && HeadsRead(t, xs, ks) && RequestsRead(t, xs, ks.requests)
  {
    var t, xs := Topic(env, EntriesOf(log), key), RowsAt(log, None, at);
    RowsAtMembers(log, None, at);
    GoodBaseState(env, log, base, at);
    hide Reads, HeadsRead, RequestsRead, FoldAll, EntriesOf, RowsAt, GoodBase, TopicOk;
    SoundOf(log);
    FoldReads(t, xs);
    FoldHeads(t, xs);
    FoldAsks(t, xs);
  }

  lemma SoundOf(log: seq<LogRow>)
    requires TopicOk(log)
    ensures Sound(EntriesOf(log))
  {
  }

  /** A hub that has materialized, from a good base, answers for every key what the rows it holds say, in their total order. */
  lemma MaterializedSays(hub: RegisterTopic, key: string)
    requires hub.Valid() && hub.CaughtUp() && GoodBase(hub.env, hub.log, hub.from)
    ensures var t, xs, ks := Topic(hub.env, EntriesOf(hub.log), key), Target(hub.log, None), StateOf(hub.keys, key);
            && SaysLast(t, xs, ks) && (hub.env.policyFor(key) != Fww ==> SaysLater(t, xs, ks))
            && HeadsRead(t, xs, ks) && RequestsRead(t, xs, ks.requests)
  {
    hide Reads, HeadsRead, RequestsRead, SaysLast, SaysLater, FoldAll, EntriesOf, GoodBase, TopicOk, Target, Held, Consumed;
    var t, xs, ks := Topic(hub.env, EntriesOf(hub.log), key), Target(hub.log, None), StateOf(hub.keys, key);
    NothingLeft(hub.folded, hub.log, hub.lastRowid, Floor(hub.from));
    HubReads(hub.env, hub.log, hub.from, key);
    ReadsSay(t, xs, ks);
    if hub.env.policyFor(key) != Fww { SaysLaterToo(t, xs, ks); }
  }
}
