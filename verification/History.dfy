/**
  What a register reads as, told by the rows alone (src/register.ts:517-716): who owns a key, which row won it, what
  its value is, which members it has, and which conflict heads stand. Each is what the last row that had a say left.
*/
module RegisterHistory {
  import opened HlcClock
  import opened Entries
  import opened Cuts
  import opened Registers

  // ---- the last one that had a say ----

  /** What a row does to something: nothing, take it away, or set it. */
  datatype Effect<T> = Keep | Clear | Put(value: T)

  function Last<T>(fx: seq<Effect<T>>): Option<T>
  {
    if fx == [] then None
    else
      match fx[|fx| - 1]
      case Keep => Last(fx[..|fx| - 1])
      case Clear => None
      case Put(v) => Some(v)
  }

  /** Set to v: a row set it so, and none since has had a say. */
  lemma {:induction false} LastIff<T>(fx: seq<Effect<T>>, v: T)
    ensures Last(fx) == Some(v) <==> exists i :: 0 <= i < |fx| && fx[i] == Put(v) && forall j | i < j < |fx| :: fx[j] == Keep
  {
    if fx != [] {
      var front, last := fx[..|fx| - 1], fx[|fx| - 1];
      if last == Keep {
        LastIff(front, v);
        if Last(front) == Some(v) {
          var i :| 0 <= i < |front| && front[i] == Put(v) && forall j | i < j < |front| :: front[j] == Keep;
          assert fx[i] == Put(v) && forall j | i < j < |fx| :: fx[j] == Keep;
        }
        forall i | 0 <= i < |fx| && fx[i] == Put(v) && forall j | i < j < |fx| :: fx[j] == Keep
          ensures Last(front) == Some(v)
        {
          assert front[i] == Put(v) && forall j | i < j < |front| :: front[j] == Keep;
        }
      } else if last == Put(v) {
        assert fx[|fx| - 1] == Put(v);
      }
    }
  }

  // ---- what each row has to say ----

  /** A topic's fold: its policies and verdicts, and the rows that causal pointers are looked up in. */
  datatype Topic = Topic(env: Env, store: seq<Entry>, key: string)

  predicate On(t: Topic, e: Entry) { e.body.key == Some(t.key) }

  predicate KeyWrite(e: Entry) { e.body.kind == "set" || e.body.kind == "del" || e.body.kind == "resolve" }

  predicate MemberOp(e: Entry) { e.body.kind == "add" || e.body.kind == "remove" || e.body.kind == "resolve-member" }

  /** What only the owner of an owned key may do. */
  predicate OwnersOnly(e: Entry) { e.body.kind == "set" || e.body.kind == "del" || e.body.kind == "add" || e.body.kind == "remove" }

  /**
    Whose the key is: a chown by the owner, or by anyone while nobody owns it, and a verified takeover give it to the one
    they name; on an owned key the first write takes it.
  */
  function OwnerEffect(t: Topic, before: seq<Entry>, e: Entry): Effect<string>
    decreases |before|, 2
  {
    if !On(t, e) then Keep
    else
      var free := Owner(t, before).None?;
      if e.body.kind == "chown" && (free || Owner(t, before) == Some(e.writer)) then Put(FieldText(t.env, e.body.payload, "newOwner"))
      else if e.body.kind == "chown-takeover" && t.env.takeoverOk(e) then Put(FieldText(t.env, e.body.payload, "newOwner"))
      else if t.env.policyFor(t.key) == Owned && OwnersOnly(e) && free then Put(e.writer)
      else Keep
  }

  function OwnerEffects(t: Topic, xs: seq<Entry>): (fx: seq<Effect<string>>)
    ensures |fx| == |xs|
    decreases |xs|, 0
  {
    if xs == [] then [] else OwnerEffects(t, xs[..|xs| - 1]) + [OwnerEffect(t, xs[..|xs| - 1], xs[|xs| - 1])]
  }

  function Owner(t: Topic, xs: seq<Entry>): Option<string>
    decreases |xs|, 1
  {
    Last(OwnerEffects(t, xs))
  }

  /** A write or member op on the key that is not refused for want of ownership. */
  predicate Effective(t: Topic, before: seq<Entry>, e: Entry)
  {
    On(t, e) && (KeyWrite(e) || MemberOp(e))
    && (t.env.policyFor(t.key) == Owned && OwnersOnly(e) ==> Owner(t, before).None? || Owner(t, before) == Some(e.writer))
  }

  /** Whether the key is a scalar: an add or remove makes it a set of members, a set or del a scalar again. */
  function ScalarEffect(t: Topic, before: seq<Entry>, e: Entry): Effect<bool>
  {
    if !Effective(t, before, e) then Keep
    else if e.body.kind == "set" || e.body.kind == "del" then Put(true)
    else if e.body.kind == "add" || e.body.kind == "remove" then Put(false)
    else Keep
  }

  function ScalarEffects(t: Topic, xs: seq<Entry>): (fx: seq<Effect<bool>>)
    ensures |fx| == |xs|
  {
    if xs == [] then [] else ScalarEffects(t, xs[..|xs| - 1]) + [ScalarEffect(t, xs[..|xs| - 1], xs[|xs| - 1])]
  }

  predicate Scalar(t: Topic, xs: seq<Entry>) { Last(ScalarEffects(t, xs)) != Some(false) }

  /** Does the row win the key? First-writer-wins keeps the winner against key writes that do not descend from it. */
  predicate Adopts(t: Topic, before: seq<Entry>, e: Entry)
    decreases |before|, 2
  {
    Effective(t, before, e)
    && (MemberOp(e) || t.env.policyFor(t.key) != Fww || Winner(t, before).None? || IsAncestor(t.store, IdOf(Winner(t, before).value), e))
  }

  function WinnerEffects(t: Topic, xs: seq<Entry>): (fx: seq<Effect<Entry>>)
    ensures |fx| == |xs|
    decreases |xs|, 0
  {
    if xs == [] then []
    else
      var front, e := xs[..|xs| - 1], xs[|xs| - 1];
      WinnerEffects(t, front) + [if Adopts(t, front, e) then Put(e) else Keep]
  }

  function Winner(t: Topic, xs: seq<Entry>): Option<Entry>
    decreases |xs|, 1
  {
    Last(WinnerEffects(t, xs))
  }

  /** The value: a winning set or resolve that carries one sets it; a winning del takes it away, and so does turning a scalar into members. */
  function ValueEffect(t: Topic, before: seq<Entry>, e: Entry): Effect<Json>
  {
    var carried := Field(e.body.payload, "value");
    if (e.body.kind == "set" || e.body.kind == "resolve") && Adopts(t, before, e) && carried.Some? then Put(carried.value)
    else if e.body.kind == "del" && Adopts(t, before, e) then Clear
    else if (e.body.kind == "add" || e.body.kind == "remove") && Effective(t, before, e) && Scalar(t, before) then Clear
    else Keep
  }

  function ValueEffects(t: Topic, xs: seq<Entry>): (fx: seq<Effect<Json>>)
    ensures |fx| == |xs|
  {
    if xs == [] then [] else ValueEffects(t, xs[..|xs| - 1]) + [ValueEffect(t, xs[..|xs| - 1], xs[|xs| - 1])]
  }

  function Value(t: Topic, xs: seq<Entry>): Option<Json> { Last(ValueEffects(t, xs)) }

  /** A del, or a set on a key of members, clears all members. */
  predicate Resets(t: Topic, before: seq<Entry>, e: Entry)
  {
    Effective(t, before, e) && (e.body.kind == "del" || (e.body.kind == "set" && !Scalar(t, before)))
  }

  predicate OnMember(t: Topic, before: seq<Entry>, e: Entry, m: string)
  {
    Effective(t, before, e) && MemberOp(e) && FieldText(t.env, e.body.payload, "member") == m
  }

  predicate Present(e: Entry) { e.body.kind == "add" || (e.body.kind == "resolve-member" && FieldTruthy(e.body.payload, "present")) }

  /** The row that says whether a member is there; under first-writer-wins only a descendant replaces it. */
  function MemberEffect(t: Topic, before: seq<Entry>, e: Entry, m: string): Effect<Entry>
    decreases |before|, 2
  {
    if Resets(t, before, e) then Clear
    else if OnMember(t, before, e, m)
            && (t.env.policyFor(t.key) != Fww || Member(t, before, m).None? || IsAncestor(t.store, IdOf(Member(t, before, m).value), e)) then Put(e)
    else Keep
  }

  function MemberEffects(t: Topic, xs: seq<Entry>, m: string): (fx: seq<Effect<Entry>>)
    ensures |fx| == |xs|
    decreases |xs|, 0
  {
    if xs == [] then [] else MemberEffects(t, xs[..|xs| - 1], m) + [MemberEffect(t, xs[..|xs| - 1], xs[|xs| - 1], m)]
  }

  function Member(t: Topic, xs: seq<Entry>, m: string): Option<Entry>
    decreases |xs|, 1
  {
    Last(MemberEffects(t, xs, m))
  }

  // ---- the fold reads so ----

  /** A key state says what the rows say. */
  ghost predicate Reads(t: Topic, xs: seq<Entry>, ks: KeyState)
  {
    && ks.owner == Owner(t, xs) && ks.scalar == Scalar(t, xs) && ks.value == Value(t, xs)
    && WonBy(ks.winner, Winner(t, xs)) && forall m :: MemberReads(ks, m, Member(t, xs, m))
  }

  predicate WonBy(a: Option<Adopted>, e: Option<Entry>)
  {
    a == if e.Some? then Some(Adopted(IdOf(e.value), OrderOf(e.value))) else None
  }

  predicate MemberReads(ks: KeyState, m: string, e: Option<Entry>)
  {
    (m in ks.members <==> e.Some?)
    && (e.Some? ==> ks.members[m].present == Present(e.value) && ks.members[m].head == Adopted(IdOf(e.value), OrderOf(e.value)))
  }

  // ---- the last row that had a say, by its place ----

  lemma {:induction false} OwnerAt(t: Topic, xs: seq<Entry>, i: nat)
    requires i < |xs|
    ensures OwnerEffects(t, xs)[i] == OwnerEffect(t, xs[..i], xs[i])
  {
    hide OwnerEffect;
    if i < |xs| - 1 {
      OwnerAt(t, xs[..|xs| - 1], i);
      assert xs[..|xs| - 1][..i] == xs[..i];
    }
  }

  lemma {:induction false} WinnerAt(t: Topic, xs: seq<Entry>, i: nat)
    requires i < |xs|
    ensures WinnerEffects(t, xs)[i] == if Adopts(t, xs[..i], xs[i]) then Put(xs[i]) else Keep
  {
    hide Adopts;
    if i < |xs| - 1 {
      WinnerAt(t, xs[..|xs| - 1], i);
      assert xs[..|xs| - 1][..i] == xs[..i];
    }
  }

  lemma {:induction false} ValueAt(t: Topic, xs: seq<Entry>, i: nat)
    requires i < |xs|
    ensures ValueEffects(t, xs)[i] == ValueEffect(t, xs[..i], xs[i])
  {
    hide ValueEffect;
    if i < |xs| - 1 {
      ValueAt(t, xs[..|xs| - 1], i);
      assert xs[..|xs| - 1][..i] == xs[..i];
    }
  }

  lemma {:induction false} MemberAt(t: Topic, xs: seq<Entry>, m: string, i: nat)
    requires i < |xs|
    ensures MemberEffects(t, xs, m)[i] == MemberEffect(t, xs[..i], xs[i], m)
  {
    hide MemberEffect;
    if i < |xs| - 1 {
      MemberAt(t, xs[..|xs| - 1], m, i);
      assert xs[..|xs| - 1][..i] == xs[..i];
    }
  }

  /** A row gives the key to w, and no later one changes that. */
  ghost predicate GivenTo(t: Topic, xs: seq<Entry>, w: string, i: nat)
  {
    i < |xs| && OwnerEffect(t, xs[..i], xs[i]) == Put(w) && forall j | i < j < |xs| :: OwnerEffect(t, xs[..j], xs[j]) == Keep
  }

  /** A row wins the key, and no later one does. */
  ghost predicate WinsLast(t: Topic, xs: seq<Entry>, i: nat)
  {
    i < |xs| && Adopts(t, xs[..i], xs[i]) && forall j | i < j < |xs| :: !Adopts(t, xs[..j], xs[j])
  }

  /** A row sets the value, and no later one sets it or takes it away. */
  ghost predicate SetLast(t: Topic, xs: seq<Entry>, v: Json, i: nat)
  {
    i < |xs| && ValueEffect(t, xs[..i], xs[i]) == Put(v) && forall j | i < j < |xs| :: ValueEffect(t, xs[..j], xs[j]) == Keep
  }

  /** A row has the last word on a member. */
  ghost predicate SaidLast(t: Topic, xs: seq<Entry>, m: string, i: nat)
  {
    i < |xs| && MemberEffect(t, xs[..i], xs[i], m) == Put(xs[i]) && forall j | i < j < |xs| :: MemberEffect(t, xs[..j], xs[j], m) == Keep
  }

  /** The owner is the one the last row that gave the key away names. */
  lemma OwnerIff(t: Topic, xs: seq<Entry>, w: string)
    ensures Owner(t, xs) == Some(w) <==> exists i: nat :: GivenTo(t, xs, w, i)
  {
    hide OwnerEffect;
    LastIff(OwnerEffects(t, xs), w);
    forall i: nat | i < |xs| ensures OwnerEffects(t, xs)[i] == OwnerEffect(t, xs[..i], xs[i]) { OwnerAt(t, xs, i); }
    if Owner(t, xs) == Some(w) {
      var i :| 0 <= i < |xs| && OwnerEffects(t, xs)[i] == Put(w) && forall j | i < j < |xs| :: OwnerEffects(t, xs)[j] == Keep;
      assert GivenTo(t, xs, w, i);
    }
  }

  /** The winner is the last row to win the key. */
  lemma WinnerIff(t: Topic, xs: seq<Entry>, e: Entry)
    ensures Winner(t, xs) == Some(e) <==> exists i: nat :: i < |xs| && WinsLast(t, xs, i) && xs[i] == e
  {
    hide Adopts;
    var fx := WinnerEffects(t, xs);
    LastIff(fx, e);
    forall i: nat | i < |xs| ensures fx[i] == if Adopts(t, xs[..i], xs[i]) then Put(xs[i]) else Keep { WinnerAt(t, xs, i); }
    if Winner(t, xs) == Some(e) {
      var i :| 0 <= i < |xs| && fx[i] == Put(e) && forall j | i < j < |xs| :: fx[j] == Keep;
      assert WinsLast(t, xs, i);
    }
  }

  /** The value is what the last row that set it or took it away left. */
  lemma ValueIff(t: Topic, xs: seq<Entry>, v: Json)
    ensures Value(t, xs) == Some(v) <==> exists i: nat :: SetLast(t, xs, v, i)
  {
    hide ValueEffect;
    LastIff(ValueEffects(t, xs), v);
    forall i: nat | i < |xs| ensures ValueEffects(t, xs)[i] == ValueEffect(t, xs[..i], xs[i]) { ValueAt(t, xs, i); }
    if Value(t, xs) == Some(v) {
      var i :| 0 <= i < |xs| && ValueEffects(t, xs)[i] == Put(v) && forall j | i < j < |xs| :: ValueEffects(t, xs)[j] == Keep;
      assert SetLast(t, xs, v, i);
    }
  }

  lemma MemberIff(t: Topic, xs: seq<Entry>, m: string, e: Entry)
    ensures Member(t, xs, m) == Some(e) <==> exists i: nat :: i < |xs| && SaidLast(t, xs, m, i) && xs[i] == e
  {
    PutsItself(t, m);
    hide MemberEffect;
    var fx := MemberEffects(t, xs, m);
    LastIff(fx, e);
    forall i: nat | i < |xs| ensures fx[i] == MemberEffect(t, xs[..i], xs[i], m) { MemberAt(t, xs, m, i); }
    if Member(t, xs, m) == Some(e) {
      var i :| 0 <= i < |xs| && fx[i] == Put(e) && forall j | i < j < |xs| :: fx[j] == Keep;
      assert SaidLast(t, xs, m, i);
    }
  }

  lemma PutsItself(t: Topic, m: string)
    ensures forall xs, e | MemberEffect(t, xs, e, m).Put? :: MemberEffect(t, xs, e, m) == Put(e)
  {
  }

  // ---- what a reader gets ----

  /** The last effective row, when first writers do not win. */
  ghost predicate LastEffective(t: Topic, xs: seq<Entry>, i: nat)
  {
    i < |xs| && Effective(t, xs[..i], xs[i]) && forall j | i < j < |xs| :: !Effective(t, xs[..j], xs[j])
  }

  /** A set or resolve carries v; nothing since carries another, deletes the key, or makes it a set of members. */
  ghost predicate LastCarrier(t: Topic, xs: seq<Entry>, v: Json, i: nat)
  {
    && i < |xs| && Effective(t, xs[..i], xs[i]) && Carries(xs[i], v)
    && forall j | i < j < |xs| && Effective(t, xs[..j], xs[j]) ::
         xs[j].body.kind != "del" && (forall u :: !Carries(xs[j], u)) && (Scalar(t, xs[..j]) ==> xs[j].body.kind != "add" && xs[j].body.kind != "remove")
  }

  predicate Carries(e: Entry, v: Json) { (e.body.kind == "set" || e.body.kind == "resolve") && Field(e.body.payload, "value") == Some(v) }

  /** The last op on a member since the last reset, when first writers do not win. */
  ghost predicate LastOp(t: Topic, xs: seq<Entry>, m: string, i: nat)
  {
    i < |xs| && OnMember(t, xs[..i], xs[i], m) && forall j | i < j < |xs| :: !OnMember(t, xs[..j], xs[j], m) && !Resets(t, xs[..j], xs[j])
  }

  lemma LastWins(t: Topic, xs: seq<Entry>, i: nat)
    requires t.env.policyFor(t.key) != Fww
    ensures WinsLast(t, xs, i) <==> LastEffective(t, xs, i)
  {
    hide Effective, Winner, IsAncestor;
  }

  lemma LastCarries(t: Topic, xs: seq<Entry>, v: Json, i: nat)
    requires t.env.policyFor(t.key) != Fww
    ensures SetLast(t, xs, v, i) <==> LastCarrier(t, xs, v, i)
  {
    hide ValueEffect, Effective, Carries, Scalar;
    forall j | 0 <= j < |xs|
      ensures forall u :: ValueEffect(t, xs[..j], xs[j]) == Put(u) <==> Effective(t, xs[..j], xs[j]) && Carries(xs[j], u)
      ensures ValueEffect(t, xs[..j], xs[j]) == Keep <==>
              (Effective(t, xs[..j], xs[j]) ==> xs[j].body.kind != "del" && (forall u :: !Carries(xs[j], u))
                                                && (Scalar(t, xs[..j]) ==> xs[j].body.kind != "add" && xs[j].body.kind != "remove"))
    {
      ValueCases(t, xs[..j], xs[j]);
    }
  }

  lemma ValueCases(t: Topic, before: seq<Entry>, e: Entry)
    requires t.env.policyFor(t.key) != Fww
    ensures forall u :: ValueEffect(t, before, e) == Put(u) <==> Effective(t, before, e) && Carries(e, u)
    ensures ValueEffect(t, before, e) == Keep <==>
            (Effective(t, before, e) ==> e.body.kind != "del" && (forall u :: !Carries(e, u)) && (Scalar(t, before) ==> e.body.kind != "add" && e.body.kind != "remove"))
  {
    hide Effective, Scalar, Winner, IsAncestor, Field;
    var carried := Field(e.body.payload, "value");
    if (e.body.kind == "set" || e.body.kind == "resolve") && carried.Some? { assert Carries(e, carried.value); }
  }

  lemma LastSays(t: Topic, xs: seq<Entry>, m: string, i: nat)
    requires t.env.policyFor(t.key) != Fww
    ensures SaidLast(t, xs, m, i) <==> LastOp(t, xs, m, i)
  {
    hide MemberEffect, OnMember, Resets;
    forall j | 0 <= j < |xs|
      ensures MemberEffect(t, xs[..j], xs[j], m) == Put(xs[j]) <==> OnMember(t, xs[..j], xs[j], m)
      ensures MemberEffect(t, xs[..j], xs[j], m) == Keep <==> !OnMember(t, xs[..j], xs[j], m) && !Resets(t, xs[..j], xs[j])
    {
      MemberCases(t, xs[..j], xs[j], m);
    }
  }

  lemma MemberCases(t: Topic, before: seq<Entry>, e: Entry, m: string)
    requires t.env.policyFor(t.key) != Fww
    ensures MemberEffect(t, before, e, m) == Put(e) <==> OnMember(t, before, e, m)
    ensures MemberEffect(t, before, e, m) == Keep <==> !OnMember(t, before, e, m) && !Resets(t, before, e)
  {
    hide Effective, Scalar, Member, IsAncestor, FieldText;
  }

  /** Winner, value, members and owner, by the rows that had the last word. */
  ghost predicate SaysLast(t: Topic, xs: seq<Entry>, ks: KeyState)
  {
    && (forall a :: ks.winner == Some(a) <==> exists i: nat :: i < |xs| && WinsLast(t, xs, i) && a == Adopted(IdOf(xs[i]), OrderOf(xs[i])))
    && (forall v :: ks.value == Some(v) <==> exists i: nat :: SetLast(t, xs, v, i))
    && (forall m :: m in ks.members && ks.members[m].present <==> exists i: nat :: i < |xs| && SaidLast(t, xs, m, i) && Present(xs[i]))
    && (forall w :: ks.owner == Some(w) <==> exists i: nat :: GivenTo(t, xs, w, i))
  }

  /**
    The same unless first writers win: the winner is the last effective row; the value is the one last carried, with no
    del and no turn to members since; a member is there exactly when the last op on it since the last reset put it there.
  */
  ghost predicate SaysLater(t: Topic, xs: seq<Entry>, ks: KeyState)
  {
    && (forall a :: ks.winner == Some(a) <==> exists i: nat :: i < |xs| && LastEffective(t, xs, i) && a == Adopted(IdOf(xs[i]), OrderOf(xs[i])))
    && (forall v :: ks.value == Some(v) <==> exists i: nat :: LastCarrier(t, xs, v, i))
    && (forall m :: m in ks.members && ks.members[m].present <==> exists i: nat :: i < |xs| && LastOp(t, xs, m, i) && Present(xs[i]))
  }

  lemma WinnerSays(t: Topic, xs: seq<Entry>, winner: Option<Adopted>, a: Adopted)
    requires WonBy(winner, Winner(t, xs))
    ensures winner == Some(a) <==> exists i: nat :: i < |xs| && WinsLast(t, xs, i) && a == Adopted(IdOf(xs[i]), OrderOf(xs[i]))
  {
    hide Winner, WinsLast;
    if winner.Some? { WinnerIff(t, xs, Winner(t, xs).value); }
    forall i: nat | i < |xs| && WinsLast(t, xs, i)
      ensures winner == Some(Adopted(IdOf(xs[i]), OrderOf(xs[i])))
    {
      WinnerIff(t, xs, xs[i]);
    }
  }

  lemma MemberSays(t: Topic, xs: seq<Entry>, ks: KeyState, m: string)
    requires MemberReads(ks, m, Member(t, xs, m))
    ensures m in ks.members && ks.members[m].present <==> exists i: nat :: i < |xs| && SaidLast(t, xs, m, i) && Present(xs[i])
  {
    hide Member, SaidLast, Present;
    if m in ks.members { MemberIff(t, xs, m, Member(t, xs, m).value); }
    forall i: nat | i < |xs| && SaidLast(t, xs, m, i)
      ensures Member(t, xs, m) == Some(xs[i])
    {
      MemberIff(t, xs, m, xs[i]);
    }
  }

  lemma ReadsSay(t: Topic, xs: seq<Entry>, ks: KeyState)
    requires Reads(t, xs, ks)
    ensures SaysLast(t, xs, ks)
  {
    hide Owner, Winner, Value, Member, Scalar, WinsLast, SetLast, SaidLast, GivenTo, Present, WonBy;
    forall a
      ensures ks.winner == Some(a) <==> exists i: nat :: i < |xs| && WinsLast(t, xs, i) && a == Adopted(IdOf(xs[i]), OrderOf(xs[i]))
    {
      WinnerSays(t, xs, ks.winner, a);
    }
    forall v ensures ks.value == Some(v) <==> exists i: nat :: SetLast(t, xs, v, i) { ValueIff(t, xs, v); }
    forall m
      ensures m in ks.members && ks.members[m].present <==> exists i: nat :: i < |xs| && SaidLast(t, xs, m, i) && Present(xs[i])
    {
      MemberSays(t, xs, ks, m);
    }
    forall w ensures ks.owner == Some(w) <==> exists i: nat :: GivenTo(t, xs, w, i) { OwnerIff(t, xs, w); }
  }

  lemma SaysLaterToo(t: Topic, xs: seq<Entry>, ks: KeyState)
    requires SaysLast(t, xs, ks) && t.env.policyFor(t.key) != Fww
    ensures SaysLater(t, xs, ks)
  {
    hide WinsLast, SetLast, SaidLast, LastEffective, LastCarrier, LastOp, GivenTo, Present;
    forall i: nat ensures WinsLast(t, xs, i) <==> LastEffective(t, xs, i) { LastWins(t, xs, i); }
    forall v, i: nat ensures SetLast(t, xs, v, i) <==> LastCarrier(t, xs, v, i) { LastCarries(t, xs, v, i); }
    forall m, i: nat ensures SaidLast(t, xs, m, i) <==> LastOp(t, xs, m, i) { LastSays(t, xs, m, i); }
  }

  // ---- first writer wins ----

  /** Each row an ancestor of the next. */
  predicate Chained(store: seq<Entry>, c: seq<Entry>) { forall k | 0 < k < |c| :: IsAncestor(store, IdOf(c[k - 1]), c[k]) }

  ghost predicate ChainTo(store: seq<Entry>, a: Entry, b: Entry) { exists c :: c != [] && Chained(store, c) && c[0] == a && c[|c| - 1] == b }

  lemma LongerChain(store: seq<Entry>, a: Entry, b: Entry, e: Entry)
    requires ChainTo(store, a, b) && IsAncestor(store, IdOf(b), e)
    ensures ChainTo(store, a, e)
  {
    hide IsAncestor;
    var c :| c != [] && Chained(store, c) && c[0] == a && c[|c| - 1] == b;
    var d := c + [e];
    assert d[0] == c[0] && d[|d| - 1] == e && Chained(store, d);
  }

  lemma NoChain(store: seq<Entry>, a: Entry)
    ensures ChainTo(store, a, a)
  {
    var c := [a];
    assert Chained(store, c) && c[|c| - 1] == a;
  }

  /** Under first-writer-wins, whatever key writes follow, the winner stays the one there was or a row that descends from it. */
  lemma {:induction false} FirstWriterWins(t: Topic, xs: seq<Entry>, n: nat)
    requires t.env.policyFor(t.key) == Fww && n <= |xs| && Winner(t, xs[..n]).Some? && forall e | e in xs[n..] && On(t, e) :: !MemberOp(e)
    ensures Winner(t, xs).Some? && ChainTo(t.store, Winner(t, xs[..n]).value, Winner(t, xs).value)
    decreases |xs|
  {
    hide Winner, IsAncestor, Effective, ChainTo, MemberOp;
    if n == |xs| {
      assert xs[..n] == xs;
      NoChain(t.store, Winner(t, xs).value);
    } else {
      var front, e := xs[..|xs| - 1], xs[|xs| - 1];
      assert front[..n] == xs[..n] && xs == front + [e] && e in xs[n..];
      assert forall x | x in front[n..] :: x in xs[n..];
      FirstWriterWins(t, front, n);
      OneMore(t, front, e);
      if Adopts(t, front, e) {
        NotMember(t, front, e);
        LongerChain(t.store, Winner(t, xs[..n]).value, Winner(t, front).value, e);
      }
    }
  }

  lemma NotMember(t: Topic, xs: seq<Entry>, e: Entry)
    requires Effective(t, xs, e) && (On(t, e) ==> !MemberOp(e))
    ensures !MemberOp(e)
  {
  }

  function Apply<T>(fx: Effect<T>, was: Option<T>): Option<T> { match fx case Keep => was case Clear => None case Put(v) => Some(v) }

  lemma LastSnoc<T>(fx: seq<Effect<T>>, last: Effect<T>)
    ensures Last(fx + [last]) == Apply(last, Last(fx))
  {
    assert (fx + [last])[..|fx|] == fx;
  }

  /** One more row. */
  lemma OneMore(t: Topic, xs: seq<Entry>, e: Entry)
    ensures Owner(t, xs + [e]) == Apply(OwnerEffect(t, xs, e), Owner(t, xs))
    ensures Winner(t, xs + [e]) == if Adopts(t, xs, e) then Some(e) else Winner(t, xs)
    ensures Value(t, xs + [e]) == Apply(ValueEffect(t, xs, e), Value(t, xs))
    ensures Scalar(t, xs + [e]) == (var fx := ScalarEffect(t, xs, e); if fx.Put? then fx.value else Scalar(t, xs))
    ensures forall m :: Member(t, xs + [e], m) == Apply(MemberEffect(t, xs, e, m), Member(t, xs, m))
  {
    hide OwnerEffect, Adopts, ValueEffect, ScalarEffect, MemberEffect;
    assert (xs + [e])[..|xs|] == xs;
    LastSnoc(OwnerEffects(t, xs), OwnerEffect(t, xs, e));
    LastSnoc(WinnerEffects(t, xs), if Adopts(t, xs, e) then Put(e) else Keep);
    LastSnoc(ValueEffects(t, xs), ValueEffect(t, xs, e));
    ScalarKeeps(t, xs, e);
    LastSnoc(ScalarEffects(t, xs), ScalarEffect(t, xs, e));
    forall m
      ensures Member(t, xs + [e], m) == Apply(MemberEffect(t, xs, e, m), Member(t, xs, m))
    {
      LastSnoc(MemberEffects(t, xs, m), MemberEffect(t, xs, e, m));
    }
  }

  lemma ScalarKeeps(t: Topic, xs: seq<Entry>, e: Entry)
    ensures ScalarEffect(t, xs, e) != Clear
  {
  }

  lemma {:induction false} LastIn<T>(fx: seq<Effect<T>>)
    ensures Last(fx).Some? ==> Put(Last(fx).value) in fx
  {
    if fx != [] && fx[|fx| - 1] == Keep { LastIn(fx[..|fx| - 1]); }
  }

  lemma {:induction false} WinnerIn(t: Topic, xs: seq<Entry>)
    ensures Winner(t, xs).Some? ==> Winner(t, xs).value in xs
  {
    hide Adopts;
    if xs != [] {
      var front, e := xs[..|xs| - 1], xs[|xs| - 1];
      assert xs == front + [e];
      OneMore(t, front, e);
      WinnerIn(t, front);
    }
  }

  lemma {:induction false} MemberIn(t: Topic, xs: seq<Entry>, m: string)
    ensures Member(t, xs, m).Some? ==> Member(t, xs, m).value in xs
  {
    if xs != [] {
      var front, e := xs[..|xs| - 1], xs[|xs| - 1];
      assert xs == front + [e];
      OneMore(t, front, e);
      MemberIn(t, front, m);
    }
  }

  // ---- one fold step ----

  lemma KeyWriteShape(store: seq<Entry>, ks: KeyState, e: Entry, policy: Policy, value: Option<Json>, won: Option<Entry>)
    requires WonBy(ks.winner, won) && (won.Some? ==> Before(OrderOf(won.value), OrderOf(e)))
    ensures var r, adopts := FoldKeyWrite(store, ks, e, policy, value), policy != Fww || won.None? || IsAncestor(store, IdOf(won.value), e);
            && r.owner == ks.owner && r.scalar == ks.scalar && r.members == ks.members && r.resetGen == ks.resetGen
            && WonBy(r.winner, if adopts then Some(e) else won)
            && r.value == if !adopts then ks.value else if e.body.kind == "del" then None else if value.Some? then value else ks.value
  {
    hide Unsuperseded, IsAncestor;
    if won.Some? { OrderTotal(OrderOf(e), OrderOf(won.value)); }
  }

  lemma MemberOpShape(store: seq<Entry>, ks: KeyState, e: Entry, policy: Policy, member: string, present: bool, won: Option<Entry>, was: Option<Entry>)
    requires WonBy(ks.winner, won) && (won.Some? ==> Before(OrderOf(won.value), OrderOf(e)))
    requires MemberReads(ks, member, was) && (was.Some? ==> Before(OrderOf(was.value), OrderOf(e)))
    ensures var r, adopts := FoldMemberOp(store, ks, e, policy, member, present), policy != Fww || was.None? || IsAncestor(store, IdOf(was.value), e);
            && r.owner == ks.owner && r.scalar == ks.scalar && r.value == ks.value && r.resetGen == ks.resetGen && WonBy(r.winner, Some(e))
            && r.members.Keys == ks.members.Keys + {member} && (forall m | m in ks.members && m != member :: r.members[m] == ks.members[m])
            && if adopts then r.members[member].present == present && r.members[member].head == Adopted(IdOf(e), OrderOf(e))
               else r.members[member].present == ks.members[member].present && r.members[member].head == ks.members[member].head
  {
    hide Unsuperseded, IsAncestor;
    if won.Some? { OrderTotal(OrderOf(e), OrderOf(won.value)); }
    if was.Some? { OrderTotal(OrderOf(e), OrderOf(was.value)); }
  }

  /** Everything said so far, and a row after it. */
  ghost predicate NextOn(t: Topic, xs: seq<Entry>, ks: KeyState, e: Entry)
  {
    Reads(t, xs, ks) && On(t, e) && forall x | x in xs :: Before(OrderOf(x), OrderOf(e))
  }

  lemma Earlier(t: Topic, xs: seq<Entry>, ks: KeyState, e: Entry)
    requires NextOn(t, xs, ks, e)
    ensures var won := Winner(t, xs); WonBy(ks.winner, won) && (won.Some? ==> Before(OrderOf(won.value), OrderOf(e)))
    ensures forall m :: MemberReads(ks, m, Member(t, xs, m)) && (Member(t, xs, m).Some? ==> Before(OrderOf(Member(t, xs, m).value), OrderOf(e)))
  {
    WinnerIn(t, xs);
    forall m
      ensures MemberReads(ks, m, Member(t, xs, m)) && (Member(t, xs, m).Some? ==> Before(OrderOf(Member(t, xs, m).value), OrderOf(e)))
    {
      MemberIn(t, xs, m);
    }
  }

  lemma SetReads(t: Topic, xs: seq<Entry>, ks: KeyState, e: Entry)
    requires NextOn(t, xs, ks, e) && e.body.kind == "set" && Effective(t, xs, e)
    ensures Reads(t, xs + [e], ClaimOwner(FoldSet(t.env, t.store, ks, e, t.env.policyFor(t.key)), e, t.env.policyFor(t.key)))
  {
    hide FoldKeyWrite, Owner, Winner, Value, Scalar, Member, IsAncestor, MarkApproved, FieldText, Field, OrderOf, Before;
    OneMore(t, xs, e);
    Earlier(t, xs, ks, e);
    var ks1 := if ks.scalar then ks else ks.(members := map[], resetGen := ks.resetGen + 1, scalar := true);
    KeyWriteShape(t.store, ks1, e, t.env.policyFor(t.key), Field(e.body.payload, "value"), Winner(t, xs));
  }

  lemma DelReads(t: Topic, xs: seq<Entry>, ks: KeyState, e: Entry)
    requires NextOn(t, xs, ks, e) && e.body.kind == "del" && Effective(t, xs, e)
    ensures Reads(t, xs + [e], ClaimOwner(FoldDel(t.store, ks, e, t.env.policyFor(t.key)), e, t.env.policyFor(t.key)))
  {
    hide FoldKeyWrite, Owner, Winner, Value, Scalar, Member, IsAncestor, FieldText, Field;
    OneMore(t, xs, e);
    Earlier(t, xs, ks, e);
    KeyWriteShape(t.store, ks.(members := map[], resetGen := ks.resetGen + 1, scalar := true), e, t.env.policyFor(t.key), None, Winner(t, xs));
  }

  lemma ResolveReads(t: Topic, xs: seq<Entry>, ks: KeyState, e: Entry)
    requires NextOn(t, xs, ks, e) && e.body.kind == "resolve"
    ensures Reads(t, xs + [e], FoldResolve(t.env, t.store, ks, e, t.env.policyFor(t.key)))
  {
    hide FoldKeyWrite, Owner, Winner, Value, Scalar, Member, IsAncestor, ApplySupersedes, FieldText, Field, FieldIds;
    OneMore(t, xs, e);
    Earlier(t, xs, ks, e);
    var r := ApplySupersedes(ks.frontier, ks.superseded, FieldIds(t.env, e.body.payload, "supersedes"));
    KeyWriteShape(t.store, ks.(frontier := r.0, superseded := r.1), e, t.env.policyFor(t.key), Field(e.body.payload, "value"), Winner(t, xs));
  }

  /** The members after a member op. */
  ghost predicate OpDone(t: Topic, xs: seq<Entry>, ms: map<string, MemberState>, e: Entry, ms': map<string, MemberState>)
  {
    var m := FieldText(t.env, e.body.payload, "member");
    var adopts := t.env.policyFor(t.key) != Fww || Member(t, xs, m).None? || IsAncestor(t.store, IdOf(Member(t, xs, m).value), e);
    && ms'.Keys == ms.Keys + {m} && (forall o | o in ms && o != m :: ms'[o] == ms[o])
    && if adopts then ms'[m].present == Present(e) && ms'[m].head == Adopted(IdOf(e), OrderOf(e))
       else m in ms && ms'[m].present == ms[m].present && ms'[m].head == ms[m].head
  }

  lemma MembersRead(t: Topic, xs: seq<Entry>, ks: KeyState, e: Entry, r: KeyState)
    requires Effective(t, xs, e) && MemberOp(e) && (forall m :: MemberReads(ks, m, Member(t, xs, m))) && OpDone(t, xs, ks.members, e, r.members)
    ensures forall m :: MemberReads(r, m, Member(t, xs + [e], m))
  {
    hide Owner, Winner, Value, Scalar, Member, IsAncestor, FieldText, Present, Effective;
    NoReset(t, xs, e);
    OneMore(t, xs, e);
    forall m
      ensures MemberReads(r, m, Member(t, xs + [e], m))
    {
      assert MemberReads(ks, m, Member(t, xs, m));
    }
  }

  lemma NoReset(t: Topic, xs: seq<Entry>, e: Entry)
    requires MemberOp(e)
    ensures !Resets(t, xs, e)
  {
  }

  lemma AddReads(t: Topic, xs: seq<Entry>, ks: KeyState, e: Entry)
    requires NextOn(t, xs, ks, e) && (e.body.kind == "add" || e.body.kind == "remove") && Effective(t, xs, e)
    ensures Reads(t, xs + [e], ClaimOwner(FoldAddRemove(t.env, t.store, ks, e, t.env.policyFor(t.key)), e, t.env.policyFor(t.key)))
  {
    hide FoldMemberOp, Owner, Winner, Value, Scalar, Member, IsAncestor, FieldText, Field, OpDone, MemberReads, MemberEffect;
    var policy, member := t.env.policyFor(t.key), FieldText(t.env, e.body.payload, "member");
    var ks1 := (if ks.scalar && ks.value.Some? then ks.(value := None, resetGen := ks.resetGen + 1) else ks).(scalar := false);
    AddDone(t, xs, ks, ks1, e);
    OneMore(t, xs, e);
    var r := FoldMemberOp(t.store, ks1, e, policy, member, e.body.kind == "add");
    MembersRead(t, xs, ks, e, r);
    SameMembers(r, ClaimOwner(r, e, policy));
  }

  lemma SameMembers(a: KeyState, b: KeyState)
    requires a.members == b.members
    ensures forall m, e :: MemberReads(a, m, e) <==> MemberReads(b, m, e)
  {
  }

  lemma AddDone(t: Topic, xs: seq<Entry>, ks: KeyState, ks1: KeyState, e: Entry)
    requires NextOn(t, xs, ks, e) && MemberOp(e) && ks1.members == ks.members && ks1.winner == ks.winner && e.body.kind != "resolve-member"
    ensures var r := FoldMemberOp(t.store, ks1, e, t.env.policyFor(t.key), FieldText(t.env, e.body.payload, "member"), e.body.kind == "add");
            && r.owner == ks1.owner && r.scalar == ks1.scalar && r.value == ks1.value && WonBy(r.winner, Some(e)) && OpDone(t, xs, ks.members, e, r.members)
  {
    hide FoldMemberOp, Owner, Winner, Value, Scalar, Member, IsAncestor, FieldText;
    Earlier(t, xs, ks, e);
    var member := FieldText(t.env, e.body.payload, "member");
    MemberOpShape(t.store, ks1, e, t.env.policyFor(t.key), member, e.body.kind == "add", Winner(t, xs), Member(t, xs, member));
  }

  lemma ResolveDone(t: Topic, xs: seq<Entry>, ks: KeyState, e: Entry)
    requires NextOn(t, xs, ks, e) && e.body.kind == "resolve-member"
    ensures var r := FoldResolveMember(t.env, t.store, ks, e, t.env.policyFor(t.key));
            && r.owner == ks.owner && r.scalar == ks.scalar && r.value == ks.value && WonBy(r.winner, Some(e)) && OpDone(t, xs, ks.members, e, r.members)
  {
    hide FoldMemberOp, Owner, Winner, Value, Scalar, Member, IsAncestor, ApplySupersedes, FieldText, FieldIds, FieldTruthy;
    Earlier(t, xs, ks, e);
    var member := FieldText(t.env, e.body.payload, "member");
    MemberOpShape(t.store, SupersedeMember(t.env, ks, e, member), e, t.env.policyFor(t.key), member, FieldTruthy(e.body.payload, "present"),
                  Winner(t, xs), Member(t, xs, member));
  }

  lemma ResolveMemberReads(t: Topic, xs: seq<Entry>, ks: KeyState, e: Entry)
    requires NextOn(t, xs, ks, e) && e.body.kind == "resolve-member"
    ensures Reads(t, xs + [e], FoldResolveMember(t.env, t.store, ks, e, t.env.policyFor(t.key)))
  {
    hide FoldResolveMember, Owner, Winner, Value, Scalar, Member, IsAncestor, FieldText, Field, OpDone, MemberReads, MemberEffect;
    ResolveDone(t, xs, ks, e);
    OneMore(t, xs, e);
    MembersRead(t, xs, ks, e, FoldResolveMember(t.env, t.store, ks, e, t.env.policyFor(t.key)));
  }

  /** Any other row, and a refused write, changes at most the owner. */
  lemma OtherReads(t: Topic, xs: seq<Entry>, ks: KeyState, e: Entry)
    requires Reads(t, xs, ks) && !Effective(t, xs, e)
    ensures Reads(t, xs + [e], if On(t, e) then FoldKey(t.env, t.store, ks, e, t.env.policyFor(t.key)) else ks)
  {
    hide FoldSet, FoldDel, FoldResolve, FoldAddRemove, FoldResolveMember, Owner, Winner, Value, Scalar, Member, IsAncestor, FieldText, Field;
    OneMore(t, xs, e);
  }

  lemma StepReads(t: Topic, xs: seq<Entry>, ks: KeyState, e: Entry)
    requires NextOn(t, xs, ks, e)
    ensures Reads(t, xs + [e], FoldKey(t.env, t.store, ks, e, t.env.policyFor(t.key)))
  {
    hide FoldSet, FoldDel, FoldResolve, FoldAddRemove, FoldResolveMember, ClaimOwner, Owner, FoldRequest, FieldText, Field;
    if !Effective(t, xs, e) { OtherReads(t, xs, ks, e); }
    else if e.body.kind == "set" { SetReads(t, xs, ks, e); }
    else if e.body.kind == "del" { DelReads(t, xs, ks, e); }
    else if e.body.kind == "resolve" { ResolveReads(t, xs, ks, e); }
    else if e.body.kind == "resolve-member" { ResolveMemberReads(t, xs, ks, e); }
    else { AddReads(t, xs, ks, e); }
  }

  function StateOf(keys: Keys, key: string): KeyState { if key in keys then keys[key] else FreshKey }

  /** Folded over rows in order, every key reads as its rows say. */
  lemma {:induction false} FoldReads(t: Topic, xs: seq<Entry>)
    requires Sorted(xs)
    ensures Reads(t, xs, StateOf(FoldAll(t.env, t.store, map[], xs), t.key))
  {
    hide Reads, FoldKey, OrderOf;
    if xs == [] {
      FreshReads(t);
    } else {
      var front, e := xs[..|xs| - 1], xs[|xs| - 1];
      assert xs == front + [e];
      FoldReads(t, front);
      var ks := StateOf(FoldAll(t.env, t.store, map[], front), t.key);
      if On(t, e) { StepReads(t, front, ks, e); } else { OtherReads(t, front, ks, e); }
    }
  }

  lemma FreshReads(t: Topic)
    ensures Reads(t, [], FreshKey)
  {
  }
}
