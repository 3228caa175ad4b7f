/**
  The causal pointers of own register writes (src/register.ts:381-429, 524-538): over every run of the commit queue
  and the register hub's fold, what a written row names as its cause.
*/
module Causes {
  import opened HlcClock
  import opened Entries
  import opened Streams
  import opened CommitQueue
  import G = Registers
  import Q = QueueRuns
  import Encoding

  /** What a register write is about: a key, or a member of a key. */
  datatype Spot = Spot(key: string, member: Option<string>)

  /** scopeKey: member writes have a scope for every reset generation of their key. */
  function ScopeOf(topic: string, at: Spot, gen: nat): (scope: string)
    ensures InTopic(scope, topic)
  {
    var rest := match at.member case None => "" case Some(m) => [NUL, 'm', NUL] + m + [NUL] + Encoding.Digits(gen);
    assert (topic + [NUL] + at.key + rest)[..|topic| + 1] == topic + [NUL];
    topic + [NUL] + at.key + rest
  }

  function Named(a: G.Adopted): (string, nat) { (a.id.writer, a.id.seqNo) }

  /** materializedLastObserved: the winner of the key, or the member's latest adopted write. */
  function Observed(keys: G.Keys, at: Spot): Option<(string, nat)>
  {
    if at.key !in keys then None
    else
      var ks := keys[at.key];
      match at.member
      case None => if ks.winner.Some? then Some(Named(ks.winner.value)) else None
      case Some(m) => if m in ks.members then Some(Named(ks.members[m].head)) else None
  }

  // ---- runs of queue and hub ----

  /** A node's hub for one topic. */
  datatype Hub = Hub(cfg: Config, env: G.Env, own: string, topic: string)

  /** The node, the hub's key states, and the last own row folded live. */
  datatype State = State(core: Core, keys: G.Keys, top: nat)

  /** A step of the queue, a row folded, or the hub starting over from its base. */
  datatype Event = Queue(e: Q.Event) | Refold(base: Option<G.Base>)

  function OwnHead(hub: Hub, c: Core): nat { StreamAt(c, StreamId(hub.topic, hub.own)).head.contigSeq }

  ghost predicate IsWrite(item: Item, at: Spot, gen: nat, keys: G.Keys)
    requires item.AppendItem?
  {
    item.key == Some(at.key) && item.causal == FromScope(ScopeOf(item.topic, at, gen), Observed(keys, at))
  }

  /** A write in a causal scope comes from a register; in this topic it observes the hub's key states as they are at the commit. */
  ghost predicate WriteOk(hub: Hub, keys: G.Keys, item: Item)
  {
    item.AppendItem? && item.causal.FromScope? ==>
      && NUL !in item.topic && InTopic(item.causal.scope, item.topic)
      && (item.topic == hub.topic ==> exists at: Spot, gen: nat :: IsWrite(item, at, gen, keys))
  }

  ghost predicate Folded(hub: Hub, keys: G.Keys, row: Entry, keys': G.Keys)
  {
    exists store :: keys' == G.FoldEntry(hub.env, store, keys, row)
  }

  ghost predicate Step(hub: Hub, a: State, e: Event, b: State)
  {
    match e
    case Queue(q) =>
      Q.Step(hub.cfg, hub.own, a.core, q, b.core)
      && (match q
          case FoldRow(row) =>
            && NUL !in row.topic
            && if row.topic != hub.topic then b.keys == a.keys && b.top == a.top
            else Folded(hub, a.keys, row, b.keys) && b.top == if row.writer == hub.own then Max(a.top, row.body.seqNo) else a.top
          case Do(item, _, _) => WriteOk(hub, a.keys, item) && b.keys == a.keys && b.top == a.top
          case Settle(_) => b.keys == a.keys && b.top == a.top
          case Restart => b.keys == map[] && b.top == OwnHead(hub, b.core))
    case Refold(base) => b == a.(keys := G.BaseKeys(base))
  }

  ghost predicate Run(hub: Hub, ss: seq<State>, es: seq<Event>)
  {
    NUL !in hub.topic && |ss| == |es| + 1 && forall i | 0 <= i < |es| :: Step(hub, ss[i], es[i], ss[i + 1])
  }

  // ---- what a run has left of a scope ----

  predicate FromIt(e: Event, scope: string)
  {
    e.Queue? && e.e.Do? && e.e.item.AppendItem? && e.e.item.causal.FromScope? && e.e.item.causal.scope == scope
  }

  /** An append from this scope that got its stamp and its place, and was then refused by validation. */
  predicate RefusedIt(hub: Hub, c: Core, e: Event, scope: string)
  {
    && FromIt(e, scope) && e.e.reply == Invalid
    && StreamAt(c, StreamId(e.e.item.topic, hub.own)).head.seal == Open && Stamp(c.hlc, e.e.pt).Some?
  }

  /** The row folded live is an own row of the topic. */
  predicate FoldsOwn(hub: Hub, e: Event) { e.Queue? && e.e.FoldRow? && e.e.row.writer == hub.own && e.e.row.topic == hub.topic }

  /**
    The last own row written from the scope and not yet folded past, and the place of an append of it refused
    since, if no own row from there on has been folded.
  */
  datatype Note = Note(written: Option<nat>, refused: Option<nat>)

  function Covered(place: Option<nat>, seqNo: nat): bool { place.Some? && place.value <= seqNo }

  function NoteNext(hub: Hub, c: Core, e: Event, scope: string, n: Note): Note
  {
    if e == Queue(Q.Restart) then Note(None, None)
    else if FromIt(e, scope) && e.e.reply.Appended? then Note(Some(e.e.reply.id.seqNo), None)
    else if RefusedIt(hub, c, e, scope) then n.(refused := Some(OwnHead(hub, c) + 1))
    else if FoldsOwn(hub, e) then
      var s := e.e.row.body.seqNo;
      if Covered(n.refused, s) then Note(None, None) else if Covered(n.written, s) then n.(written := None) else n
    else n
  }

  function NoteOf(hub: Hub, ss: seq<State>, es: seq<Event>, scope: string): Note
    requires |ss| == |es| + 1
  {
    if es == [] then Note(None, None)
    else
      var n := |es| - 1;
      NoteNext(hub, ss[n].core, es[n], scope, NoteOf(hub, ss[..n + 1], es[..n], scope))
  }

  function TailOf(own: string, n: Note): Option<(string, nat)>
  {
    if n.refused.Some? then Some((own, n.refused.value)) else if n.written.Some? then Some((own, n.written.value)) else None
  }

  function Tail(c: Core, scope: string): Option<(string, nat)> { if scope in c.tails then Some(c.tails[scope]) else None }

  lemma TopicEnds(scope: string, topic: string)
    requires InTopic(scope, topic) && NUL !in topic
    ensures |topic| < |scope| && scope[..|topic|] == topic && scope[|topic|] == NUL && forall i | 0 <= i < |topic| :: scope[i] != NUL
  {
    assert scope[..|topic| + 1] == topic + [NUL];
    forall i | 0 <= i < |topic|
      ensures scope[i] != NUL
    {
      assert scope[i] == topic[i] && topic[i] in topic;
    }
  }

  /** A scope is of one topic. */
  lemma OneTopic(scope: string, t: string, u: string)
    requires InTopic(scope, t) && InTopic(scope, u) && NUL !in t && NUL !in u
    ensures t == u
  {
    hide InTopic;
    TopicEnds(scope, t);
    TopicEnds(scope, u);
  }

  lemma AppendTail(hub: Hub, c: Core, item: Item, pt: nat, c': Core, reply: Reply, scope: string)
    requires item.AppendItem? && item.topic == hub.topic && AppendStep(hub.cfg, hub.own, c, item, pt, c', reply)
    ensures var e := Queue(Q.Do(item, pt, reply));
            Tail(c', scope) == if FromIt(e, scope) && (reply.Appended? || RefusedIt(hub, c, e, scope))
                               then Some((hub.own, OwnHead(hub, c) + 1)) else Tail(c, scope)
    ensures reply.Appended? ==> reply.id.seqNo == OwnHead(hub, c) + 1 == OwnHead(hub, c')
  {
    hide OthersKept, AfterPersist, PrevChain, InTopic;
  }

  lemma OtherAppendTail(hub: Hub, c: Core, item: Item, pt: nat, c': Core, reply: Reply, scope: string)
    requires item.AppendItem? && AppendStep(hub.cfg, hub.own, c, item, pt, c', reply)
    requires !FromIt(Queue(Q.Do(item, pt, reply)), scope)
    ensures Tail(c', scope) == Tail(c, scope)
  {
    hide OthersKept, AfterPersist, PrevChain, InTopic;
  }

  lemma OtherTail(hub: Hub, c: Core, q: Q.Event, c': Core, scope: string)
    requires Q.Step(hub.cfg, hub.own, c, q, c') && !q.Restart? && !q.FoldRow? && !(q.Do? && q.item.AppendItem?)
    ensures Tail(c', scope) == Tail(c, scope)
  {
    hide StreamAt, Changed, External, AdoptFloor, ApplyCert, ApplyDirective, SealItem, AfterAll, AppendStep;
  }

  lemma FoldTail(hub: Hub, c: Core, row: Entry, c': Core, scope: string)
    requires c' == c.(tails := TailsLeft(hub.own, c.tails, row)) && InTopic(scope, hub.topic) && NUL !in hub.topic && NUL !in row.topic
    requires scope in c.tails ==> c.tails[scope].0 == hub.own
    ensures Tail(c', scope) == if row.writer == hub.own && row.topic == hub.topic && scope in c.tails && c.tails[scope].1 <= row.body.seqNo
                               then None else Tail(c, scope)
  {
    hide InTopic;
    if InTopic(scope, row.topic) { OneTopic(scope, row.topic, hub.topic); }
  }

  lemma NoTail(c: Core, scope: string)
    requires scope !in c.tails
    ensures Tail(c, scope) == None
  {
  }

  lemma NoteStep(hub: Hub, a: State, e: Event, b: State, scope: string, n: Note)
    requires Step(hub, a, e, b) && InTopic(scope, hub.topic) && NUL !in hub.topic && Tail(a.core, scope) == TailOf(hub.own, n)
    ensures Tail(b.core, scope) == TailOf(hub.own, NoteNext(hub, a.core, e, scope, n))
  {
    hide ItemStep, OwnHead, InTopic, Folded;
    if e.Refold? {
    } else if e.e.Restart? {
      NoTail(b.core, scope);
    } else if e.e.FoldRow? {
      FoldTail(hub, a.core, e.e.row, b.core, scope);
    } else if e.e.Do? && e.e.item.AppendItem? {
      StepAppends(hub, a.core, e.e, b.core);
      hide Tail;
      if FromIt(e, scope) {
        OneTopic(scope, e.e.item.topic, hub.topic);
        AppendTail(hub, a.core, e.e.item, e.e.pt, b.core, e.e.reply, scope);
      } else {
        OtherAppendTail(hub, a.core, e.e.item, e.e.pt, b.core, e.e.reply, scope);
      }
    } else {
      hide Tail;
      OtherTail(hub, a.core, e.e, b.core, scope);
    }
  }

  lemma StepAppends(hub: Hub, c: Core, q: Q.Event, c': Core)
    requires Q.Step(hub.cfg, hub.own, c, q, c') && q.Do? && q.item.AppendItem?
    ensures AppendStep(hub.cfg, hub.own, c, q.item, q.pt, c', q.reply)
  {
  }

  /** Through every run a scope's tail is exactly what its appends have left and no fold has retired. */
  lemma {:induction false} ScopeRuns(hub: Hub, ss: seq<State>, es: seq<Event>, scope: string)
    requires Run(hub, ss, es) && InTopic(scope, hub.topic) && scope !in ss[0].core.tails
    ensures Tail(ss[|es|].core, scope) == TailOf(hub.own, NoteOf(hub, ss, es, scope))
  {
    hide Step, NoteNext, Tail, TailOf, InTopic;
    if es == [] {
      NoneLeft(hub, ss[0].core, scope);
    } else {
      var n := |es| - 1;
      ScopeRuns(hub, ss[..n + 1], es[..n], scope);
      NoteStep(hub, ss[n], es[n], ss[n + 1], scope, NoteOf(hub, ss[..n + 1], es[..n], scope));
    }
  }

  lemma NoneLeft(hub: Hub, c: Core, scope: string)
    requires scope !in c.tails
    ensures Tail(c, scope) == TailOf(hub.own, Note(None, None))
  {
  }

  // ---- which cause a write gets ----

  /** The last own row of the scope not folded yet, else what the hub has materialized. */
  function RightCause(own: string, n: Note, keys: G.Keys, at: Spot): Option<(string, nat)>
  {
    if n.written.Some? then Some((own, n.written.value)) else Observed(keys, at)
  }

  /** What an append that is written leaves: one more row applied, its cause the tail of its scope, else what it observed. */
  lemma WrittenFrom(hub: Hub, c: Core, item: Item, pt: nat, c': Core, id: EntryId, at: Spot, gen: nat, keys: G.Keys)
    requires item.AppendItem? && IsWrite(item, at, gen, keys) && AppendStep(hub.cfg, hub.own, c, item, pt, c', Appended(id))
    ensures |c'.applied| == |c.applied| + 1 && IdOf(c'.applied[|c.applied|]) == id
    ensures c'.applied[|c.applied|].body.causal ==
            if Tail(c, ScopeOf(item.topic, at, gen)).Some? then Tail(c, ScopeOf(item.topic, at, gen)) else Observed(keys, at)
  {
    hide Changed, AfterPersist, PrevChain, ScopeOf, Observed;
  }

  /**
    Over every run, a row written from a scope names: the place of an append of the scope that validation refused,
    if none was written from it and no own row from there on folded since; else the last own row of the scope not
    folded yet; else the materialized winner.
  */
  lemma CauseOfWrite(hub: Hub, ss: seq<State>, es: seq<Event>, item: Item, pt: nat, c': Core, id: EntryId, at: Spot, gen: nat)
    requires Run(hub, ss, es) && item.AppendItem? && item.topic == hub.topic && ScopeOf(hub.topic, at, gen) !in ss[0].core.tails
    requires IsWrite(item, at, gen, ss[|es|].keys) && AppendStep(hub.cfg, hub.own, ss[|es|].core, item, pt, c', Appended(id))
    ensures var c, n := ss[|es|].core, NoteOf(hub, ss, es, ScopeOf(hub.topic, at, gen));
            && |c'.applied| == |c.applied| + 1 && IdOf(c'.applied[|c.applied|]) == id
            && c'.applied[|c.applied|].body.causal ==
                 if n.refused.Some? then Some((hub.own, n.refused.value)) else RightCause(hub.own, n, ss[|es|].keys, at)
  {
    hide AppendStep, NoteOf, ScopeOf, Observed, IsWrite, Step;
    ScopeRuns(hub, ss, es, ScopeOf(hub.topic, at, gen));
    WrittenFrom(hub, ss[|es|].core, item, pt, c', id, at, gen, ss[|es|].keys);
  }

  // ---- exactly when it is the right one ----

  /** No key's winner and no member's is an own row past `top`. */
  ghost predicate KeyUnder(own: string, top: nat, ks: G.KeyState)
  {
    && (ks.winner.Some? && ks.winner.value.id.writer == own ==> ks.winner.value.id.seqNo <= top)
    && forall m | m in ks.members && ks.members[m].head.id.writer == own :: ks.members[m].head.id.seqNo <= top
  }

  ghost predicate KeysUnder(own: string, top: nat, keys: G.Keys) { forall k | k in keys :: KeyUnder(own, top, keys[k]) }

  /** The own head of the topic does not go back, own rows folded are committed, and a base names only own rows that have been folded. */
  ghost predicate Orderly(hub: Hub, a: State, e: Event, b: State)
  {
    && OwnHead(hub, b.core) >= OwnHead(hub, a.core)
    && (FoldsOwn(hub, e) ==> e.e.row.body.seqNo <= OwnHead(hub, a.core))
    && (e.Refold? ==> KeysUnder(hub.own, a.top, G.BaseKeys(e.base)))
  }

  lemma KeyWriteUnder(own: string, top: nat, store: seq<Entry>, ks: G.KeyState, row: Entry, policy: G.Policy, value: Option<Json>)
    requires KeyUnder(own, top, ks) && (row.writer == own ==> row.body.seqNo <= top)
    ensures KeyUnder(own, top, G.FoldKeyWrite(store, ks, row, policy, value))
  {
    hide G.Unsuperseded, G.IsAncestor, OrderCompare;
  }

  lemma MemberOpUnder(own: string, top: nat, store: seq<Entry>, ks: G.KeyState, row: Entry, policy: G.Policy, member: string, present: bool)
    requires KeyUnder(own, top, ks) && (row.writer == own ==> row.body.seqNo <= top)
    ensures KeyUnder(own, top, G.FoldMemberOp(store, ks, row, policy, member, present))
  {
    hide G.Unsuperseded, G.IsAncestor, OrderCompare;
  }

  lemma SetUnder(env: G.Env, own: string, top: nat, store: seq<Entry>, ks: G.KeyState, row: Entry, policy: G.Policy)
    requires KeyUnder(own, top, ks) && (row.writer == own ==> row.body.seqNo <= top)
    ensures KeyUnder(own, top, G.FoldSet(env, store, ks, row, policy)) && KeyUnder(own, top, G.FoldDel(store, ks, row, policy))
    ensures KeyUnder(own, top, G.FoldResolve(env, store, ks, row, policy))
  {
    hide G.FoldKeyWrite, G.ApplySupersedes;
    var clear := ks.(members := map[], resetGen := ks.resetGen + 1, scalar := true);
    var r := G.ApplySupersedes(ks.frontier, ks.superseded, G.FieldIds(env, row.body.payload, "supersedes"));
    KeyWriteUnder(own, top, store, if ks.scalar then ks else clear, row, policy, G.Field(row.body.payload, "value"));
    KeyWriteUnder(own, top, store, clear, row, policy, None);
    KeyWriteUnder(own, top, store, ks.(frontier := r.0, superseded := r.1), row, policy, G.Field(row.body.payload, "value"));
  }

  lemma MemberUnder(env: G.Env, own: string, top: nat, store: seq<Entry>, ks: G.KeyState, row: Entry, policy: G.Policy)
    requires KeyUnder(own, top, ks) && (row.writer == own ==> row.body.seqNo <= top)
    ensures KeyUnder(own, top, G.FoldAddRemove(env, store, ks, row, policy)) && KeyUnder(own, top, G.FoldResolveMember(env, store, ks, row, policy))
  {
    hide G.FoldMemberOp, G.ApplySupersedes;
    var member := G.FieldText(env, row.body.payload, "member");
    var cleared := (if ks.scalar && ks.value.Some? then ks.(value := None, resetGen := ks.resetGen + 1) else ks).(scalar := false);
    MemberOpUnder(own, top, store, cleared, row, policy, member, row.body.kind == "add");
    MemberOpUnder(own, top, store, G.SupersedeMember(env, ks, row, member), row, policy, member, G.FieldTruthy(row.body.payload, "present"));
  }

  /** Owners and requests do not matter. */
  lemma SameUnder(own: string, top: nat)
    ensures forall a, b: G.KeyState | KeyUnder(own, top, a) && b.winner == a.winner && b.members == a.members :: KeyUnder(own, top, b)
  {
  }

  /** A fold makes nothing but the row folded a winner. */
  lemma FoldKeyUnder(env: G.Env, own: string, top: nat, store: seq<Entry>, ks: G.KeyState, row: Entry, policy: G.Policy)
    requires KeyUnder(own, top, ks) && (row.writer == own ==> row.body.seqNo <= top)
    ensures KeyUnder(own, top, G.FoldKey(env, store, ks, row, policy))
  {
    hide G.FoldSet, G.FoldDel, G.FoldResolve, G.FoldAddRemove, G.FoldResolveMember, G.FieldText, G.Field, KeyUnder;
    SameUnder(own, top);
    SetUnder(env, own, top, store, ks, row, policy);
    MemberUnder(env, own, top, store, ks, row, policy);
  }

  lemma FoldUnder(hub: Hub, top: nat, store: seq<Entry>, keys: G.Keys, row: Entry)
    requires KeysUnder(hub.own, top, keys) && (row.writer == hub.own ==> row.body.seqNo <= top)
    ensures KeysUnder(hub.own, top, G.FoldEntry(hub.env, store, keys, row))
  {
    hide G.FoldKey, KeyUnder;
    if row.body.key.Some? {
      var key := row.body.key.value;
      FreshUnder(hub.own, top);
      FoldKeyUnder(hub.env, hub.own, top, store, if key in keys then keys[key] else G.FreshKey, row, hub.env.policyFor(key));
    }
  }

  lemma FreshUnder(own: string, top: nat)
    ensures KeyUnder(own, top, G.FreshKey)
  {
  }

  /** What holds between the note, the head and the keys. */
  ghost predicate Placed(hub: Hub, s: State, n: Note)
  {
    && s.top <= OwnHead(hub, s.core) && KeysUnder(hub.own, s.top, s.keys)
    && (n.written.Some? ==> s.top < n.written.value <= OwnHead(hub, s.core))
    && (n.refused.Some? ==> s.top < n.refused.value && (n.written.Some? ==> n.written.value < n.refused.value))
  }

  lemma {:induction false} RunsPlaced(hub: Hub, ss: seq<State>, es: seq<Event>, scope: string)
    requires Run(hub, ss, es) && Placed(hub, ss[0], Note(None, None))
    requires InTopic(scope, hub.topic) && forall i | 0 <= i < |es| :: Orderly(hub, ss[i], es[i], ss[i + 1])
    ensures Placed(hub, ss[|es|], NoteOf(hub, ss, es, scope))
  {
    hide Step, NoteNext, Placed, InTopic, Orderly;
    if es != [] {
      var n := |es| - 1;
      RunsPlaced(hub, ss[..n + 1], es[..n], scope);
      StepPlaced(hub, ss[n], es[n], ss[n + 1], scope, NoteOf(hub, ss[..n + 1], es[..n], scope));
    }
  }

  lemma StepPlaced(hub: Hub, a: State, e: Event, b: State, scope: string, n: Note)
    requires Step(hub, a, e, b) && Orderly(hub, a, e, b) && Placed(hub, a, n) && InTopic(scope, hub.topic) && NUL !in hub.topic
    ensures Placed(hub, b, NoteNext(hub, a.core, e, scope, n))
  {
    hide Q.Step, OwnHead, InTopic, KeyUnder, G.FoldEntry;
    if e.Queue? && e.e.FoldRow? && e.e.row.topic == hub.topic {
      var store :| b.keys == G.FoldEntry(hub.env, store, a.keys, e.e.row);
      Wider(hub.own, a.top, b.top, a.keys);
      FoldUnder(hub, b.top, store, a.keys, e.e.row);
    } else if e.Queue? && e.e.Do? && FromIt(e, scope) {
      OneTopic(scope, e.e.item.topic, hub.topic);
      AppendPlace(hub, a.core, e.e, b.core);
    }
  }

  lemma AppendPlace(hub: Hub, c: Core, q: Q.Event, c': Core)
    requires Q.Step(hub.cfg, hub.own, c, q, c') && q.Do? && q.item.AppendItem? && q.item.topic == hub.topic
    ensures q.reply.Appended? ==> q.reply.id.seqNo == OwnHead(hub, c) + 1 == OwnHead(hub, c')
  {
    hide AppendStep, OwnHead;
    AppendTail(hub, c, q.item, q.pt, c', q.reply, "");
  }

  lemma Wider(own: string, top: nat, top': nat, keys: G.Keys)
    requires KeysUnder(own, top, keys) && top <= top'
    ensures KeysUnder(own, top', keys)
  {
  }

  lemma ObservedUnder(own: string, top: nat, keys: G.Keys, at: Spot, n: nat)
    requires KeysUnder(own, top, keys) && n > top
    ensures Observed(keys, at) != Some((own, n))
  {
    if at.key in keys { assert KeyUnder(own, top, keys[at.key]); }
  }

  /**
    A row written from a scope names the right cause, the last own row of the scope not folded yet or else the
    materialized winner, if and only if no append of the scope stands refused by validation: none, that is, with
    nothing written from the scope and no own row of its place or above folded since.
  */
  lemma RightCauseIff(hub: Hub, ss: seq<State>, es: seq<Event>, item: Item, pt: nat, c': Core, id: EntryId, at: Spot, gen: nat)
    requires Run(hub, ss, es) && item.AppendItem? && item.topic == hub.topic && ScopeOf(hub.topic, at, gen) !in ss[0].core.tails
    requires IsWrite(item, at, gen, ss[|es|].keys) && AppendStep(hub.cfg, hub.own, ss[|es|].core, item, pt, c', Appended(id))
    requires Placed(hub, ss[0], Note(None, None)) && forall i | 0 <= i < |es| :: Orderly(hub, ss[i], es[i], ss[i + 1])
    ensures var c, n := ss[|es|].core, NoteOf(hub, ss, es, ScopeOf(hub.topic, at, gen));
            && |c'.applied| == |c.applied| + 1 && IdOf(c'.applied[|c.applied|]) == id
            && (c'.applied[|c.applied|].body.causal == RightCause(hub.own, n, ss[|es|].keys, at) <==> n.refused == None)
  {
    hide AppendStep, NoteOf, ScopeOf, Observed, IsWrite, Step, KeysUnder, Orderly;
    var scope := ScopeOf(hub.topic, at, gen);
    CauseOfWrite(hub, ss, es, item, pt, c', id, at, gen);
    RunsPlaced(hub, ss, es, scope);
    var n := NoteOf(hub, ss, es, scope);
    if n.refused.Some? { ObservedUnder(hub.own, ss[|es|].top, ss[|es|].keys, at, n.refused.value); }
  }

  /** What takes a refused place out of the way: a restart, a row written from the scope, another refusal, an own row from there on folded. */
  predicate Ends(hub: Hub, c: Core, e: Event, scope: string, place: nat)
  {
    || e == Queue(Q.Restart) || (FromIt(e, scope) && e.e.reply.Appended?) || RefusedIt(hub, c, e, scope)
    || (FoldsOwn(hub, e) && place <= e.e.row.body.seqNo)
  }

  /** The append of event i was refused at this place, and nothing since has taken it out of the way. */
  ghost predicate Stands(hub: Hub, ss: seq<State>, es: seq<Event>, scope: string, i: nat, place: nat)
    requires |ss| == |es| + 1
  {
    && i < |es| && RefusedIt(hub, ss[i].core, es[i], scope) && place == OwnHead(hub, ss[i].core) + 1
    && forall k | i < k < |es| :: !Ends(hub, ss[k].core, es[k], scope, place)
  }

  lemma {:induction false} StandsIff(hub: Hub, ss: seq<State>, es: seq<Event>, scope: string, place: nat)
    requires |ss| == |es| + 1
    ensures NoteOf(hub, ss, es, scope).refused == Some(place) <==> exists i: nat :: Stands(hub, ss, es, scope, i, place)
  {
    hide FromIt, RefusedIt, FoldsOwn, OwnHead;
    if es != [] {
      var n := |es| - 1;
      var ss', es' := ss[..n + 1], es[..n];
      StandsIff(hub, ss', es', scope, place);
      LastEnds(hub, ss[n].core, es[n], scope, place, NoteOf(hub, ss', es', scope));
      if NoteOf(hub, ss, es, scope).refused == Some(place) {
        if RefusedIt(hub, ss[n].core, es[n], scope) {
          assert Stands(hub, ss, es, scope, n, place);
        } else {
          var i: nat :| Stands(hub, ss', es', scope, i, place);
          assert Stands(hub, ss, es, scope, i, place);
        }
      }
      forall i: nat | Stands(hub, ss, es, scope, i, place)
        ensures NoteOf(hub, ss, es, scope).refused == Some(place)
      {
        if i < n {
          assert Stands(hub, ss', es', scope, i, place);
          assert !Ends(hub, ss[n].core, es[n], scope, place);
        }
      }
    }
  }

  lemma LastEnds(hub: Hub, c: Core, e: Event, scope: string, place: nat, n: Note)
    ensures NoteNext(hub, c, e, scope, n).refused == Some(place) <==>
            if RefusedIt(hub, c, e, scope) then place == OwnHead(hub, c) + 1 else n.refused == Some(place) && !Ends(hub, c, e, scope, place)
  {
    hide OwnHead;
  }

  // ---- inputs ----

  lemma NoteEnds(hub: Hub, ss: seq<State>, es: seq<Event>, scope: string)
    requires Run(hub, ss, es) && es != []
    ensures var n := |es| - 1;
            && Run(hub, ss[..n + 1], es[..n]) && Step(hub, ss[n], es[n], ss[n + 1])
            && NoteOf(hub, ss, es, scope) == NoteNext(hub, ss[n].core, es[n], scope, NoteOf(hub, ss[..n + 1], es[..n], scope))
  {
    hide Step, NoteNext;
  }

  lemma RefusedHead(hub: Hub, a: State, e: Event, b: State, scope: string)
    requires Step(hub, a, e, b) && RefusedIt(hub, a.core, e, scope)
    ensures OwnHead(hub, b.core) == OwnHead(hub, a.core)
  {
    StepAppends(hub, a.core, e.e, b.core);
    hide Step, ItemStep;
  }

  /** Right after an append refused by validation the next one written from its scope names itself as its own cause. */
  lemma RefusedPointsAtItself(hub: Hub, ss: seq<State>, es: seq<Event>, item: Item, pt: nat, c': Core, id: EntryId, at: Spot, gen: nat)
    requires Run(hub, ss, es) && item.AppendItem? && item.topic == hub.topic && ScopeOf(hub.topic, at, gen) !in ss[0].core.tails
    requires es != [] && RefusedIt(hub, ss[|es| - 1].core, es[|es| - 1], ScopeOf(hub.topic, at, gen))
    requires IsWrite(item, at, gen, ss[|es|].keys) && AppendStep(hub.cfg, hub.own, ss[|es|].core, item, pt, c', Appended(id))
    ensures |c'.applied| == |ss[|es|].core.applied| + 1
    ensures var e := c'.applied[|ss[|es|].core.applied|]; IdOf(e) == id && e.body.causal == Some((hub.own, id.seqNo))
  {
    hide AppendStep, NoteOf, ScopeOf, Observed, IsWrite, Step, OwnHead;
    var scope, n := ScopeOf(hub.topic, at, gen), |es| - 1;
    CauseOfWrite(hub, ss, es, item, pt, c', id, at, gen);
    NoteEnds(hub, ss, es, scope);
    RefusedHead(hub, ss[n], es[n], ss[n + 1], scope);
    AppendTail(hub, ss[|es|].core, item, pt, c', Appended(id), scope);
  }

  /** With an append of another scope written in between it names that unrelated row. */
  lemma RefusedPointsAtAnother(hub: Hub, ss: seq<State>, es: seq<Event>, item: Item, pt: nat, c': Core, id: EntryId, at: Spot, gen: nat, other: EntryId)
    requires Run(hub, ss, es) && item.AppendItem? && item.topic == hub.topic && ScopeOf(hub.topic, at, gen) !in ss[0].core.tails
    requires |es| >= 2 && RefusedIt(hub, ss[|es| - 2].core, es[|es| - 2], ScopeOf(hub.topic, at, gen))
    requires WritesOther(hub, es[|es| - 1], ScopeOf(hub.topic, at, gen), other)
    requires IsWrite(item, at, gen, ss[|es|].keys) && AppendStep(hub.cfg, hub.own, ss[|es|].core, item, pt, c', Appended(id))
    ensures |c'.applied| == |ss[|es|].core.applied| + 1
    ensures var e := c'.applied[|ss[|es|].core.applied|]; IdOf(e) == id && e.body.causal == Some((hub.own, other.seqNo)) && other.seqNo < id.seqNo
  {
    hide AppendStep, NoteOf, ScopeOf, Observed, IsWrite, Step, OwnHead;
    var scope, n := ScopeOf(hub.topic, at, gen), |es| - 1;
    CauseOfWrite(hub, ss, es, item, pt, c', id, at, gen);
    RefusedThenOther(hub, ss, es, scope, other);
    AppendTail(hub, ss[|es|].core, item, pt, c', Appended(id), scope);
  }

  /** An append of the topic from another scope, written as this row. */
  predicate WritesOther(hub: Hub, e: Event, scope: string, id: EntryId)
  {
    e.Queue? && e.e.Do? && e.e.item.AppendItem? && e.e.item.topic == hub.topic && !FromIt(e, scope) && e.e.reply == Appended(id)
  }

  lemma AfterRefused(hub: Hub, a: State, e: Event, b: State, scope: string, n: Note)
    requires Step(hub, a, e, b) && RefusedIt(hub, a.core, e, scope)
    ensures NoteNext(hub, a.core, e, scope, n).refused == Some(OwnHead(hub, b.core) + 1) && b.keys == a.keys
  {
    RefusedHead(hub, a, e, b, scope);
    hide Q.Step, OwnHead, WriteOk;
  }

  lemma AfterOther(hub: Hub, a: State, e: Event, b: State, scope: string, id: EntryId, n: Note)
    requires Step(hub, a, e, b) && WritesOther(hub, e, scope, id)
    ensures NoteNext(hub, a.core, e, scope, n) == n && b.keys == a.keys && id.seqNo == OwnHead(hub, a.core) + 1 == OwnHead(hub, b.core)
  {
    hide Q.Step, OwnHead, WriteOk, FromIt;
    NotFrom(hub, a.core, e, scope);
    AppendPlace(hub, a.core, e.e, b.core);
  }

  lemma NotFrom(hub: Hub, c: Core, e: Event, scope: string)
    requires !FromIt(e, scope)
    ensures !RefusedIt(hub, c, e, scope)
  {
  }

  lemma RefusedThenOther(hub: Hub, ss: seq<State>, es: seq<Event>, scope: string, other: EntryId)
    requires Run(hub, ss, es) && |es| >= 2 && RefusedIt(hub, ss[|es| - 2].core, es[|es| - 2], scope)
    requires WritesOther(hub, es[|es| - 1], scope, other)
    ensures NoteOf(hub, ss, es, scope).refused == Some(other.seqNo) && OwnHead(hub, ss[|es|].core) == other.seqNo
    ensures ss[|es|].keys == ss[|es| - 2].keys
  {
    hide NoteOf, OwnHead, Step, NoteNext, RefusedIt, WritesOther;
    var n := |es| - 1;
    var ss', es' := ss[..n + 1], es[..n];
    NoteEnds(hub, ss, es, scope);
    NoteEnds(hub, ss', es', scope);
    assert Step(hub, ss[n - 1], es[n - 1], ss[n]);
    AfterRefused(hub, ss[n - 1], es[n - 1], ss[n], scope, NoteOf(hub, ss'[..n], es'[..n - 1], scope));
    AfterOther(hub, ss[n], es[n], ss[n + 1], scope, other, NoteOf(hub, ss', es', scope));
  }

  /**
    A refused place need not show: once another scope has taken it and that row is folded, the tail is gone and
    the next write from the scope names what was materialized before, as it should.
  */
  lemma RefusedThenFolded(hub: Hub, ss: seq<State>, es: seq<Event>, item: Item, pt: nat, c': Core, id: EntryId, at: Spot, gen: nat, other: EntryId, row: Entry)
    requires Run(hub, ss, es) && item.AppendItem? && item.topic == hub.topic && ScopeOf(hub.topic, at, gen) !in ss[0].core.tails
    requires |es| >= 3 && RefusedIt(hub, ss[|es| - 3].core, es[|es| - 3], ScopeOf(hub.topic, at, gen))
    requires WritesOther(hub, es[|es| - 2], ScopeOf(hub.topic, at, gen), other)
    requires es[|es| - 1] == Queue(Q.FoldRow(row)) && IdOf(row) == other && other.writer == hub.own && other.topic == hub.topic
    requires row.body.key != Some(at.key)
    requires IsWrite(item, at, gen, ss[|es|].keys) && AppendStep(hub.cfg, hub.own, ss[|es|].core, item, pt, c', Appended(id))
    ensures |c'.applied| == |ss[|es|].core.applied| + 1
    ensures var e := c'.applied[|ss[|es|].core.applied|]; IdOf(e) == id && e.body.causal == Observed(ss[|es| - 3].keys, at)
  {
    hide AppendStep, NoteOf, ScopeOf, IsWrite, OwnHead, G.FoldKey;
    var scope, n := ScopeOf(hub.topic, at, gen), |es| - 1;
    CauseOfWrite(hub, ss, es, item, pt, c', id, at, gen);
    NoteEnds(hub, ss, es, scope);
    RefusedThenOther(hub, ss[..n + 1], es[..n], scope, other);
  }

  /**
    Nor does the last own row always show, with nothing refused: once it is folded and a later foreign row has won its
    key, the next write from the scope names that row.
  */
  lemma FoldedTailYields(hub: Hub, ss: seq<State>, es: seq<Event>, item: Item, pt: nat, c': Core, id: EntryId, key: string, first: EntryId, row: Entry, later: Entry)
    requires Run(hub, ss, es) && item.AppendItem? && item.topic == hub.topic && ScopeOf(hub.topic, Spot(key, None), 0) !in ss[0].core.tails
    requires |es| >= 3 && FromIt(es[|es| - 3], ScopeOf(hub.topic, Spot(key, None), 0)) && es[|es| - 3].e.reply == Appended(first)
    requires es[|es| - 2] == Queue(Q.FoldRow(row)) && IdOf(row) == first && row.writer == hub.own && row.topic == hub.topic
    requires es[|es| - 1] == Queue(Q.FoldRow(later)) && Wins(hub, key, later, ss[|es| - 1].keys)
    requires IsWrite(item, Spot(key, None), 0, ss[|es|].keys) && AppendStep(hub.cfg, hub.own, ss[|es|].core, item, pt, c', Appended(id))
    ensures |c'.applied| == |ss[|es|].core.applied| + 1
    ensures var e := c'.applied[|ss[|es|].core.applied|]; IdOf(e) == id && e.body.causal == Some((later.writer, later.body.seqNo))
  {
    hide AppendStep, NoteOf, ScopeOf, IsWrite, OwnHead, Observed, Folded;
    var scope, n := ScopeOf(hub.topic, Spot(key, None), 0), |es| - 1;
    CauseOfWrite(hub, ss, es, item, pt, c', id, Spot(key, None), 0);
    NoteEnds(hub, ss, es, scope);
    NoteEnds(hub, ss[..n + 1], es[..n], scope);
    assert ss[..n + 1][..n] == ss[..n] && es[..n][..n - 1] == es[..n - 1];
    NoteEnds(hub, ss[..n], es[..n - 1], scope);
    assert NoteOf(hub, ss, es, scope) == Note(None, None);
    FoldWins(hub, key, ss[n].keys, later, ss[n + 1].keys);
  }

  lemma FoldWins(hub: Hub, key: string, keys: G.Keys, row: Entry, keys': G.Keys)
    requires Wins(hub, key, row, keys) && Folded(hub, keys, row, keys')
    ensures Observed(keys', Spot(key, None)) == Some((row.writer, row.body.seqNo))
  {
    hide G.Unsuperseded, G.IsAncestor, G.Field, OrderCompare;
  }

  /** A foreign set of the key, later than its winner, under last-writer-wins. */
  predicate Wins(hub: Hub, key: string, row: Entry, keys: G.Keys)
  {
    && row.topic == hub.topic && row.writer != hub.own && row.body.key == Some(key) && row.body.kind == "set" && hub.env.policyFor(key) == G.Lww
    && (key in keys && keys[key].winner.Some? ==> OrderCompare(OrderOf(row), keys[key].winner.value.order) > 0)
  }

  // ---- the hub's own tails ----

  /** The tails of the topic as the hub keeps them. */
  function TopicTails(hub: Hub, tails: Tails): map<string, nat>
  {
    map scope | scope in tails && InTopic(scope, hub.topic) && tails[scope].0 == hub.own :: tails[scope].1
  }

  /** What a fold retires of the queue's tails is what it retires of the hub's. */
  lemma SameRetired(hub: Hub, tails: Tails, row: Entry)
    requires row.topic == hub.topic
    ensures TopicTails(hub, TailsLeft(hub.own, tails, row)) == G.TailsAfter(hub.own, TopicTails(hub, tails), row)
  {
  }
}
