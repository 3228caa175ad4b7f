/**
  View materialization (src/views.ts): rows arrive in any order, are folded batch by batch in total
  order, and a late arrival restores a checkpoint and refolds the suffix. The reference is one fold of
  the reducer over the whole log in total order.
*/
module Views {
  import opened HlcClock
  import opened Entries
  import opened Cuts

  /** The materialized table: row key to the row's JCS text. */
  type Table = map<string, string>

  /** A view definition; None from `reduce` or `rows` is a throw. */
  datatype ViewDef = ViewDef(init: Json, reduce: (Json, Entry) -> Option<Json>, rows: Json -> Option<Table>)

  /** What subscribers are told: a rewritten table, or the difference a batch made. */
  datatype Change = Reset(table: Table) | Diff(upserts: Table, deletes: set<string>)

  function ApplyChange(t: Table, c: Change): Table
  {
    match c
    case Reset(table) => table
    case Diff(upserts, deletes) => (t + upserts) - deletes
  }

  function Replay(feed: seq<Change>): Table
  {
    if feed == [] then map[] else ApplyChange(Replay(feed[..|feed| - 1]), feed[|feed| - 1])
  }

  /** The reference: the reducer folded over rows in the order given. */
  function Fold(def: ViewDef, xs: seq<Entry>): Option<Json>
  {
    if xs == [] then Some(def.init)
    else match Fold(def, xs[..|xs| - 1])
         case None => None
         case Some(s) => def.reduce(s, xs[|xs| - 1])
  }

  /** A checkpoint holds the fold of the folded rows at or below it. */
  ghost predicate CheckpointOk(def: ViewDef, folded: seq<Entry>, o: Order, s: Json)
  {
    exists n :: 0 < n <= |folded| && OrderOf(folded[n - 1]) == o && Fold(def, folded[..n]) == Some(s)
  }

  ghost predicate CheckpointsOk(def: ViewDef, folded: seq<Entry>, checkpoints: map<Order, Json>)
  {
    forall o | o in checkpoints :: CheckpointOk(def, folded, o, checkpoints[o])
  }

  /** The latest checkpoint strictly before a place in the order, if any. */
  ghost predicate LatestBefore(keys: set<Order>, before: Order, r: Option<Order>)
  {
    match r
    case None => forall o | o in keys :: !Before(o, before)
    case Some(best) => best in keys && Before(best, before) && forall o | o in keys && Before(o, before) :: !Before(best, o)
  }

  lemma ReplayOne(feed: seq<Change>, c: Change)
    ensures Replay(feed + [c]) == ApplyChange(Replay(feed), c)
  {
    assert (feed + [c])[..|feed|] == feed;
  }

  lemma CheckpointsSurviveGrowth(def: ViewDef, xs: seq<Entry>, more: seq<Entry>, checkpoints: map<Order, Json>)
    requires CheckpointsOk(def, xs, checkpoints)
    ensures CheckpointsOk(def, xs + more, checkpoints)
  {
    forall o | o in checkpoints
      ensures CheckpointOk(def, xs + more, o, checkpoints[o])
    {
      var n :| 0 < n <= |xs| && OrderOf(xs[n - 1]) == o && Fold(def, xs[..n]) == Some(checkpoints[o]);
      assert (xs + more)[..n] == xs[..n];
    }
  }

  /** Rows up to a folded place, then everything held after it: sorted, and missing nothing that was there. */
  lemma SpliceSuffix(folded: seq<Entry>, n: nat, all: seq<Entry>)
    requires Sorted(folded) && Sorted(all) && n <= |folded| && forall e | e in folded :: e in all
    ensures var goal := folded[..n] + After(all, LastOrder(folded[..n]));
            && Sorted(goal)
            && (forall e | e in goal :: e in all)
            && (forall e | e in folded :: e in goal)
            && (forall e | e in all && (n == 0 || Before(OrderOf(folded[n - 1]), OrderOf(e))) :: e in goal)
  {
    var base := folded[..n];
    var rest := After(all, LastOrder(base));
    AfterMembers(all, LastOrder(base));
    AfterSorted(all, LastOrder(base));
    forall i, e | 0 <= i < n && e in rest
      ensures Before(OrderOf(base[i]), OrderOf(e))
    {
      if i < n - 1 {
        OrderTransitive(OrderOf(base[i]), OrderOf(base[n - 1]), OrderOf(e));
      }
    }
    forall e | e in folded
      ensures e in base + rest
    {
      var i :| 0 <= i < |folded| && folded[i] == e;
      if i < n {
        assert base[i] == e;
      }
    }
  }

  /** Where a recompute from the checkpoint at folded[n - 1] (or from the start, n == 0) ends up. */
  ghost function Recomputed(folded: seq<Entry>, n: nat, log: seq<LogRow>): seq<Entry>
    requires n <= |folded|
  {
    folded[..n] + After(SortEntries(EntriesOf(log)), LastOrder(folded[..n]))
  }

  /** It keeps what was folded and takes in every row at or after the late one. */
  lemma RecomputeTakesAll(folded: seq<Entry>, n: nat, log: seq<LogRow>, lateOrd: Order)
    requires DistinctOrders(EntriesOf(log)) && Held(folded, log) && n <= |folded|
    requires n > 0 ==> Before(OrderOf(folded[n - 1]), lateOrd)
    ensures var goal := Recomputed(folded, n, log);
            && Held(goal, log)
            && (forall e | e in folded :: e in goal)
            && (forall e | e in EntriesOf(log) && !Before(OrderOf(e), lateOrd) :: e in goal)
  {
    var all := SortEntries(EntriesOf(log));
    SortSorts(EntriesOf(log));
    SpliceSuffix(folded, n, all);
    forall e | e in EntriesOf(log) && !Before(OrderOf(e), lateOrd)
      ensures n == 0 || Before(OrderOf(folded[n - 1]), OrderOf(e))
    {
      OrderTotal(OrderOf(e), lateOrd);
      if n > 0 && OrderOf(e) != lateOrd {
        OrderTransitive(OrderOf(folded[n - 1]), lateOrd, OrderOf(e));
      }
    }
  }

  /** Folded rows are in order and all held. */
  ghost predicate Held(folded: seq<Entry>, log: seq<LogRow>)
  {
    Sorted(folded) && forall e | e in folded :: e in EntriesOf(log)
  }

  /** Every row consumed so far has been folded. */
  ghost predicate Consumed(folded: seq<Entry>, log: seq<LogRow>, lastRowid: nat)
  {
    forall r | r in log && r.rowid <= lastRowid :: r.entry in folded
  }

  /** What faults a view: the reducer throws on a held row, or the table does on a state. */
  ghost predicate Throws(def: ViewDef, log: seq<LogRow>)
  {
    ReducerThrows(def, EntriesOf(log)) || exists s :: def.rows(s) == None
  }

  ghost predicate ReducerThrows(def: ViewDef, xs: seq<Entry>) { exists s, e :: e in xs && def.reduce(s, e) == None }

  lemma MoreThrows(def: ViewDef, xs: seq<Entry>, ys: seq<Entry>)
    requires ReducerThrows(def, xs) && forall e | e in xs :: e in ys
    ensures ReducerThrows(def, ys)
  {
    var s, e :| e in xs && def.reduce(s, e) == None;
    assert e in ys && def.reduce(s, e) == None;
  }

  lemma PageHeld(log: seq<LogRow>, cursor: Option<Order>, limit: nat)
    requires StoreOk(log)
    ensures forall e | e in Take(After(SortEntries(EntriesOf(log)), cursor), limit) :: e in EntriesOf(log)
  {
    SortSorts(EntriesOf(log));
    AfterMembers(SortEntries(EntriesOf(log)), cursor);
  }

  lemma BatchHeld(log: seq<LogRow>, lastRowid: nat, limit: nat)
    requires StoreOk(log) && Page(log, lastRowid, limit) != []
    ensures forall e | e in SortEntries(EntriesOf(Page(log, lastRowid, limit))) :: e in EntriesOf(log)
  {
    var page := Page(log, lastRowid, limit);
    BatchFacts(log, lastRowid, limit);
    PageMembers(log, lastRowid, limit);
    forall e | e in SortEntries(EntriesOf(page))
      ensures e in EntriesOf(log)
    {
      var i :| 0 <= i < |page| && EntriesOf(page)[i] == e;
      var j :| 0 <= j < |log| && log[j] == page[i];
      assert EntriesOf(log)[j] == e;
    }
  }

  // ---- the code ----

  class View {
    const def: ViewDef
    const foldBatch: nat
    const checkpointEvery: nat

    var log: seq<LogRow>
    var state: Json
    var ord: Option<Order>
    var lastRowid: nat
    var sinceCheckpoint: nat
    var faulted: bool
    var checkpoints: map<Order, Json>
    var table: Table
    var rowCache: Option<Table>
    var epoch: nat

    /** Every change emitted so far. */
    ghost var feed: seq<Change>
    /** The rows folded into `state`, in the order they stand in it. */
    ghost var folded: seq<Entry>

    /** `state`, `ord` and the checkpoints are what folding `folded` gives. */
    ghost predicate FoldOk()
      reads this`state, this`ord, this`folded, this`checkpoints
    {
      && Fold(def, folded) == Some(state) && ord == LastOrder(folded)
      && CheckpointsOk(def, folded, checkpoints)
    }

    ghost predicate TableOk()
      reads this`state, this`table, this`rowCache, this`feed
    {
      def.rows(state) == Some(table) && rowCache == Some(table) && Replay(feed) == table
    }

    /** The cached rows are the table's. */
    ghost predicate CacheOk()
      reads this`table, this`rowCache
    {
      rowCache.Some? ==> rowCache == Some(table)
    }

    /** Holds between events, unless the view is faulted. */
    ghost predicate Valid()
      reads this
    {
      && foldBatch > 0 && StoreOk(log) && CacheOk()
      && (!faulted ==> FoldOk() && Held(folded, log) && Consumed(folded, log, lastRowid) && TableOk())
    }

    /** The whole log in total order. */
    ghost function WholeLog(): seq<Entry>
      reads this`log
    {
      SortEntries(EntriesOf(log))
    }

    /**
      Registration over a store that may already hold rows and checkpoints: resume from the latest
      checkpoint, then refold the tail. The checkpoints are folds of the rows `was` that an earlier view had
      folded; rows may have been committed since. The view is the fold of the whole log if and only if none
      of those lies behind the latest checkpoint.
    */
    constructor (def: ViewDef, foldBatch: nat, checkpointEvery: nat, log: seq<LogRow>, checkpoints: map<Order, Json>, ghost was: seq<Entry>)
      requires foldBatch > 0 && StoreOk(log) && Held(was, log) && CheckpointsOk(def, was, checkpoints)
      ensures this.def == def && this.foldBatch == foldBatch && this.checkpointEvery == checkpointEvery && this.log == log
      ensures !faulted ==> exists n :: Latest(was, n, checkpoints) && folded == Recomputed(was, n, log)
                                       && (folded == WholeLog() <==> NoneBehind(was, n, log))
      ensures !faulted ==> Fold(def, folded) == Some(state) && def.rows(state) == Some(table) && Replay(feed) == table
      ensures faulted || folded == WholeLog() ==> Valid()
      ensures faulted ==> Throws(def, log)
    {
      this.def, this.foldBatch, this.checkpointEvery := def, foldBatch, checkpointEvery;
      this.log, state, ord, lastRowid, sinceCheckpoint, faulted := log, def.init, None, 0, 0, false;
      this.checkpoints, table, rowCache, epoch := checkpoints, map[], None, 0;
      feed, folded := [], [];
      new;
      ghost var n := Restore(was);
      assert !faulted ==> Latest(was, n, checkpoints);
    }

    /** restore: whatever rows the checkpoints were folded from, the state ends as the fold of those up to the latest checkpoint and every held row after it. */
    method Restore(ghost was: seq<Entry>) returns (ghost n: nat)
      requires foldBatch > 0 && StoreOk(log) && !faulted && CacheOk() && Held(was, log)
      requires CheckpointsOk(def, was, checkpoints) && state == def.init && ord == None && folded == []
      modifies this`state, this`ord, this`lastRowid, this`sinceCheckpoint, this`checkpoints, this`folded,
               this`table, this`rowCache, this`epoch, this`feed, this`faulted
      ensures Latest(was, n, old(checkpoints))
      ensures !faulted ==> folded == Recomputed(was, n, log) && (folded == WholeLog() <==> NoneBehind(was, n, log))
      ensures !faulted ==> Fold(def, folded) == Some(state) && def.rows(state) == Some(table) && Replay(feed) == table
      ensures faulted || folded == WholeLog() ==> Valid()
      ensures faulted ==> Throws(def, log)
    {
      hide StoreOk, Held, Consumed, CheckpointsOk, FoldOk, CacheOk, SortEntries, MaxRowid, Recomputed, NoneBehind, Throws;
      n := ResumeLatest(was);
      RefoldFrom(ord);
      lastRowid := MaxRowid(log);
      RestoreWholeIff(was, n, log);
      WholeLogHeld(log, lastRowid);
      if !faulted { ReadOff(); }
    }

    /** Take up state and order from the latest checkpoint, if there is one. */
    method ResumeLatest(ghost was: seq<Entry>) returns (ghost n: nat)
      requires StoreOk(log) && Held(was, log) && CheckpointsOk(def, was, checkpoints)
      requires state == def.init && ord == None && folded == []
      modifies this`state, this`ord, this`folded
      ensures FoldOk() && Latest(was, n, checkpoints) && folded + After(WholeLog(), ord) == Recomputed(was, n, log)
    {
      hide StoreOk, Held, CheckpointsOk, SortEntries, Before;
      var ckpt := LatestCheckpoint();
      n := 0;
      if ckpt.Some? {
        n := CheckpointIndex(def, was, checkpoints, ckpt.value);
        state := checkpoints[ckpt.value];
        ord := ckpt;
        folded := was[..n];
      }
      ResumePoint(def, log, was, n, checkpoints);
    }

    /** A row is committed to the log, at any place in the total order not yet taken. */
    method Commit(rowid: nat, e: Entry)
      requires Valid()
      requires forall r | r in log :: r.rowid < rowid && OrderOf(r.entry) != OrderOf(e)
      requires lastRowid < rowid
      modifies this`log
      ensures Valid() && log == old(log) + [LogRow(rowid, e)]
    {
      ghost var before := EntriesOf(log);
      log := log + [LogRow(rowid, e)];
      assert EntriesOf(log) == before + [e];
    }

    /** One entry through the reducer, with a checkpoint when one is due. */
    method FoldEntry(e: Entry) returns (ok: bool)
      requires !faulted ==> FoldOk()
      modifies this`state, this`ord, this`sinceCheckpoint, this`checkpoints, this`folded
      ensures ok ==> ord == Some(OrderOf(e)) && folded == old(folded) + [e] && (!faulted ==> FoldOk())
      ensures ok ==> if old(sinceCheckpoint) + 1 >= checkpointEvery
                     then sinceCheckpoint == 0 && checkpoints == old(checkpoints)[OrderOf(e) := state]
                     else sinceCheckpoint == old(sinceCheckpoint) + 1 && checkpoints == old(checkpoints)
      ensures !ok ==> def.reduce(old(state), e) == None
    {
      match def.reduce(state, e)
      case None => return false;
      case Some(s) =>
        if !faulted {
          CheckpointsSurviveGrowth(def, folded, [e], checkpoints);
        }
        assert (folded + [e])[..|folded|] == folded;
        state := s;
        ord := Some(OrderOf(e));
        folded := folded + [e];
        sinceCheckpoint := sinceCheckpoint + 1;
        if sinceCheckpoint >= checkpointEvery {
          Checkpoint();
        }
        return true;
    }

    method Checkpoint()
      requires !faulted ==> FoldOk()
      modifies this`sinceCheckpoint, this`checkpoints
      ensures !faulted ==> FoldOk()
      ensures ord.Some? ==> checkpoints == old(checkpoints)[ord.value := state] && sinceCheckpoint == 0
      ensures ord.None? ==> checkpoints == old(checkpoints) && sinceCheckpoint == old(sinceCheckpoint)
    {
      if ord.None? { return; }
      sinceCheckpoint := 0;
      if !faulted {
        assert folded[..|folded|] == folded;
        assert CheckpointOk(def, folded, ord.value, state);
      }
      checkpoints := checkpoints[ord.value := state];
    }

    /** SELECT … WHERE ord < before ORDER BY ord DESC LIMIT 1. */
    method CheckpointBefore(before: Order) returns (r: Option<Order>)
      ensures LatestBefore(checkpoints.Keys, before, r)
    {
      r := None;
      var rest := checkpoints.Keys;
      while rest != {}
        invariant rest <= checkpoints.Keys
        invariant LatestBefore(checkpoints.Keys - rest, before, r)
        decreases |rest|
      {
        var o :| o in rest;
        rest := rest - {o};
        if Before(o, before) && (r.None? || Before(r.value, o)) {
          forall p | p in checkpoints.Keys - rest && Before(p, before)
            ensures !Before(o, p)
          {
            OrderTotal(o, p);
            if r.Some? && Before(o, p) {
              OrderTransitive(r.value, o, p);
            }
          }
          r := Some(o);
        }
      }
      assert checkpoints.Keys - rest == checkpoints.Keys;
    }

    /** The latest checkpoint of all. */
    method LatestCheckpoint() returns (r: Option<Order>)
      ensures r.None? <==> checkpoints == map[]
      ensures r.Some? ==> r.value in checkpoints && forall o | o in checkpoints :: !Before(r.value, o)
    {
      r := None;
      var rest := checkpoints.Keys;
      while rest != {}
        invariant rest <= checkpoints.Keys
        invariant r.None? <==> rest == checkpoints.Keys
        invariant r.Some? ==> r.value in checkpoints.Keys - rest && forall o | o in checkpoints.Keys - rest :: !Before(r.value, o)
        decreases |rest|
      {
        var o :| o in rest;
        rest := rest - {o};
        OrderTotal(o, o);
        if r.None? || Before(r.value, o) {
          forall p | p in checkpoints.Keys - rest
            ensures !Before(o, p)
          {
            if r.Some? && Before(o, p) {
              OrderTransitive(r.value, o, p);
            }
          }
          r := Some(o);
        }
      }
      assert checkpoints.Keys == {} <==> checkpoints == map[];
    }

    /** Rewrite the materialized table from the state. */
    method RewriteTable() returns (ok: bool)
      modifies this`table, this`rowCache
      ensures ok == def.rows(state).Some?
      ensures if ok then def.rows(state) == Some(table) && rowCache == Some(table)
              else table == old(table) && rowCache == old(rowCache)
    {
      match def.rows(state)
      case None => return false;
      case Some(rows) =>
        table := rows;
        rowCache := Some(rows);
        return true;
    }

    /** Fold every held row after `from`, page by page, then rewrite the table under a new epoch; a throw faults the view. */
    method RefoldFrom(from: Option<Order>)
      requires foldBatch > 0 && StoreOk(log) && from == ord && CacheOk()
      requires !faulted ==> FoldOk()
      modifies this`state, this`ord, this`sinceCheckpoint, this`checkpoints, this`folded,
               this`table, this`rowCache, this`epoch, this`feed, this`faulted
      ensures CacheOk() && (old(faulted) ==> faulted)
      ensures !faulted ==> FoldOk() && TableOk() && folded == old(folded) + After(WholeLog(), from)
      ensures !faulted ==> epoch == old(epoch) + 1 && feed == old(feed) + [Reset(table)]
      ensures faulted ==> old(faulted) || Throws(def, log)
    {
      hide StoreOk, CheckpointsOk, SortEntries;
      var ok := FoldTail(from);
      if !ok { faulted := true; return; }
      ok := RewriteTable();
      if !ok { faulted := true; return; }
      epoch := epoch + 1;
      feed := feed + [Reset(table)];
    }

    method FoldTail(from: Option<Order>) returns (ok: bool)
      requires foldBatch > 0 && StoreOk(log) && from == ord
      requires !faulted ==> FoldOk()
      modifies this`state, this`ord, this`sinceCheckpoint, this`checkpoints, this`folded
      ensures ok ==> (!faulted ==> FoldOk()) && folded == old(folded) + After(WholeLog(), from)
      ensures !ok ==> ReducerThrows(def, EntriesOf(log))
    {
      ghost var all := WholeLog();
      ghost var base := folded;
      SortSorts(EntriesOf(log));
      hide StoreOk, Sorted, FoldOk, SortEntries, ReducerThrows;
      var cursor := from;
      var entries := Take(After(SortEntries(EntriesOf(log)), cursor), foldBatch);
      while entries != []
        invariant cursor == ord && (!faulted ==> FoldOk())
        invariant folded + After(all, cursor) == base + After(all, from)
        invariant entries == Take(After(all, cursor), foldBatch)
        decreases |After(all, cursor)|
      {
        PageAdvance(all, cursor, foldBatch, folded);
        PageHeld(log, cursor, foldBatch);
        ok := FoldAll(entries);
        if !ok { MoreThrows(def, entries, EntriesOf(log)); return; }
        cursor := ord;
        entries := Take(After(SortEntries(EntriesOf(log)), cursor), foldBatch);
      }
      EmptyPage(After(all, cursor), foldBatch);
      ok := true;
    }

    /** Fold these entries in the order given, stopping at a throw. */
    method FoldAll(entries: seq<Entry>) returns (ok: bool)
      requires !faulted ==> FoldOk()
      modifies this`state, this`ord, this`sinceCheckpoint, this`checkpoints, this`folded
      ensures ok ==> folded == old(folded) + entries && (!faulted ==> FoldOk())
      ensures ok ==> ord == if entries == [] then old(ord) else LastOrder(entries)
      ensures !ok ==> ReducerThrows(def, entries)
    {
      hide FoldOk;
      var i := 0;
      while i < |entries|
        invariant 0 <= i <= |entries|
        invariant folded == old(folded) + entries[..i]
        invariant ord == if i == 0 then old(ord) else Some(OrderOf(entries[i - 1]))
        invariant !faulted ==> FoldOk()
      {
        ghost var s := state;
        ok := FoldEntry(entries[i]);
        if !ok { assert entries[i] in entries && def.reduce(s, entries[i]) == None; return; }
        i := i + 1;
      }
      assert entries[..i] == entries;
      ok := true;
    }

    /** A late arrival: restore the checkpoint before it, drop every other one, refold the suffix. */
    method RecomputeFrom(lateOrd: Order)
      requires foldBatch > 0 && StoreOk(log) && CacheOk() && (!faulted ==> FoldOk() && Held(folded, log))
      modifies this`state, this`ord, this`sinceCheckpoint, this`checkpoints, this`folded,
               this`table, this`rowCache, this`epoch, this`feed, this`faulted
      ensures CacheOk() && (old(faulted) ==> faulted)
      ensures !faulted ==> FoldOk() && TableOk() && Held(folded, log)
      ensures !faulted ==> forall e | e in old(folded) :: e in folded
      ensures !faulted ==> forall e | e in EntriesOf(log) && !Before(OrderOf(e), lateOrd) :: e in folded
      ensures faulted ==> old(faulted) || Throws(def, log)
    {
      ghost var before := folded;
      ghost var n := RestoreBefore(lateOrd);
      if !faulted {
        RecomputeTakesAll(before, n, log, lateOrd);
      }
      hide StoreOk, Held;
      RefoldFrom(ord);
    }

    /** The restore half: state and order come from the latest earlier checkpoint, which alone survives. */
    method RestoreBefore(lateOrd: Order) returns (ghost n: nat)
      requires !faulted ==> FoldOk()
      modifies this`state, this`ord, this`sinceCheckpoint, this`checkpoints, this`folded
      ensures !faulted ==> FoldOk()
      ensures n <= |old(folded)| && folded == old(folded)[..n]
      ensures !faulted && n > 0 ==> Before(OrderOf(old(folded)[n - 1]), lateOrd)
      ensures sinceCheckpoint == 0 && |checkpoints| <= 1 && checkpoints.Keys <= old(checkpoints).Keys
      ensures forall o | o in old(checkpoints) && Before(o, lateOrd) :: ord.Some? && !Before(ord.value, o)
    {
      hide CheckpointsOk, Fold, OrderCompare, OrderOf, Before;
      FoldNone(def);
      var ckpt := CheckpointBefore(lateOrd);
      n := 0;
      if ckpt.Some? {
        state := checkpoints[ckpt.value];
        ord := ckpt;
        if !faulted {
          n := CheckpointIndex(def, folded, checkpoints, ckpt.value);
        }
        checkpoints := map[ckpt.value := state];
      } else {
        state := def.init;
        ord := None;
        checkpoints := map[];
        NoCheckpoints(def);
      }
      folded := folded[..n];
      sinceCheckpoint := 0;
      if !faulted && ckpt.Some? {
        OneCheckpoint(def, folded, state);
      }
    }

    /** Fold the rows of a page up to a place; answers how many those were, or that the reducer threw. */
    method FoldThrough(start: Json, page: seq<Entry>, at: Order, ghost done: seq<Entry>) returns (out: Option<Json>, n: nat)
      requires Fold(def, done) == Some(start)
      ensures n <= |page| && (forall x | x in page[..n] :: UpTo(x, at)) && out == Fold(def, done + page[..n])
      ensures out.Some? && n < |page| ==> !UpTo(page[n], at)
    {
      hide Fold, UpTo, OrderCompare, OrderOf, Before;
      out, n := Some(start), 0;
      assert done + page[..0] == done;
      while n < |page|
        invariant n <= |page| && forall x | x in page[..n] :: UpTo(x, at)
        invariant out.Some? && out == Fold(def, done + page[..n])
      {
        PastPlace(page[n], at);
        if OrderCompare(OrderOf(page[n]), at) > 0 { return; }
        assert page[..n + 1] == page[..n] + [page[n]];
        assert done + page[..n + 1] == (done + page[..n]) + [page[n]];
        FoldSnoc(def, done + page[..n], page[n]);
        out := def.reduce(out.value, page[n]);
        n := n + 1;
        if out.None? { return; }
      }
    }

    /**
      The state exactly at a place in the total order: from the nearest checkpoint at or before it, fold the
      held rows after that up to the place. It is the fold of every held row up to the place unless one was
      committed behind that checkpoint and not folded yet.
    */
    method StateAt(at: Order, ghost was: seq<Entry>) returns (out: Option<Json>, ghost n: nat)
      requires foldBatch > 0 && StoreOk(log) && Held(was, log) && CheckpointsOk(def, was, checkpoints)
      ensures n <= |was| && (n > 0 ==> OrderOf(was[n - 1]) in checkpoints && UpTo(was[n - 1], at))
      ensures forall o | o in checkpoints && !Before(at, o) :: n > 0 && !Before(OrderOf(was[n - 1]), o)
      ensures out == Fold(def, Through(Recomputed(was, n, log), at))
      ensures NoneBehind(was, n, log) ==> out == Fold(def, Through(WholeLog(), at))
      ensures AllTaken(was, log) ==> out == Fold(def, Through(WholeLog(), at))
    {
      hide StoreOk, CheckpointsOk, AllTaken, SortEntries, Held, NoneBehind, Recomputed, Through, Before, PartWay, After, Fold, EntriesOf, OrderOf, UpTo;
      ghost var all := WholeLog();
      WholeLogHeld(log, 0);
      var ckpt := CheckpointBefore(JustAfter(at));
      n := 0;
      var state, place := def.init, ckpt;
      AtOrBefore(checkpoints.Keys, at, ckpt);
      FoldNone(def);
      if ckpt.Some? {
        n := CheckpointIndex(def, was, checkpoints, ckpt.value);
        state := checkpoints[ckpt.value];
        LastFolded(was, n);
        JustUpTo(was[n - 1], at);
      }
      ghost var done, target := was[..n], Through(Recomputed(was, n, log), at);
      CutResumes(was, n, log, at);
      RestoreWholeIff(was, n, log);
      TakenNotBehind(was, n, log);
      out := FoldOn(state, place, at, all, target, done);
    }

    /** The paged fold from a state on. */
    method FoldOn(start: Json, from: Option<Order>, at: Order, ghost all: seq<Entry>, ghost target: seq<Entry>, ghost was: seq<Entry>) returns (out: Option<Json>)
      requires foldBatch > 0 && all == WholeLog() && Sorted(all) && PartWay(all, None, target, at, was, from) && Fold(def, was) == Some(start)
      ensures out == Fold(def, target)
    {
      hide *;
      var state, place := start, from;
      ghost var done := was;
      while true
        invariant PartWay(all, None, target, at, done, place) && Fold(def, done) == Some(state)
        decreases |After(all, place)|
      {
        var page := Take(After(SortEntries(EntriesOf(log)), place), foldBatch);
        WholeIs(page, all, place);
        if page == [] {
          Finished(all, None, target, at, done, place, foldBatch);
          return Some(state);
        }
        var k;
        out, k := FoldThrough(state, page, at, done);
        if out.None? {
          StuckThrough(def, all, target, at, done, place, foldBatch, k);
          return;
        }
        PageThrough(all, None, target, at, done, place, foldBatch, k);
        done, state := done + page[..k], out.value;
        if k < |page| { return; }
        place := LastOrder(page);
      }
    }

    lemma WholeIs(page: seq<Entry>, all: seq<Entry>, place: Option<Order>)
      requires all == WholeLog() && page == Take(After(SortEntries(EntriesOf(log)), place), foldBatch)
      ensures page == Take(After(all, place), foldBatch)
    {
    }

    /** Write only the rows that changed since the last batch, and report them. */
    method DiffSyncTable() returns (ok: bool, upserts: Table, deletes: set<string>)
      requires rowCache.Some? ==> rowCache == Some(table)
      modifies this`table, this`rowCache
      ensures ok == def.rows(state).Some?
      ensures ok ==> def.rows(state) == Some(table) && rowCache == Some(table)
      ensures !ok ==> table == old(table) && rowCache == old(rowCache)
      ensures ok && old(rowCache).Some? ==>
                && table == ApplyChange(old(table), Diff(upserts, deletes))
                && upserts.Keys !! deletes
                && (upserts == map[] && deletes == {} ==> table == old(table))
                && (forall k | k in upserts :: k !in old(table) || old(table)[k] != upserts[k]) && deletes <= old(table).Keys
    {
      upserts, deletes := map[], {};
      if rowCache == None {
        ok := RewriteTable();
        return;
      }
      var cache := rowCache.value;
      var rows := def.rows(state);
      if rows == None { return false, upserts, deletes; }
      var next := rows.value;
      upserts := UpsertChanged(cache, next);
      deletes := DeleteGone(cache.Keys, next.Keys);
      ChangedIsEnough(cache, next);
      rowCache := Some(next);
      ok := true;
    }

    method UpsertChanged(cache: Table, next: Table) returns (upserts: Table)
      requires table == cache
      modifies this`table
      ensures upserts == Changed(cache, next, next.Keys) && table == cache + upserts
    {
      upserts := map[];
      var rest := next.Keys;
      while rest != {}
        invariant rest <= next.Keys
        invariant upserts == Changed(cache, next, next.Keys - rest)
        invariant table == cache + upserts
        decreases |rest|
      {
        var k :| k in rest;
        rest := rest - {k};
        if !(k in cache && cache[k] == next[k]) {
          table := table[k := next[k]];
          upserts := upserts[k := next[k]];
        }
      }
      assert next.Keys - rest == next.Keys;
    }

    method DeleteGone(cached: set<string>, kept: set<string>) returns (deletes: set<string>)
      modifies this`table
      ensures deletes == cached - kept && table == old(table) - deletes
    {
      deletes := {};
      ghost var before := table;
      var rest := cached;
      while rest != {}
        invariant rest <= cached
        invariant deletes == (cached - rest) - kept
        invariant table == before - deletes
        decreases |rest|
      {
        var k :| k in rest;
        rest := rest - {k};
        if k !in kept {
          DropOne(before, deletes, k);
          table := table - {k};
          deletes := deletes + {k};
        }
      }
    }

    /**
      Consume every committed row. When it returns unfaulted, the state is the reducer folded over the
      whole log in total order, every row once; the table is the state's rows; and every checkpoint left
      holds the fold of the rows at or below it.
    */
    method Materialize()
      requires Valid()
      modifies this`state, this`ord, this`lastRowid, this`sinceCheckpoint, this`checkpoints, this`folded,
               this`table, this`rowCache, this`epoch, this`feed, this`faulted
      ensures Valid() && (old(faulted) ==> faulted)
      ensures !faulted ==> folded == WholeLog() && Fold(def, WholeLog()) == Some(state)
      ensures !faulted ==> def.rows(state) == Some(table) && Replay(feed) == table
      ensures !faulted ==> CheckpointsOk(def, WholeLog(), checkpoints)
      ensures faulted ==> old(faulted) || Throws(def, log)
    {
      if faulted { return; }
      hide Throws, StoreOk, Held, Consumed, FoldOk, TableOk, CacheOk, CheckpointsOk;
      hide Page, SortEntries, RowsAfter, Before, OrderCompare, Fold, Replay, Sorted, DistinctOrders, RowidsIncrease, Recomputed;
      while true
        invariant Valid() && (faulted ==> Throws(def, log))
        decreases |RowsAfter(log, lastRowid)|
      {
        var rows := Page(log, lastRowid, foldBatch);
        if rows == [] {
          if !faulted {
            NothingLeft(log, lastRowid, foldBatch, folded);
            ReadOff();
          }
          return;
        }
        var batch := SortEntries(EntriesOf(rows));
        BatchFacts(log, lastRowid, foldBatch);
        var first := batch[0];
        if ord.Some? && OrderCompare(OrderOf(first), ord.value) <= 0 {
          TakeLate(rows, first);
          continue;
        }
        var ok := TakeNext(rows, batch);
        if !ok { return; }
      }
    }

    /** The in-order case. */
    method TakeNext(rows: seq<LogRow>, batch: seq<Entry>) returns (ok: bool)
      requires Valid() && rows == Page(log, lastRowid, foldBatch) && rows != [] && batch == SortEntries(EntriesOf(rows)) && batch != []
      requires !(ord.Some? && OrderCompare(OrderOf(batch[0]), ord.value) <= 0)
      modifies this`state, this`ord, this`lastRowid, this`sinceCheckpoint, this`checkpoints, this`folded,
               this`table, this`rowCache, this`feed, this`faulted
      ensures Valid() && (old(faulted) ==> faulted) && (ok ==> lastRowid == rows[|rows| - 1].rowid) && (!ok ==> faulted)
      ensures faulted ==> old(faulted) || Throws(def, log)
    {
      hide Throws, Held, Consumed, FoldOk, TableOk, CheckpointsOk, Page, SortEntries, Before, OrderCompare, Fold, Replay;
      if !faulted {
        ReadOff();
        if ord.Some? { Following(OrderOf(batch[0]), ord.value); }
        NextBatch(log, lastRowid, foldBatch, folded);
      }
      HeldInLog(rows, batch);
      ok := FoldBatch(batch, rows[|rows| - 1].rowid);
    }

    lemma HeldInLog(rows: seq<LogRow>, batch: seq<Entry>)
      requires StoreOk(log) && rows == Page(log, lastRowid, foldBatch) && rows != [] && batch == SortEntries(EntriesOf(rows))
      ensures forall e | e in batch :: e in EntriesOf(log)
    {
      BatchHeld(log, lastRowid, foldBatch);
    }

    /** The late case: the batch counts as consumed, and the suffix from its first row is recomputed. */
    method TakeLate(rows: seq<LogRow>, first: Entry)
      requires Valid() && rows == Page(log, lastRowid, foldBatch) && rows != []
      requires SortEntries(EntriesOf(rows)) != [] && first == SortEntries(EntriesOf(rows))[0]
      modifies this`state, this`ord, this`lastRowid, this`sinceCheckpoint, this`checkpoints, this`folded,
               this`table, this`rowCache, this`epoch, this`feed, this`faulted
      ensures Valid() && (old(faulted) ==> faulted) && lastRowid == rows[|rows| - 1].rowid
      ensures faulted ==> old(faulted) || Throws(def, log)
    {
      hide Throws, StoreOk, Held, Consumed, CheckpointsOk, Page, SortEntries, Before;
      ghost var before, consumed := folded, lastRowid;
      lastRowid := rows[|rows| - 1].rowid;
      RecomputeFrom(OrderOf(first));
      if !faulted {
        LateBatch(log, consumed, foldBatch, before, folded);
      }
    }

    /** The invariant's plain consequences. */
    lemma ReadOff()
      requires FoldOk() && TableOk()
      ensures Fold(def, folded) == Some(state) && ord == LastOrder(folded)
      ensures CheckpointsOk(def, folded, checkpoints)
      ensures def.rows(state) == Some(table) && Replay(feed) == table
    {
    }

    /** The in-order case: one transaction folds the batch and syncs the table; a throw rolls the store back and faults the view. */
    method FoldBatch(batch: seq<Entry>, last: nat) returns (ok: bool)
      requires foldBatch > 0 && StoreOk(log) && batch != [] && CacheOk()
      requires !faulted ==> FoldOk() && TableOk()
      requires !faulted ==> Held(folded + batch, log) && Consumed(folded + batch, log, last)
      requires forall e | e in batch :: e in EntriesOf(log)
      modifies this`state, this`ord, this`lastRowid, this`sinceCheckpoint, this`checkpoints, this`folded,
               this`table, this`rowCache, this`feed, this`faulted
      ensures Valid() && (old(faulted) ==> faulted)
      ensures ok ==> lastRowid == last && folded == old(folded) + batch && faulted == old(faulted)
      ensures !ok ==> faulted && checkpoints == old(checkpoints) && table == old(table) && feed == old(feed) && Throws(def, log)
    {
      hide StoreOk, Held, Consumed, CheckpointsOk, ReducerThrows, Fold, OrderOf, EntriesOf, Replay, ApplyChange, LastOrder;
      var savedCheckpoints, savedTable := checkpoints, table;
      ok := FoldAll(batch);
      if !ok {
        MoreThrows(def, batch, EntriesOf(log));
        checkpoints, table := savedCheckpoints, savedTable;
        faulted := true;
        return;
      }
      var upserts, deletes;
      ok, upserts, deletes := DiffSyncTable();
      if !ok {
        checkpoints, table := savedCheckpoints, savedTable;
        faulted := true;
        return;
      }
      lastRowid := last;
      if upserts != map[] || deletes != {} {
        ReplayOne(feed, Diff(upserts, deletes));
        feed := feed + [Diff(upserts, deletes)];
      }
    }
  }

  // ---- the state as a run of the reducer ----

  /** One state after another, from the initial one, a row at a time. */
  ghost predicate Steps(def: ViewDef, xs: seq<Entry>, ss: seq<Json>)
  {
    |ss| == |xs| + 1 && ss[0] == def.init && forall i | 0 <= i < |xs| :: def.reduce(ss[i], xs[i]) == Some(ss[i + 1])
  }

  lemma {:induction false} FoldIsRun(def: ViewDef, xs: seq<Entry>, s: Json)
    ensures Fold(def, xs) == Some(s) <==> exists ss :: Steps(def, xs, ss) && ss[|xs|] == s
  {
    if xs == [] {
      assert Steps(def, xs, [def.init]);
    } else {
      var front, e := xs[..|xs| - 1], xs[|xs| - 1];
      if Fold(def, xs) == Some(s) {
        FoldIsRun(def, front, Fold(def, front).value);
        var ss :| Steps(def, front, ss) && ss[|front|] == Fold(def, front).value;
        assert Steps(def, xs, ss + [s]) && (ss + [s])[|xs|] == s;
      }
      forall ss | Steps(def, xs, ss) && ss[|xs|] == s
        ensures Fold(def, xs) == Some(s)
      {
        assert Steps(def, front, ss[..|xs|]) && ss[..|xs|][|front|] == ss[|front|];
        FoldIsRun(def, front, ss[|front|]);
        assert def.reduce(ss[|front|], xs[|front|]) == Some(ss[|front| + 1]);
      }
    }
  }

  /** A view that has consumed everything stands where the reducer gets, from the initial state, through every held row in total order; its table is that state's rows. */
  lemma ViewIsRun(v: View)
    requires v.Valid() && !v.faulted && v.folded == v.WholeLog()
    ensures exists ss :: Steps(v.def, v.WholeLog(), ss) && ss[|v.WholeLog()|] == v.state
    ensures v.def.rows(v.state) == Some(v.table)
  {
    FoldIsRun(v.def, v.WholeLog(), v.state);
  }

  lemma Following(a: Order, b: Order)
    requires OrderCompare(a, b) > 0
    ensures Before(b, a)
  {
    OrderTotal(a, b);
  }

  /** Where among the folded rows a checkpoint was taken. */
  lemma CheckpointIndex(def: ViewDef, folded: seq<Entry>, checkpoints: map<Order, Json>, o: Order) returns (n: nat)
    requires CheckpointsOk(def, folded, checkpoints) && o in checkpoints
    ensures 0 < n <= |folded| && OrderOf(folded[n - 1]) == o && Fold(def, folded[..n]) == Some(checkpoints[o])
  {
    assert CheckpointOk(def, folded, o, checkpoints[o]);
    n :| 0 < n <= |folded| && OrderOf(folded[n - 1]) == o && Fold(def, folded[..n]) == Some(checkpoints[o]);
  }

  /** The latest checkpoint strictly before the place just after is the latest at or before the place. */
  lemma AtOrBefore(keys: set<Order>, at: Order, r: Option<Order>)
    requires LatestBefore(keys, JustAfter(at), r)
    ensures match r
            case None => forall o | o in keys :: Before(at, o)
            case Some(best) => best in keys && Before(best, JustAfter(at)) && forall o | o in keys && !Before(at, o) :: !Before(best, o)
  {
    forall o
      ensures Before(o, JustAfter(at)) <==> !Before(at, o)
    {
      JustAfterTight(o, at);
    }
  }

  lemma JustUpTo(x: Entry, at: Order)
    requires Before(OrderOf(x), JustAfter(at))
    ensures UpTo(x, at)
  {
    JustAfterTight(OrderOf(x), at);
  }

  lemma LastFolded(was: seq<Entry>, n: nat)
    requires 0 < n <= |was|
    ensures LastOrder(was[..n]) == Some(OrderOf(was[n - 1]))
  {
  }

  lemma FoldNone(def: ViewDef)
    ensures Fold(def, []) == Some(def.init)
  {
  }

  lemma FoldSnoc(def: ViewDef, xs: seq<Entry>, e: Entry)
    requires Fold(def, xs).Some?
    ensures Fold(def, xs + [e]) == def.reduce(Fold(def, xs).value, e)
  {
    assert (xs + [e])[..|xs|] == xs;
  }

  lemma NoCheckpoints(def: ViewDef)
    ensures CheckpointsOk(def, [], map[])
  {
  }

  lemma OneCheckpoint(def: ViewDef, folded: seq<Entry>, state: Json)
    requires folded != [] && Fold(def, folded) == Some(state)
    ensures CheckpointsOk(def, folded, map[OrderOf(folded[|folded| - 1]) := state])
  {
    assert folded[..|folded|] == folded;
    assert CheckpointOk(def, folded, OrderOf(folded[|folded| - 1]), state);
  }

  lemma DropOne(t: Table, gone: set<string>, k: string)
    ensures (t - gone) - {k} == t - (gone + {k})
  {
    assert ((t - gone) - {k}).Keys == (t - (gone + {k})).Keys;
  }

  /** The rows of `next` that `cache` lacks or holds differently, among `keys`. */
  ghost function Changed(cache: Table, next: Table, keys: set<string>): Table
  {
    map k | k in keys && k in next && !(k in cache && cache[k] == next[k]) :: next[k]
  }

  lemma ChangedIsEnough(cache: Table, next: Table)
    ensures var upserts, deletes := Changed(cache, next, next.Keys), cache.Keys - next.Keys;
            && (cache + upserts) - deletes == next && upserts.Keys !! deletes
            && (upserts == map[] && deletes == {} ==> cache == next)
  {
    var upserts, deletes := Changed(cache, next, next.Keys), cache.Keys - next.Keys;
    assert ((cache + upserts) - deletes).Keys == next.Keys;
    assert upserts == map[] ==> cache + upserts == cache;
    assert deletes == {} ==> (cache + upserts) - deletes == cache + upserts;
  }

  /** An empty page means everything is folded, so the folded rows are the whole log in order. */
  lemma NothingLeft(log: seq<LogRow>, lastRowid: nat, limit: nat, folded: seq<Entry>)
    requires limit > 0 && StoreOk(log) && Held(folded, log) && Consumed(folded, log, lastRowid)
    requires Page(log, lastRowid, limit) == []
    ensures folded == SortEntries(EntriesOf(log))
  {
    RowsAfterMembers(log, lastRowid);
    SortSorts(EntriesOf(log));
    forall e | e in EntriesOf(log)
      ensures e in folded
    {
      var i :| 0 <= i < |log| && EntriesOf(log)[i] == e;
      assert log[i] !in RowsAfter(log, lastRowid);
    }
    SortedUnique(folded, SortEntries(EntriesOf(log)));
  }

  /** A batch wholly above the watermark extends what is folded. */
  lemma NextBatch(log: seq<LogRow>, lastRowid: nat, limit: nat, folded: seq<Entry>)
    requires StoreOk(log) && Held(folded, log) && Consumed(folded, log, lastRowid)
    requires Page(log, lastRowid, limit) != []
    requires var first := SortEntries(EntriesOf(Page(log, lastRowid, limit)));
             first != [] ==> folded == [] || Before(OrderOf(folded[|folded| - 1]), OrderOf(first[0]))
    ensures var page := Page(log, lastRowid, limit);
            var batch := SortEntries(EntriesOf(page));
            Held(folded + batch, log) && Consumed(folded + batch, log, page[|page| - 1].rowid)
  {
    var page := Page(log, lastRowid, limit);
    var batch := SortEntries(EntriesOf(page));
    BatchFacts(log, lastRowid, limit);
    PageMembers(log, lastRowid, limit);
    forall e | e in batch
      ensures e in EntriesOf(log)
    {
      var i :| 0 <= i < |page| && EntriesOf(page)[i] == e;
      var j :| 0 <= j < |log| && log[j] == page[i];
      assert EntriesOf(log)[j] == e;
    }
    forall r | r in log && r.rowid <= page[|page| - 1].rowid
      ensures r.entry in folded + batch
    {
      if r.rowid > lastRowid {
        var i :| 0 <= i < |page| && page[i] == r;
        assert EntriesOf(page)[i] == r.entry;
      }
    }
    AppendSorted(folded, batch);
  }

  /** After a recompute from the batch's first row, the batch is consumed too. */
  lemma LateBatch(log: seq<LogRow>, lastRowid: nat, limit: nat, before: seq<Entry>, folded: seq<Entry>)
    requires StoreOk(log) && Consumed(before, log, lastRowid) && Page(log, lastRowid, limit) != []
    requires forall e | e in before :: e in folded
    requires var batch := SortEntries(EntriesOf(Page(log, lastRowid, limit)));
             batch != [] ==> forall e | e in EntriesOf(log) && !Before(OrderOf(e), OrderOf(batch[0])) :: e in folded
    ensures var page := Page(log, lastRowid, limit);
            Consumed(folded, log, page[|page| - 1].rowid)
  {
    var page := Page(log, lastRowid, limit);
    PageMembers(log, lastRowid, limit);
    forall r | r in log && r.rowid <= page[|page| - 1].rowid
      ensures r.entry in folded
    {
      if r.rowid > lastRowid {
        BatchMember(log, lastRowid, limit, r);
      }
    }
  }

  /** The checkpoints that resuming leaves are folds of what is resumed. */
  lemma ResumePoint(def: ViewDef, log: seq<LogRow>, was: seq<Entry>, n: nat, checkpoints: map<Order, Json>)
    requires Held(was, log) && CheckpointsOk(def, was, checkpoints) && Latest(was, n, checkpoints)
    ensures CheckpointsOk(def, was[..n], checkpoints)
  {
    if n > 0 { CheckpointsBelow(def, was, n, checkpoints); }
  }

  /** The latest checkpoint was taken after the first n rows; n is 0 if there is none. */
  ghost predicate Latest(was: seq<Entry>, n: nat, checkpoints: map<Order, Json>)
  {
    && n <= |was| && (n == 0 <==> checkpoints == map[])
    && (n > 0 ==> OrderOf(was[n - 1]) in checkpoints && forall o | o in checkpoints :: !Before(OrderOf(was[n - 1]), o))
  }

  /** No held row that was not folded then lies at or before that checkpoint. */
  ghost predicate NoneBehind(was: seq<Entry>, n: nat, log: seq<LogRow>)
    requires n <= |was|
  {
    n > 0 ==> forall r | r in log && r.entry !in was :: Before(OrderOf(was[n - 1]), OrderOf(r.entry))
  }

  /** Every held row had been folded. */
  ghost predicate AllTaken(was: seq<Entry>, log: seq<LogRow>) { forall r | r in log :: r.entry in was }

  lemma TakenNotBehind(was: seq<Entry>, n: nat, log: seq<LogRow>)
    requires n <= |was|
    ensures AllTaken(was, log) ==> NoneBehind(was, n, log)
  {
  }

  /** A bounded fold may start from a checkpoint at or before the place. */
  lemma CutResumes(was: seq<Entry>, n: nat, log: seq<LogRow>, at: Order)
    requires Held(was, log) && n <= |was| && (n > 0 ==> Before(OrderOf(was[n - 1]), JustAfter(at)))
    ensures PartWay(SortEntries(EntriesOf(log)), None, Through(Recomputed(was, n, log), at), at, was[..n], LastOrder(was[..n]))
  {
    hide SortEntries, EntriesOf, OrderOf;
    if n > 0 {
      JustAfterTight(OrderOf(was[n - 1]), at);
      CheckpointCovers(was, n, at);
      assert was[..n] != [];
    }
    hide JustAfter, Before, UpTo, After, Held;
    ThroughSplit(was[..n], After(SortEntries(EntriesOf(log)), LastOrder(was[..n])), at);
  }

  lemma CheckpointCovers(all: seq<Entry>, n: nat, at: Order)
    requires Sorted(all) && 0 < n <= |all| && UpTo(all[n - 1], at)
    ensures forall x | x in all[..n] :: UpTo(x, at)
  {
    hide UpTo, OrderOf;
    forall x | x in all[..n]
      ensures UpTo(x, at)
    {
      UpToLast(all[..n], x, at);
    }
  }

  lemma UpToLast(xs: seq<Entry>, x: Entry, at: Order)
    requires Sorted(xs) && x in xs && UpTo(xs[|xs| - 1], at)
    ensures UpTo(x, at)
  {
    var i :| 0 <= i < |xs| && xs[i] == x;
    if i < |xs| - 1 { UpToBelow(xs[|xs| - 1], x, at); }
  }

  /** A throw is final: rows after it do not undo it. */
  lemma {:induction false} FoldStuck(def: ViewDef, xs: seq<Entry>, ys: seq<Entry>)
    requires Fold(def, xs) == None
    ensures Fold(def, xs + ys) == None
  {
    if ys == [] {
      assert xs + ys == xs;
    } else {
      FoldStuck(def, xs, ys[..|ys| - 1]);
      assert (xs + ys)[..|xs + ys| - 1] == xs + ys[..|ys| - 1];
    }
  }

  lemma StuckThrough(def: ViewDef, all: seq<Entry>, target: seq<Entry>, at: Order, done: seq<Entry>, place: Option<Order>, limit: nat, k: nat)
    requires limit > 0 && Sorted(all) && PartWay(all, None, target, at, done, place)
    requires var page := Take(After(all, place), limit);
             page != [] && k <= |page| && (forall x | x in page[..k] :: UpTo(x, at)) && Fold(def, done + page[..k]) == None
    ensures Fold(def, target) == None
  {
    hide UpTo, Through, OrderOf, After, Sorted, Before, OrderCompare, Take, LastOrder, Top, Fold;
    var page := Take(After(all, place), limit);
    PageSplit(all, place, limit);
    var rest := page[k..] + After(all, LastOrder(page));
    assert page + After(all, LastOrder(page)) == page[..k] + rest;
    ThroughSplit(page[..k], rest, at);
    assert target == (done + page[..k]) + Through(rest, at);
    FoldStuck(def, done + page[..k], Through(rest, at));
  }

  /** What a view holds above a cut does not show in its state at the cut. */
  lemma CutsAgree(def: ViewDef, a: seq<LogRow>, b: seq<LogRow>, at: Order)
    requires StoreOk(a) && StoreOk(b) && forall e | UpTo(e, at) :: e in EntriesOf(a) <==> e in EntriesOf(b)
    ensures Fold(def, Through(SortEntries(EntriesOf(a)), at)) == Fold(def, Through(SortEntries(EntriesOf(b)), at))
  {
    SortSorts(EntriesOf(a));
    SortSorts(EntriesOf(b));
    hide UpTo, SortEntries, EntriesOf, Fold;
    SameCut(SortEntries(EntriesOf(a)), SortEntries(EntriesOf(b)), at);
  }

  /**
    When a restart resumes right: the rows the view then is the fold of are the whole log if and only if no row
    held but not folded before lies behind the latest checkpoint.
  */
  lemma RestoreWholeIff(folded: seq<Entry>, n: nat, log: seq<LogRow>)
    requires StoreOk(log) && Held(folded, log) && n <= |folded|
    ensures Recomputed(folded, n, log) == SortEntries(EntriesOf(log)) <==> NoneBehind(folded, n, log)
  {
    var all := SortEntries(EntriesOf(log));
    SortSorts(EntriesOf(log));
    SpliceSuffix(folded, n, all);
    hide After, SortEntries, OrderOf, EntriesOf;
    if NoneBehind(folded, n, log) {
      forall e | e in all
        ensures e in Recomputed(folded, n, log)
      {
        RestoreTakes(folded, n, log, e);
      }
      SortedUnique(Recomputed(folded, n, log), all);
    } else {
      var r :| r in log && r.entry !in folded && !Before(OrderOf(folded[n - 1]), OrderOf(r.entry));
      InEntries(log, r);
      RestoreMisses(folded, n, log, r.entry);
    }
  }

  lemma RestoreTakes(folded: seq<Entry>, n: nat, log: seq<LogRow>, e: Entry)
    requires DistinctOrders(EntriesOf(log)) && Held(folded, log) && n <= |folded| && e in EntriesOf(log) && NoneBehind(folded, n, log)
    ensures e in Recomputed(folded, n, log)
  {
    SortSorts(EntriesOf(log));
    SpliceSuffix(folded, n, SortEntries(EntriesOf(log)));
    var i :| 0 <= i < |log| && EntriesOf(log)[i] == e;
    assert log[i] in log;
    hide SortEntries, After, OrderOf, Before;
  }

  lemma RestoreMisses(folded: seq<Entry>, n: nat, log: seq<LogRow>, e: Entry)
    requires 0 < n <= |folded| && e !in folded && !Before(OrderOf(folded[n - 1]), OrderOf(e))
    ensures e !in Recomputed(folded, n, log)
  {
    hide SortEntries, OrderOf, After;
    AfterMembers(SortEntries(EntriesOf(log)), LastOrder(folded[..n]));
  }

  lemma InEntries(log: seq<LogRow>, r: LogRow)
    requires r in log
    ensures r.entry in EntriesOf(log)
  {
    var i :| 0 <= i < |log| && log[i] == r;
    assert EntriesOf(log)[i] == r.entry;
  }

  /** A late row committed behind the latest checkpoint, a crash before the next pass: the row is held but never folded. */
  lemma RestoreMissesLateRow(early: Entry, late: Entry)
    requires Before(OrderOf(late), OrderOf(early))
    ensures var log := [LogRow(1, early), LogRow(2, late)];
            && StoreOk(log) && Held([early], log) && Consumed([early], log, 1) && !NoneBehind([early], 1, log)
            && late in SortEntries(EntriesOf(log)) && late !in Recomputed([early], 1, log)
  {
    var log := [LogRow(1, early), LogRow(2, late)];
    OrderTotal(OrderOf(late), OrderOf(early));
    OrderTotal(OrderOf(early), OrderOf(early));
    assert EntriesOf(log) == [early, late];
    assert StoreOk(log);
    SortSorts(EntriesOf(log));
    RestoreMisses([early], 1, log, late);
  }

  lemma WholeLogHeld(log: seq<LogRow>, lastRowid: nat)
    requires StoreOk(log)
    ensures var all := SortEntries(EntriesOf(log));
            Sorted(all) && Held(all, log) && Consumed(all, log, lastRowid)
  {
    var all := SortEntries(EntriesOf(log));
    SortSorts(EntriesOf(log));
    forall r | r in log
      ensures r.entry in all
    {
      var i :| 0 <= i < |log| && log[i] == r;
      assert EntriesOf(log)[i] == r.entry;
    }
  }

  lemma CheckpointsBelow(def: ViewDef, xs: seq<Entry>, n: nat, checkpoints: map<Order, Json>)
    requires 0 < n <= |xs| && Sorted(xs) && CheckpointsOk(def, xs, checkpoints)
    requires forall o | o in checkpoints :: !Before(OrderOf(xs[n - 1]), o)
    ensures CheckpointsOk(def, xs[..n], checkpoints)
  {
    forall o | o in checkpoints
      ensures CheckpointOk(def, xs[..n], o, checkpoints[o])
    {
      var m :| 0 < m <= |xs| && OrderOf(xs[m - 1]) == o && Fold(def, xs[..m]) == Some(checkpoints[o]);
      assert m <= n;
      assert xs[..n][..m] == xs[..m];
    }
  }
}
