/**
  Compaction of a keyed topic (src/log.ts:1210-1236, src/store.ts:296-390): superseded rows and lone
  tombstones go, and no key's live value changes.
*/
module Keyed {
  import opened HlcClock
  import opened Entries
  import opened Streams

  /** The rows of one keyed topic, by rowid. */
  type Table = map<nat, Entry>

  /** The rows of a key at or below a watermark. */
  function VersionsUpTo(rows: Table, key: string, w: nat): set<nat>
  {
    set r | r in rows && r <= w && rows[r].body.key == Some(key)
  }

  /** The live value of a key at a watermark: its newest row there, unless that is a tombstone. */
  function Live(rows: Table, tombstone: string, key: string, w: nat): Option<Entry>
  {
    var vs := VersionsUpTo(rows, key, w);
    if vs == {} then None
    else
      var r := MaxOf(vs);
      if rows[r].body.kind == tombstone then None else Some(rows[r])
  }

  /** A newer row of the same key, at or below the watermark, hides this one. */
  ghost predicate Superseded(rows: Table, r: nat, upto: nat)
    requires r in rows
  {
    rows[r].body.key.Some? && exists b :: b in rows && rows[b].body.key == rows[r].body.key && r < b <= upto
  }

  /** A tombstone that is the only row of its key at or below the watermark. */
  ghost predicate LoneTombstone(rows: Table, tombstone: string, r: nat, upto: nat)
    requires r in rows
  {
    && rows[r].body.key.Some? && rows[r].body.kind == tombstone
    && !exists b :: b in rows && rows[b].body.key == rows[r].body.key && b != r && b <= upto
  }

  /** Every live value at every watermark from `upto` on is what it was. */
  ghost predicate LiveKept(rows: Table, rows': Table, tombstone: string, upto: nat)
  {
    forall key, w | w >= upto :: Live(rows', tombstone, key, w) == Live(rows, tombstone, key, w)
  }

  /** The newest version is the one no other version is above. */
  lemma NewestIs(rows: Table, tombstone: string, key: string, w: nat, top: nat)
    requires top in VersionsUpTo(rows, key, w) && forall r | r in VersionsUpTo(rows, key, w) :: r <= top
    ensures Live(rows, tombstone, key, w) == if rows[top].body.kind == tombstone then None else Some(rows[top])
  {
    assert MaxOf(VersionsUpTo(rows, key, w)) == top;
  }

  /** Removing rows other than the newest version of a key keeps its live value. */
  lemma NewestStays(rows: Table, gone: set<nat>, tombstone: string, key: string, w: nat)
    requires var vs := VersionsUpTo(rows, key, w); vs != {} ==> MaxOf(vs) !in gone
    ensures Live(rows - gone, tombstone, key, w) == Live(rows, tombstone, key, w)
  {
    var vs, vs' := VersionsUpTo(rows, key, w), VersionsUpTo(rows - gone, key, w);
    assert forall r :: r in vs' <==> r in vs && r !in gone;
    if vs != {} {
      NewestIs(rows - gone, tombstone, key, w, MaxOf(vs));
    } else {
      assert vs' == {};
    }
  }

  lemma DropSuperseded(rows: Table, gone: set<nat>, tombstone: string, upto: nat)
    requires forall r | r in gone :: r in rows && Superseded(rows, r, upto)
    ensures LiveKept(rows, rows - gone, tombstone, upto)
  {
    forall key, w | w >= upto
      ensures Live(rows - gone, tombstone, key, w) == Live(rows, tombstone, key, w)
    {
      var vs := VersionsUpTo(rows, key, w);
      if vs != {} { NewestNotSuperseded(rows, key, w, upto); }
      NewestStays(rows, gone, tombstone, key, w);
    }
  }

  lemma NewestNotSuperseded(rows: Table, key: string, w: nat, upto: nat)
    requires w >= upto && VersionsUpTo(rows, key, w) != {}
    ensures !Superseded(rows, MaxOf(VersionsUpTo(rows, key, w)), upto)
  {
    var vs := VersionsUpTo(rows, key, w);
    forall b | b in rows && rows[b].body.key == Some(key) && b <= upto
      ensures b <= MaxOf(vs)
    {
      assert b in vs;
    }
  }

  lemma DropLoneTombstones(rows: Table, gone: set<nat>, tombstone: string, upto: nat)
    requires forall r | r in gone :: r in rows && r <= upto && LoneTombstone(rows, tombstone, r, upto)
    ensures LiveKept(rows, rows - gone, tombstone, upto)
  {
    forall key, w | w >= upto
      ensures Live(rows - gone, tombstone, key, w) == Live(rows, tombstone, key, w)
    {
      var vs := VersionsUpTo(rows, key, w);
      if vs != {} && MaxOf(vs) in gone {
        OnlyVersion(rows, tombstone, key, w, upto);
        assert VersionsUpTo(rows - gone, key, w) == {} by {
          assert forall r | r in VersionsUpTo(rows - gone, key, w) :: r in vs;
        }
      } else {
        NewestStays(rows, gone, tombstone, key, w);
      }
    }
  }

  /** A lone tombstone that is the newest version at a later watermark is the only version there. */
  lemma OnlyVersion(rows: Table, tombstone: string, key: string, w: nat, upto: nat)
    requires var vs := VersionsUpTo(rows, key, w);
             vs != {} && MaxOf(vs) <= upto && LoneTombstone(rows, tombstone, MaxOf(vs), upto)
    ensures VersionsUpTo(rows, key, w) == {MaxOf(VersionsUpTo(rows, key, w))}
  {
    var vs := VersionsUpTo(rows, key, w);
    forall r | r in vs
      ensures r == MaxOf(vs)
    {
      assert r <= MaxOf(vs) <= upto && rows[r].body.key == rows[MaxOf(vs)].body.key;
    }
  }

  lemma LiveKeptTwice(a: Table, b: Table, c: Table, tombstone: string, upto: nat)
    requires LiveKept(a, b, tombstone, upto) && LiveKept(b, c, tombstone, upto)
    ensures LiveKept(a, c, tombstone, upto)
  {
    hide Live;
  }

  /** At most `limit` of a set: all of it, or exactly that many. */
  method TakeUpTo(s: set<nat>, limit: nat) returns (t: set<nat>)
    ensures t <= s && |t| <= limit && (|t| < limit ==> t == s)
  {
    t := {};
    var rest := s;
    while rest != {} && |t| < limit
      invariant t + rest == s && t !! rest && |t| <= limit
    {
      var x :| x in rest;
      t, rest := t + {x}, rest - {x};
    }
  }

  /** Every registered consumer has read up to this row. */
  predicate ReadByAll(cursors: seq<nat>, r: nat) { forall c | c in cursors :: r <= c }

  class KeyedTopic {
    const own: string
    const tombstone: string
    var rows: Table
    /** The rowids every registered consumer has read up to. */
    var cursors: seq<nat>

    constructor (own: string, tombstone: string, rows: Table, cursors: seq<nat>)
      ensures this.rows == rows && this.cursors == cursors && this.tombstone == tombstone && this.own == own
    {
      this.own, this.tombstone, this.rows, this.cursors := own, tombstone, rows, cursors;
    }

    /** min(uptoRowid, every cursor). */
    method CursorFloor(upto: nat) returns (floor: nat)
      ensures floor <= upto && (forall c | c in cursors :: floor <= c)
      ensures floor == upto || (floor in cursors && floor < upto)
    {
      floor := upto;
      var i := 0;
      while i < |cursors|
        invariant 0 <= i <= |cursors| && floor <= upto && forall c | c in cursors[..i] :: floor <= c
        invariant floor == upto || (floor in cursors && floor < upto)
      {
        assert cursors[..i + 1] == cursors[..i] + [cursors[i]];
        if cursors[i] < floor { floor := cursors[i]; }
        i := i + 1;
      }
      assert cursors[..i] == cursors;
    }

    /** supersededRowids: at most `limit` of the superseded rows at or below the floor. */
    method SupersededRowids(floor: nat, upto: nat, limit: nat) returns (rs: set<nat>)
      ensures |rs| <= limit && forall r | r in rs :: r in rows && r <= floor && Superseded(rows, r, upto)
      ensures |rs| < limit ==> forall r | r in rows && r <= floor && Superseded(rows, r, upto) :: r in rs
    {
      var candidates := set r | r in rows && r <= floor && rows[r].body.key.Some?
                                && exists b :: b in rows && rows[b].body.key == rows[r].body.key && r < b <= upto;
      rs := TakeUpTo(candidates, limit);
    }

    /** loneTombstoneRowids. */
    method LoneTombstoneRowids(floor: nat, upto: nat, limit: nat) returns (rs: set<nat>)
      ensures |rs| <= limit && forall r | r in rs :: r in rows && r <= floor && LoneTombstone(rows, tombstone, r, upto)
      ensures |rs| < limit ==> forall r | r in rows && r <= floor && LoneTombstone(rows, tombstone, r, upto) :: r in rs
    {
      var candidates := set r | r in rows && r <= floor && rows[r].body.key.Some? && rows[r].body.kind == tombstone
                                && !exists b :: b in rows && rows[b].body.key == rows[r].body.key && b != r && b <= upto;
      rs := TakeUpTo(candidates, limit);
    }

    /** otherWriterRowids. */
    method OtherWriterRowids(floor: nat, limit: nat) returns (rs: set<nat>)
      ensures |rs| <= limit && forall r | r in rs :: r in rows && r <= floor && rows[r].writer != own
      ensures |rs| < limit ==> forall r | r in rows && r <= floor && rows[r].writer != own :: r in rs
    {
      rs := TakeUpTo((set r | r in rows && r <= floor && rows[r].writer != own), limit);
    }

    /**
      pruneSuperseded. Within the row budget; nothing above the floor or unread by a consumer goes, and what goes is
      superseded, a tombstone, or, where that is asked for, another writer's. Short of the budget none of these is left.
      Without supersedeOtherWriters every live value at every watermark from `upto` on stays what it
      was. When no cursor lags and fewer than maxRows rows went, each key has at most one row at or
      below the watermark, and it is no tombstone.
    */
    method PruneSuperseded(upto: nat, maxRows: nat, supersedeOtherWriters: bool) returns (pruned: nat)
      requires maxRows > 0
      modifies this`rows
      ensures pruned <= maxRows
      ensures forall r | r in rows :: r in old(rows) && rows[r] == old(rows)[r]
      ensures forall r | r in old(rows) && r !in rows :: r <= upto && ReadByAll(cursors, r)
      ensures pruned == |old(rows)| - |rows|
      ensures forall r | r in old(rows) && r !in rows ::
                || (supersedeOtherWriters && old(rows)[r].writer != own) || Superseded(old(rows), r, upto) || old(rows)[r].body.kind == tombstone
      ensures pruned < maxRows ==> forall r | r in rows && 0 < r <= upto && ReadByAll(cursors, r) ::
                !Superseded(rows, r, upto) && !LoneTombstone(rows, tombstone, r, upto) && (supersedeOtherWriters ==> rows[r].writer == own)
      ensures !supersedeOtherWriters ==> LiveKept(old(rows), rows, tombstone, upto)
      ensures ReadByAll(cursors, upto) && upto >= 1 && pruned < maxRows ==> Compacted(rows, tombstone, upto)
    {
      hide ReadByAll, Superseded, LoneTombstone, LiveKept, Compacted, PickedOthers, PickedHidden, PickedLone;
      var floor := CursorFloor(upto);
      ghost var start := rows;
      if floor < 1 {
        NothingRead(rows, cursors, own, tombstone, floor, upto, supersedeOtherWriters);
        return 0;
      }
      var others := DropOthers(floor, maxRows, supersedeOtherWriters);
      var hidden := DropHidden(floor, upto, maxRows - |others|);
      var tombs := DropLone(floor, upto, maxRows - |others| - |hidden|);
      pruned := |others| + |hidden| + |tombs|;
      PrunedSays(start, rows, cursors, own, tombstone, floor, upto, supersedeOtherWriters, maxRows, others, hidden, tombs);
    }

    method DropOthers(floor: nat, budget: nat, wanted: bool) returns (gone: set<nat>)
      modifies this`rows
      ensures rows == old(rows) - gone && PickedOthers(old(rows), own, floor, wanted, budget, gone) && |gone| <= budget
    {
      gone := {};
      if wanted { gone := OtherWriterRowids(floor, budget); }
      rows := rows - gone;
    }

    method DropHidden(floor: nat, upto: nat, budget: nat) returns (gone: set<nat>)
      modifies this`rows
      ensures rows == old(rows) - gone && PickedHidden(old(rows), floor, upto, budget, gone) && |gone| <= budget
    {
      hide Superseded;
      gone := {};
      if budget > 0 { gone := SupersededRowids(floor, upto, budget); }
      rows := rows - gone;
    }

    method DropLone(floor: nat, upto: nat, budget: nat) returns (gone: set<nat>)
      modifies this`rows
      ensures rows == old(rows) - gone && PickedLone(old(rows), tombstone, floor, upto, budget, gone) && |gone| <= budget
    {
      hide LoneTombstone;
      gone := {};
      if budget > 0 { gone := LoneTombstoneRowids(floor, upto, budget); }
      rows := rows - gone;
    }
  }

  // ---- what a prune picks ----

  /** Other writers' rows, where asked for: as many as there is budget for. */
  ghost predicate PickedOthers(rows: Table, own: string, floor: nat, wanted: bool, budget: nat, picked: set<nat>)
  {
    && (forall r | r in picked :: r in rows && r <= floor && rows[r].writer != own) && |picked| <= budget
    && (!wanted ==> picked == {}) && (wanted && |picked| < budget ==> forall r | r in rows && r <= floor && rows[r].writer != own :: r in picked)
  }

  /** Then superseded rows. */
  ghost predicate PickedHidden(rows: Table, floor: nat, upto: nat, budget: nat, picked: set<nat>)
  {
    && (forall r | r in picked :: r in rows && r <= floor && Superseded(rows, r, upto)) && |picked| <= budget
    && (|picked| < budget ==> forall r | r in rows && r <= floor && Superseded(rows, r, upto) :: r in picked)
  }

  /** Then lone tombstones. */
  ghost predicate PickedLone(rows: Table, tombstone: string, floor: nat, upto: nat, budget: nat, picked: set<nat>)
  {
    && (forall r | r in picked :: r in rows && r <= floor && LoneTombstone(rows, tombstone, r, upto)) && |picked| <= budget
    && (|picked| < budget ==> forall r | r in rows && r <= floor && LoneTombstone(rows, tombstone, r, upto) :: r in picked)
  }

  lemma PrunedRows(rows: Table, own: string, tombstone: string, floor: nat, upto: nat, wanted: bool, budget: nat,
                   others: set<nat>, hidden: set<nat>, tombs: set<nat>)
    requires PickedOthers(rows, own, floor, wanted, budget, others) && PickedHidden(rows - others, floor, upto, budget - |others|, hidden)
    requires PickedLone(rows - others - hidden, tombstone, floor, upto, budget - |others| - |hidden|, tombs)
    ensures var left := rows - others - hidden - tombs;
            && |left| == |rows| - |others| - |hidden| - |tombs| && (forall r | r in left :: r in rows && left[r] == rows[r])
            && forall r | r in rows && r !in left :: r <= floor && ((wanted && rows[r].writer != own) || Superseded(rows, r, upto) || rows[r].body.kind == tombstone)
  {
    hide Superseded;
    var first, second := rows - others, rows - others - hidden;
    SupersededBefore(rows, first, hidden, upto);
    TombstonesAre(second, tombs, tombstone, upto);
    SmallerBy(rows, others);
    SmallerBy(first, hidden);
    SmallerBy(second, tombs);
  }

  /** All of it, in terms of the cursors. */
  lemma PrunedSays(rows: Table, left: Table, cursors: seq<nat>, own: string, tombstone: string, floor: nat, upto: nat, wanted: bool, budget: nat,
                   others: set<nat>, hidden: set<nat>, tombs: set<nat>)
    requires floor <= upto && (forall c | c in cursors :: floor <= c) && (floor == upto || floor in cursors)
    requires left == rows - others - hidden - tombs
    requires PickedOthers(rows, own, floor, wanted, budget, others) && PickedHidden(rows - others, floor, upto, budget - |others|, hidden)
    requires PickedLone(rows - others - hidden, tombstone, floor, upto, budget - |others| - |hidden|, tombs)
    ensures |others| + |hidden| + |tombs| == |rows| - |left|
    ensures forall r | r in left :: r in rows && left[r] == rows[r]
    ensures forall r | r in rows && r !in left :: r <= upto && ReadByAll(cursors, r)
    ensures forall r | r in rows && r !in left ::
              || (wanted && rows[r].writer != own) || Superseded(rows, r, upto) || rows[r].body.kind == tombstone
    ensures |others| + |hidden| + |tombs| < budget ==> forall r | r in left && 0 < r <= upto && ReadByAll(cursors, r) ::
              !Superseded(left, r, upto) && !LoneTombstone(left, tombstone, r, upto) && (wanted ==> left[r].writer == own)
    ensures !wanted ==> LiveKept(rows, left, tombstone, upto)
    ensures ReadByAll(cursors, upto) && |others| + |hidden| + |tombs| < budget ==> Compacted(left, tombstone, upto)
  {
    hide PickedOthers, PickedHidden, PickedLone, Superseded, LoneTombstone, LiveKept, Compacted;
    PrunedRows(rows, own, tombstone, floor, upto, wanted, budget, others, hidden, tombs);
    PrunedLive(rows, own, tombstone, floor, upto, wanted, budget, others, hidden, tombs);
    PrunedAll(rows, own, tombstone, floor, upto, wanted, budget, others, hidden, tombs);
  }

  lemma NothingRead(rows: Table, cursors: seq<nat>, own: string, tombstone: string, floor: nat, upto: nat, wanted: bool)
    requires floor == 0 && (floor == upto || floor in cursors)
    ensures forall r | r in rows && 0 < r <= upto && ReadByAll(cursors, r) ::
              !Superseded(rows, r, upto) && !LoneTombstone(rows, tombstone, r, upto) && (wanted ==> rows[r].writer == own)
    ensures LiveKept(rows, rows, tombstone, upto) && (upto >= 1 ==> !ReadByAll(cursors, upto))
  {
    hide Superseded, LoneTombstone, LiveKept;
    LiveSame(rows, tombstone, upto);
  }

  lemma PrunedLive(rows: Table, own: string, tombstone: string, floor: nat, upto: nat, wanted: bool, budget: nat,
                   others: set<nat>, hidden: set<nat>, tombs: set<nat>)
    requires floor <= upto
    requires PickedOthers(rows, own, floor, wanted, budget, others) && PickedHidden(rows - others, floor, upto, budget - |others|, hidden)
    requires PickedLone(rows - others - hidden, tombstone, floor, upto, budget - |others| - |hidden|, tombs)
    ensures !wanted ==> LiveKept(rows, rows - others - hidden - tombs, tombstone, upto)
  {
    hide Superseded, LoneTombstone, LiveKept;
    var second := rows - others - hidden;
    if !wanted {
      assert rows - others == rows;
      DropSuperseded(rows, hidden, tombstone, upto);
      DropLoneTombstones(second, tombs, tombstone, upto);
      LiveKeptTwice(rows, second, second - tombs, tombstone, upto);
    }
  }

  lemma PrunedAll(rows: Table, own: string, tombstone: string, floor: nat, upto: nat, wanted: bool, budget: nat,
                  others: set<nat>, hidden: set<nat>, tombs: set<nat>)
    requires floor <= upto
    requires PickedOthers(rows, own, floor, wanted, budget, others) && PickedHidden(rows - others, floor, upto, budget - |others|, hidden)
    requires PickedLone(rows - others - hidden, tombstone, floor, upto, budget - |others| - |hidden|, tombs)
    ensures var left := rows - others - hidden - tombs;
            |others| + |hidden| + |tombs| < budget ==>
              && (forall r | r in left && r <= floor :: !Superseded(left, r, upto) && !LoneTombstone(left, tombstone, r, upto) && (wanted ==> left[r].writer == own))
              && (floor == upto ==> Compacted(left, tombstone, upto))
  {
    hide Superseded, LoneTombstone, Compacted, AtMostOne;
    var first, second := rows - others, rows - others - hidden;
    if |others| + |hidden| + |tombs| < budget {
      NoneSuperseded(first, hidden, floor, upto);
      NoneLone(second, tombs, tombstone, floor, upto);
      assert NoneHidden(second - tombs, floor, upto);
      if floor == upto {
        OneRowEach(first, hidden, upto);
        NoTombstones(second, tombs, tombstone, upto);
      }
    }
  }

  lemma SmallerBy(rows: Table, gone: set<nat>)
    requires gone <= rows.Keys
    ensures |rows - gone| == |rows| - |gone|
  {
    assert (rows - gone).Keys == rows.Keys - gone;
    assert |rows| == |rows.Keys| && |rows - gone| == |(rows - gone).Keys|;
  }

  /** What is superseded among fewer rows was superseded among more. */
  lemma SupersededBefore(all: Table, rows: Table, gone: set<nat>, upto: nat)
    requires (forall r | r in rows :: r in all && rows[r] == all[r]) && forall r | r in gone :: r in rows && Superseded(rows, r, upto)
    ensures gone <= rows.Keys && forall r | r in gone :: r in all && Superseded(all, r, upto)
  {
  }

  lemma TombstonesAre(rows: Table, gone: set<nat>, tombstone: string, upto: nat)
    requires forall r | r in gone :: r in rows && LoneTombstone(rows, tombstone, r, upto)
    ensures gone <= rows.Keys && forall r | r in gone :: rows[r].body.kind == tombstone
  {
  }

  lemma NoneSuperseded(rows: Table, gone: set<nat>, floor: nat, upto: nat)
    requires forall r | r in rows && r <= floor && Superseded(rows, r, upto) :: r in gone
    ensures NoneHidden(rows - gone, floor, upto)
  {
  }

  ghost predicate NoneHidden(rows: Table, floor: nat, upto: nat) { forall r | r in rows && r <= floor :: !Superseded(rows, r, upto) }

  /** The tombstones left behind have company above the floor, and removing lone ones supersedes nothing. */
  lemma NoneLone(rows: Table, gone: set<nat>, tombstone: string, floor: nat, upto: nat)
    requires forall r | r in rows && r <= floor && LoneTombstone(rows, tombstone, r, upto) :: r in gone
    requires forall r | r in gone :: r in rows && r <= floor <= upto && LoneTombstone(rows, tombstone, r, upto)
    ensures forall r | r in rows - gone && r <= floor :: !LoneTombstone(rows - gone, tombstone, r, upto)
    ensures NoneHidden(rows, floor, upto) ==> NoneHidden(rows - gone, floor, upto)
  {
    var left := rows - gone;
    forall r | r in left && r <= floor
      ensures !LoneTombstone(left, tombstone, r, upto)
    {
      if rows[r].body.key.Some? && rows[r].body.kind == tombstone {
        var b :| b in rows && rows[b].body.key == rows[r].body.key && b != r && b <= upto;
        if b in gone { assert false; }
        assert b in left && left[b].body.key == left[r].body.key;
      }
    }
    forall r | r in left && r <= floor && Superseded(left, r, upto)
      ensures Superseded(rows, r, upto)
    {
      var b :| b in left && left[b].body.key == left[r].body.key && r < b <= upto;
      assert b in rows;
    }
  }

  lemma LiveSame(rows: Table, tombstone: string, upto: nat)
    ensures LiveKept(rows, rows, tombstone, upto)
  {
  }

  ghost predicate AtMostOne(rows: Table, upto: nat)
  {
    forall a, b | a in rows && b in rows && a <= upto && b <= upto && rows[a].body.key.Some? && rows[a].body.key == rows[b].body.key :: a == b
  }

  /** Each key has at most one row at or below the watermark, and it is no tombstone. */
  ghost predicate Compacted(rows: Table, tombstone: string, upto: nat)
  {
    AtMostOne(rows, upto) && forall r | r in rows && r <= upto && rows[r].body.key.Some? :: rows[r].body.kind != tombstone
  }

  lemma OneRowEach(rows: Table, gone: set<nat>, upto: nat)
    requires forall r | r in rows && r <= upto && Superseded(rows, r, upto) :: r in gone
    ensures AtMostOne(rows - gone, upto)
  {
    forall a, b | a in rows - gone && b in rows - gone && a <= upto && b <= upto && rows[a].body.key.Some? && rows[a].body.key == rows[b].body.key
      ensures a == b
    {
      if a < b { assert Superseded(rows, a, upto); }
      if b < a { assert Superseded(rows, b, upto); }
    }
  }

  lemma NoTombstones(rows: Table, gone: set<nat>, tombstone: string, upto: nat)
    requires AtMostOne(rows, upto) && forall r | r in rows && r <= upto && LoneTombstone(rows, tombstone, r, upto) :: r in gone
    ensures Compacted(rows - gone, tombstone, upto)
  {
    forall r | r in rows - gone && r <= upto && rows[r].body.key.Some?
      ensures rows[r].body.kind != tombstone
    {
      if rows[r].body.kind == tombstone { assert LoneTombstone(rows, tombstone, r, upto); }
    }
  }

  // ---- many prunes ----

  /** A row is committed, with a rowid above all given out so far; or the table is pruned under a watermark. */
  datatype Event = CommitRow(rowid: nat, row: Entry) | PruneAt(upto: nat)

  /** A pruned table, the table had nothing ever been pruned, and the highest watermark used. */
  datatype Pruned = Pruned(rows: Table, all: Table, high: nat)

  ghost predicate Step(tombstone: string, a: Pruned, e: Event, b: Pruned)
  {
    match e
    case CommitRow(rowid, row) =>
      (forall r | r in a.all :: r < rowid) && b == Pruned(a.rows[rowid := row], a.all[rowid := row], a.high)
    case PruneAt(upto) =>
      LiveKept(a.rows, b.rows, tombstone, upto) && (forall r | r in b.rows :: r in a.rows) && b.all == a.all && b.high == Max(a.high, upto)
  }

  ghost predicate Run(tombstone: string, ts: seq<Pruned>, es: seq<Event>)
  {
    |ts| == |es| + 1 && ts[0] == Pruned(map[], map[], 0) && forall i | 0 <= i < |es| :: Step(tombstone, ts[i], es[i], ts[i + 1])
  }

  /** A newer row on both sides. */
  lemma CommitKeepsLive(a: Table, b: Table, tombstone: string, high: nat, rowid: nat, row: Entry)
    requires LiveKept(a, b, tombstone, high) && forall r | r in a || r in b :: r < rowid
    ensures LiveKept(a[rowid := row], b[rowid := row], tombstone, high)
  {
    hide Live;
    var a', b' := a[rowid := row], b[rowid := row];
    forall key, w | w >= high
      ensures Live(b', tombstone, key, w) == Live(a', tombstone, key, w)
    {
      NewRowLive(a, tombstone, key, w, rowid, row);
      NewRowLive(b, tombstone, key, w, rowid, row);
    }
  }

  /** The newest row of its key decides; no other key and no earlier watermark sees it. */
  lemma NewRowLive(rows: Table, tombstone: string, key: string, w: nat, rowid: nat, row: Entry)
    requires forall r | r in rows :: r < rowid
    ensures Live(rows[rowid := row], tombstone, key, w) ==
            if row.body.key == Some(key) && rowid <= w then (if row.body.kind == tombstone then None else Some(row))
            else Live(rows, tombstone, key, w)
  {
    if row.body.key == Some(key) && rowid <= w {
      NewestIs(rows[rowid := row], tombstone, key, w, rowid);
    } else {
      assert VersionsUpTo(rows[rowid := row], key, w) == VersionsUpTo(rows, key, w);
    }
  }

  /** However often it was pruned, and under whatever watermarks, the table reads as if nothing had ever gone. */
  lemma {:induction false} PrunedRuns(tombstone: string, ts: seq<Pruned>, es: seq<Event>)
    requires Run(tombstone, ts, es)
    ensures var t := ts[|es|]; LiveKept(t.all, t.rows, tombstone, t.high) && forall r | r in t.rows :: r in t.all
  {
    hide LiveKept;
    if es == [] {
      LiveSame(map[], tombstone, 0);
    } else {
      var n := |es| - 1;
      PrunedRuns(tombstone, ts[..n + 1], es[..n]);
      var a, b := ts[n], ts[n + 1];
      assert Step(tombstone, a, es[n], b);
      match es[n]
      case CommitRow(rowid, row) => CommitKeepsLive(a.all, a.rows, tombstone, a.high, rowid, row);
      case PruneAt(upto) =>
        LiveLater(a.all, a.rows, tombstone, a.high, b.high);
        LiveLater(a.rows, b.rows, tombstone, upto, b.high);
        LiveKeptTwice(a.all, a.rows, b.rows, tombstone, b.high);
    }
  }

  lemma LiveLater(a: Table, b: Table, tombstone: string, w: nat, w': nat)
    requires LiveKept(a, b, tombstone, w) && w <= w'
    ensures LiveKept(a, b, tombstone, w')
  {
    hide Live;
  }

  /**
    A deleted key stays deleted: once the newest row ever committed for it is a tombstone, no run of prunes
    gives it a live value again, though the tombstone itself may be gone.
  */
  lemma NoResurrection(tombstone: string, ts: seq<Pruned>, es: seq<Event>, key: string, r: nat, w: nat)
    requires Run(tombstone, ts, es) && w >= ts[|es|].high
    requires var all := ts[|es|].all;
             r in all && r <= w && all[r].body.key == Some(key) && all[r].body.kind == tombstone
             && forall q | q in all && q <= w && all[q].body.key == Some(key) :: q <= r
    ensures Live(ts[|es|].rows, tombstone, key, w) == None
  {
    PrunedRuns(tombstone, ts, es);
    NewestIs(ts[|es|].all, tombstone, key, w, r);
  }
}
