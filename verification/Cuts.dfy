/**
  The rows at or below a place in the total order, read page by page (src/views.ts:195-216,
  src/register.ts:253-273): how a state is rebuilt exactly at a cut.
*/
module Cuts {
  import opened HlcClock
  import opened Entries

  /** At or below a place in the order. */
  predicate UpTo(x: Entry, bound: Order) { !Before(bound, OrderOf(x)) }

  lemma PastPlace(x: Entry, at: Order)
    ensures OrderCompare(OrderOf(x), at) > 0 <==> !UpTo(x, at)
  {
    OrderTotal(OrderOf(x), at);
  }

  lemma UpToBelow(x: Entry, y: Entry, bound: Order)
    requires UpTo(x, bound) && Before(OrderOf(y), OrderOf(x))
    ensures UpTo(y, bound)
  {
    OrderTotal(bound, OrderOf(y));
    if Before(bound, OrderOf(y)) {
      OrderTransitive(bound, OrderOf(y), OrderOf(x));
    }
  }

  function Top(folded: seq<Entry>, floor: Option<Order>): Option<Order>
  {
    if folded == [] then floor else LastOrder(folded)
  }

  /** The leading rows at or below a place. */
  function Through(xs: seq<Entry>, at: Order): seq<Entry>
  {
    if xs == [] || !UpTo(xs[0], at) then [] else [xs[0]] + Through(xs[1..], at)
  }

  lemma {:induction false} ThroughSplit(xs: seq<Entry>, ys: seq<Entry>, at: Order)
    requires forall x | x in xs :: UpTo(x, at)
    ensures Through(xs + ys, at) == xs + Through(ys, at)
  {
    if xs == [] {
      assert xs + ys == ys;
    } else {
      assert (xs + ys)[1..] == xs[1..] + ys;
      ThroughSplit(xs[1..], ys, at);
    }
  }

  /** Of rows in order, those at or below the place are leading. */
  lemma {:induction false} ThroughMembers(xs: seq<Entry>, at: Order)
    requires Sorted(xs)
    ensures Sorted(Through(xs, at)) && forall x :: x in Through(xs, at) <==> x in xs && UpTo(x, at)
  {
    if xs != [] {
      ThroughMembers(xs[1..], at);
      assert xs == [xs[0]] + xs[1..];
      if UpTo(xs[0], at) {
        var rest := Through(xs[1..], at);
        forall e | e in rest
          ensures Before(OrderOf(xs[0]), OrderOf(e))
        {
          assert e in xs[1..];
          var i :| 0 <= i < |xs[1..]| && xs[1..][i] == e;
          assert xs[i + 1] == e;
        }
      } else {
        forall x | x in xs
          ensures !UpTo(x, at)
        {
          var i :| 0 <= i < |xs| && xs[i] == x;
          if UpTo(x, at) && i > 0 { UpToBelow(x, xs[0], at); }
        }
      }
    }
  }

  lemma ThroughLast(xs: seq<Entry>, at: Order)
    requires Sorted(xs) && (xs != [] ==> at == OrderOf(xs[|xs| - 1]))
    ensures Through(xs, at) == xs
  {
    forall e | e in xs
      ensures UpTo(e, at)
    {
      var i :| 0 <= i < |xs| && xs[i] == e;
      OrderTotal(at, OrderOf(e));
    }
    hide UpTo, OrderOf, Sorted;
    ThroughSplit(xs, [], at);
    assert xs + [] == xs && Through([], at) == [];
  }

  /** Part of the wanted rows are folded; those after the watermark and at or below the place remain. */
  ghost predicate PartWay(all: seq<Entry>, floor: Option<Order>, target: seq<Entry>, at: Order, done: seq<Entry>, place: Option<Order>)
  {
    place == Top(done, floor) && done + Through(After(all, place), at) == target
  }

  lemma Finished(all: seq<Entry>, floor: Option<Order>, target: seq<Entry>, at: Order, done: seq<Entry>, place: Option<Order>, limit: nat)
    requires limit > 0 && PartWay(all, floor, target, at, done, place) && Take(After(all, place), limit) == []
    ensures done == target && place == Top(done, floor)
  {
    EmptyPage(After(all, place), limit);
    assert done + [] == done;
  }

  /** Of a page and the rows after it, those at or below the place: n of the page, and more only if that is all of it. */
  lemma PageCut(page: seq<Entry>, rest: seq<Entry>, at: Order, n: nat)
    requires n <= |page| && (forall x | x in page[..n] :: UpTo(x, at)) && (n < |page| ==> !UpTo(page[n], at))
    ensures Through(page + rest, at) == page[..n] + if n < |page| then [] else Through(rest, at)
  {
    hide UpTo;
    ThroughSplit(page[..n], page[n..] + rest, at);
    assert page + rest == page[..n] + (page[n..] + rest);
    if n < |page| {
      assert (page[n..] + rest)[0] == page[n];
    } else {
      assert page[n..] + rest == rest;
    }
  }

  /** A page cut short at the place ends the state; a whole page leaves the rest to fold. */
  lemma PageThrough(all: seq<Entry>, floor: Option<Order>, target: seq<Entry>, at: Order, done: seq<Entry>, place: Option<Order>, limit: nat, n: nat)
    requires limit > 0 && Sorted(all) && PartWay(all, floor, target, at, done, place)
    requires var page := Take(After(all, place), limit);
             page != [] && n <= |page| && (forall x | x in page[..n] :: UpTo(x, at)) && (n < |page| ==> !UpTo(page[n], at))
    ensures var page := Take(After(all, place), limit);
            if n < |page| then
              && done + page[..n] == target
              && (if n > 0 then Some(OrderOf(page[n - 1])) else place) == Top(done + page[..n], floor)
            else PartWay(all, floor, target, at, done + page[..n], LastOrder(page)) && |After(all, LastOrder(page))| < |After(all, place)|
  {
    hide UpTo, Through, OrderOf, After, Sorted, Before, OrderCompare, Take, LastOrder, Top;
    var page := Take(After(all, place), limit);
    PageSplit(all, place, limit);
    var rest := After(all, LastOrder(page));
    PageCut(page, rest, at, n);
    assert done + (page[..n] + Through(rest, at)) == (done + page[..n]) + Through(rest, at);
    assert done + (page[..n] + []) == done + page[..n];
    TopAfter(done, page[..n], floor);
    if n == |page| { assert page[..n] == page; }
  }

  lemma TopAfter(done: seq<Entry>, page: seq<Entry>, floor: Option<Order>)
    ensures Top(done + page, floor) == if page == [] then Top(done, floor) else Some(OrderOf(page[|page| - 1]))
    ensures page != [] ==> LastOrder(page) == Some(OrderOf(page[|page| - 1]))
  {
    hide OrderOf;
    assert page == [] ==> done + page == done;
  }

  lemma PageSplit(all: seq<Entry>, cursor: Option<Order>, limit: nat)
    requires limit > 0 && Sorted(all) && Take(After(all, cursor), limit) != []
    ensures var page := Take(After(all, cursor), limit);
            After(all, cursor) == page + After(all, LastOrder(page)) && |After(all, LastOrder(page))| < |After(all, cursor)|
  {
    PageAdvance(all, cursor, limit, []);
    hide *;
    var page := Take(After(all, cursor), limit);
    assert [] + After(all, cursor) == After(all, cursor) && [] + page == page;
  }

  /** Two logs holding the same rows at or below a place read the same up to it, whatever else they hold. */
  lemma SameCut(xs: seq<Entry>, ys: seq<Entry>, at: Order)
    requires Sorted(xs) && Sorted(ys) && forall e | UpTo(e, at) :: e in xs <==> e in ys
    ensures Through(xs, at) == Through(ys, at)
  {
    hide Sorted, UpTo;
    ThroughMembers(xs, at);
    ThroughMembers(ys, at);
    SortedUnique(Through(xs, at), Through(ys, at));
  }

  /** Rows in order are those at or below a cut, then those above it. */
  lemma CutSplits(xs: seq<Entry>, at: Order)
    requires Sorted(xs)
    ensures xs == Through(xs, at) + After(xs, Some(at))
  {
    var below, above := Through(xs, at), After(xs, Some(at));
    ThroughMembers(xs, at);
    AfterMembers(xs, Some(at));
    AfterSorted(xs, Some(at));
    hide Through, After, OrderCompare, OrderOf;
    forall x, y | x in below && y in above
      ensures Before(OrderOf(x), OrderOf(y))
    {
      OrderTotal(OrderOf(x), at);
      if OrderOf(x) != at { OrderTransitive(OrderOf(x), at, OrderOf(y)); }
    }
    JoinedSorted(below, above);
    SortedUnique(xs, below + above);
  }

  lemma JoinedSorted(xs: seq<Entry>, ys: seq<Entry>)
    requires Sorted(xs) && Sorted(ys) && forall x, y | x in xs && y in ys :: Before(OrderOf(x), OrderOf(y))
    ensures Sorted(xs + ys)
  {
    hide Before, OrderOf;
  }

  /** The tightest place after this one. */
  function JustAfter(at: Order): Order { at.(seqNo := at.seqNo + 1) }

  /** Nothing lies between a place and the one just after it. */
  lemma JustAfterTight(o: Order, at: Order)
    ensures Before(o, JustAfter(at)) <==> !Before(at, o)
  {
    StringLessTotal(o.writer, at.writer);
  }
}
