/** The queue of inputs a user sends while a run is busy (`run_inputs`): positions implement a
    first-in first-out list per run, and every input is handled exactly once.
    An input's id is its index, which is also the order of creation. */
module RunInputs {
  import opened Text

  datatype Status = Queued | Consumed | Skipped | Deleted

  datatype Item = Item(run: nat, content: string, position: int, status: Status, message: Option<nat>)

  /** A stored chat message; `source` is the queued input it was made from. */
  datatype Message = Message(sequence: nat, text: string, run: nat, source: Option<nat>)

  datatype Table = Table(items: seq<Item>, messages: seq<Message>)

  // ----- ordered queries -----

  /** The order of every queue query: by position, then by creation. */
  predicate Before(items: seq<Item>, j: nat, k: nat)
    requires j < |items| && k < |items|
  {
    items[j].position < items[k].position || (items[j].position == items[k].position && j < k)
  }

  datatype Filter = Of(run: nat) | NotOf(run: nat) | All {
    predicate Picks(i: Item) {
      i.status == Queued && match this
        case Of(r) => i.run == r
        case NotOf(r) => i.run != r
        case All => true
    }
  }

  predicate Ids(items: seq<Item>, order: seq<nat>) {
    (forall i :: 0 <= i < |order| ==> order[i] < |items|) && (forall k :: k in order ==> k < |items|)
  }

  predicate Sorted(items: seq<Item>, order: seq<nat>)
    requires Ids(items, order)
  {
    forall i, j :: 0 <= i < j < |order| ==> Before(items, order[i], order[j])
  }

  function Insert(items: seq<Item>, order: seq<nat>, k: nat): seq<nat>
    requires Ids(items, order) && k < |items|
  {
    if order == [] then [k]
    else if items[k].position < items[order[0]].position then [k] + order
    else [order[0]] + Insert(items, order[1..], k)
  }

  function OrderTo(items: seq<Item>, f: Filter, n: nat): (order: seq<nat>)
    requires n <= |items|
    ensures Ids(items, order) && forall k :: k in order ==> k < n
  {
    if n == 0 then []
    else
      var rest := OrderTo(items, f, n - 1);
      if f.Picks(items[n - 1]) then
        InsertKeeps(items, rest, n - 1);
        Insert(items, rest, n - 1)
      else rest
  }

  /** The queued inputs a filter picks, first to be served first. */
  function Order(items: seq<Item>, f: Filter): (order: seq<nat>)
    ensures Ids(items, order)
  {
    OrderTo(items, f, |items|)
  }

  lemma {:induction false} InsertKeeps(items: seq<Item>, order: seq<nat>, k: nat)
    requires Ids(items, order) && k < |items|
    ensures Ids(items, Insert(items, order, k))
    ensures forall x :: x in Insert(items, order, k) <==> x == k || x in order
  {
    if order != [] && items[k].position >= items[order[0]].position {
      InsertKeeps(items, order[1..], k);
    }
  }

  lemma {:induction false} InsertSorts(items: seq<Item>, order: seq<nat>, k: nat)
    requires Ids(items, order) && k < |items| && Sorted(items, order) && forall x :: x in order ==> x < k
    ensures Ids(items, Insert(items, order, k)) && Sorted(items, Insert(items, order, k))
  {
    InsertKeeps(items, order, k);
    if order != [] {
      if items[k].position >= items[order[0]].position {
        var tail := order[1..];
        assert forall x :: x in tail ==> x in order;
        InsertSorts(items, tail, k);
        InsertKeeps(items, tail, k);
        var rest := Insert(items, tail, k);
        assert order[0] in order;
        forall x | x in tail ensures Before(items, order[0], x) {
          var i :| 0 <= i < |tail| && tail[i] == x;
          assert x == order[i + 1];
        }
        assert forall x :: x in rest ==> Before(items, order[0], x);
      } else {
        assert forall j :: 0 < j < |order| ==> Before(items, order[0], order[j]);
      }
    }
  }

  lemma {:induction false} OrderStep(items: seq<Item>, f: Filter, n: nat)
    requires n < |items|
    ensures
      var rest := OrderTo(items, f, n);
      OrderTo(items, f, n + 1) == if f.Picks(items[n]) then Insert(items, rest, n) else rest
  {
  }

  /** The picked ones of the first `n` inputs, sorted. */
  ghost predicate Lists(items: seq<Item>, f: Filter, n: nat, order: seq<nat>)
    requires n <= |items|
  {
    Ids(items, order) && Sorted(items, order) && forall k: nat :: k in order <==> k < n && f.Picks(items[k])
  }

  lemma {:induction false} InsertLists(items: seq<Item>, f: Filter, n: nat, order: seq<nat>)
    requires n < |items| && Lists(items, f, n, order)
    ensures
      if f.Picks(items[n]) then Ids(items, order) && Lists(items, f, n + 1, Insert(items, order, n))
      else Lists(items, f, n + 1, order)
  {
    hide Insert, Sorted, Filter.Picks;
    if f.Picks(items[n]) {
      InsertKeeps(items, order, n);
      InsertSorts(items, order, n);
    }
  }

  lemma {:induction false} OrderToIs(items: seq<Item>, f: Filter, n: nat)
    requires n <= |items|
    ensures Lists(items, f, n, OrderTo(items, f, n))
  {
    if n > 0 {
      OrderStep(items, f, n - 1);
      OrderToIs(items, f, n - 1);
      hide OrderTo, Insert, Lists, Filter.Picks;
      InsertLists(items, f, n - 1, OrderTo(items, f, n - 1));
    }
  }

  ghost predicate IsOrder(items: seq<Item>, f: Filter, order: seq<nat>) {
    && Ids(items, order) && Sorted(items, order)
    && (forall k: nat :: k in order <==> k < |items| && f.Picks(items[k]))
  }

  /** The query result is the one sorted list of the picked inputs. */
  lemma {:induction false} OrderIs(items: seq<Item>, f: Filter)
    ensures IsOrder(items, f, Order(items, f))
    ensures forall order :: IsOrder(items, f, order) ==> order == Order(items, f)
  {
    OrderToIs(items, f, |items|);
    forall order | IsOrder(items, f, order) ensures order == Order(items, f) {
      SortedIsUnique(items, order, Order(items, f));
    }
  }

  lemma {:induction false} FirstIsLeast(items: seq<Item>, order: seq<nat>, k: nat)
    requires Ids(items, order) && Sorted(items, order) && k in order
    ensures k == order[0] || Before(items, order[0], k)
  {
    var i :| 0 <= i < |order| && order[i] == k;
  }

  lemma {:induction false} RestOf(items: seq<Item>, order: seq<nat>, k: nat)
    requires Ids(items, order) && Sorted(items, order) && order != []
    ensures k in order[1..] <==> k in order && k != order[0]
  {
    assert order == [order[0]] + order[1..];
    if k in order[1..] {
      var i :| 0 <= i < |order[1..]| && order[1..][i] == k;
      assert order[i + 1] == k && Before(items, order[0], order[i + 1]);
    }
  }

  lemma {:induction false} SortedIsUnique(items: seq<Item>, a: seq<nat>, b: seq<nat>)
    requires Ids(items, a) && Ids(items, b) && Sorted(items, a) && Sorted(items, b)
    requires forall k: nat :: k in a <==> k in b
    ensures a == b
  {
    assert |a| > 0 ==> a[0] in b;
    assert |b| > 0 ==> b[0] in a;
    if a != [] && b != [] {
      FirstIsLeast(items, a, b[0]);
      FirstIsLeast(items, b, a[0]);
      forall k: nat ensures k in a[1..] <==> k in b[1..] {
        RestOf(items, a, k);
        RestOf(items, b, k);
      }
      SortedIsUnique(items, a[1..], b[1..]);
      assert a == [a[0]] + a[1..] && b == [b[0]] + b[1..];
    }
  }

  // ----- the operations -----

  function MaxPosition(items: seq<Item>, order: seq<nat>): int
    requires Ids(items, order) && order != []
  {
    var p := items[order[0]].position;
    if |order| == 1 then p
    else Max(p, MaxPosition(items, order[1..]))
  }

  /** One past the largest queued position of the run; 1 for an empty queue. */
  function NextPosition(items: seq<Item>, r: nat): int {
    var order := Order(items, Of(r));
    if order == [] then 1 else MaxPosition(items, order) + 1
  }

  function Enqueue(items: seq<Item>, r: nat, content: string): seq<Item> {
    items + [Item(r, content, NextPosition(items, r), Queued, None)]
  }

  /** Positions 1, 2, … in the given order, and the new run if there is one. */
  function Place(items: seq<Item>, order: seq<nat>, run: Option<nat>, i: nat): (r: seq<Item>)
    requires Ids(items, order) && i <= |order|
    ensures |r| == |items|
    decreases |order| - i
  {
    if i == |order| then items
    else
      var item := items[order[i]];
      var placed := item.(run := if run.Some? then run.value else item.run, position := i + 1);
      Place(items[order[i] := placed], order, run, i + 1)
  }

  function Adopt(items: seq<Item>, r: nat): seq<Item> {
    Place(items, Order(items, NotOf(r)), Some(r), 0)
  }

  function SkipAll(items: seq<Item>, r: nat): (s: seq<Item>)
    ensures |s| == |items| && forall k :: 0 <= k < |s| ==> s[k] == Skip(items[k], r)
  {
    seq(|items|, k requires 0 <= k < |items| => Skip(items[k], r))
  }

  function Skip(item: Item, r: nat): Item { if Of(r).Picks(item) then item.(status := Skipped) else item }

  predicate Reorderable(items: seq<Item>, ids: seq<nat>) {
    && NoRepeats(ids)
    && (forall k :: k in ids ==> k < |items| && items[k].status == Queued)
    && (forall k: nat :: k < |items| && items[k].status == Queued ==> k in ids)
  }

  /** `None` is the `ValueError` of a list that is not a permutation of the queued inputs. */
  function Reorder(items: seq<Item>, ids: seq<nat>): Option<seq<Item>> {
    if !Reorderable(items, ids) then None
    else
      assert Ids(items, ids) by {
        assert forall i :: 0 <= i < |ids| ==> ids[i] in ids;
      }
      Some(Place(items, ids, None, 0))
  }

  predicate NeedsConsumption(item: Item) {
    !(item.status == Consumed && item.message.Some?)
  }

  predicate SequenceFree(messages: seq<Message>, sequence: nat) {
    forall m :: 0 <= m < |messages| ==> messages[m].sequence != sequence
  }

  /** An input becomes a message once; a taken sequence number rolls the attempt back. */
  function ConsumeItem(t: Table, k: nat, sequence: nat): Table
    requires k < |t.items|
  {
    var item := t.items[k];
    if !NeedsConsumption(item) || !SequenceFree(t.messages, sequence) then t
    else
      Table(t.items[k := item.(status := Consumed, message := Some(|t.messages|))],
            t.messages + [Message(sequence, item.content, item.run, Some(k))])
  }

  function ClaimNext(items: seq<Item>, r: nat): Option<nat> {
    var order := Order(items, Of(r));
    if order == [] then None else Some(order[0])
  }

  function Consume(t: Table, r: nat, sequence: nat): Table {
    var head := ClaimNext(t.items, r);
    OrderIs(t.items, Of(r));
    if head.None? then t else ConsumeItem(t, head.value, sequence)
  }

  // ----- positions implement a first-in first-out list -----

  lemma {:induction false} MaxPositionIs(items: seq<Item>, order: seq<nat>)
    requires Ids(items, order) && order != []
    ensures forall k :: k in order ==> items[k].position <= MaxPosition(items, order)
  {
    if |order| > 1 {
      MaxPositionIs(items, order[1..]);
      assert order == [order[0]] + order[1..];
    }
  }

  /** A later input of a run always goes to the end of its queue. */
  lemma {:induction false} EnqueueAppends(items: seq<Item>, r: nat, content: string, q: nat)
    ensures Order(Enqueue(items, r, content), Of(q)) == Order(items, Of(q)) + if q == r then [|items|] else []
    ensures forall k :: k in Order(items, Of(r)) ==> items[k].position < Enqueue(items, r, content)[|items|].position
  {
    if Order(items, Of(r)) != [] { MaxPositionIs(items, Order(items, Of(r))); }
    var after, n := Enqueue(items, r, content), |items|;
    var order := Order(items, Of(q));
    OrderIs(items, Of(q));
    if q == r && order != [] { MaxPositionIs(items, order); }
    var want := order + if q == r then [n] else [];
    hide Order, MaxPosition;
    assert IsOrder(after, Of(q), want) by {
      forall i, j | 0 <= i < j < |want| ensures Before(after, want[i], want[j]) {
        assert order[i] in order;
        if j < |order| { assert Before(items, order[i], order[j]); }
      }
      forall k: nat ensures k in want <==> k < |after| && Of(q).Picks(after[k]) {
      }
    }
    OrderIs(after, Of(q));
  }

  /** Dropping inputs from a queue, without touching the rest, keeps the order of the rest. */
  lemma {:induction false} DropHead(items: seq<Item>, after: seq<Item>, f: Filter)
    requires Order(items, f) != []
    requires |after| == |items| && !f.Picks(after[Order(items, f)[0]])
    requires forall k :: 0 <= k < |items| && k != Order(items, f)[0] ==> after[k] == items[k]
    ensures Order(after, f) == Order(items, f)[1..]
  {
    var order := Order(items, f);
    OrderIs(items, f);
    hide Order;
    var rest := order[1..];
    forall k: nat ensures k in rest <==> k in order && k != order[0] {
      RestOf(items, order, k);
    }
    forall i, j | 0 <= i < j < |rest| ensures Before(after, rest[i], rest[j]) {
      assert rest[i] in rest && rest[j] in rest;
      assert Before(items, order[i + 1], order[j + 1]);
    }
    assert IsOrder(after, f, rest);
    OrderIs(after, f);
  }

  /** Consuming serves the input that has waited longest, and no other queue is touched. */
  lemma {:induction false} ConsumePops(t: Table, r: nat, sequence: nat)
    requires ClaimNext(t.items, r).Some? && SequenceFree(t.messages, sequence)
    ensures Order(Consume(t, r, sequence).items, Of(r)) == Order(t.items, Of(r))[1..]
    ensures forall q :: q != r ==> Order(Consume(t, r, sequence).items, Of(q)) == Order(t.items, Of(q))
  {
    OrderIs(t.items, Of(r));
    var k, after := ClaimNext(t.items, r).value, Consume(t, r, sequence).items;
    assert k in Order(t.items, Of(r));
    DropHead(t.items, after, Of(r));
    forall q | q != r ensures Order(after, Of(q)) == Order(t.items, Of(q)) {
      SameQueue(t.items, after, Of(q));
    }
  }

  lemma {:induction false} SameQueue(items: seq<Item>, after: seq<Item>, f: Filter)
    requires |after| == |items|
    requires forall k :: 0 <= k < |items| ==> (f.Picks(after[k]) <==> f.Picks(items[k]))
    requires forall k :: 0 <= k < |items| && f.Picks(items[k]) ==> after[k].position == items[k].position
    ensures Order(after, f) == Order(items, f)
  {
    OrderIs(items, f);
    OrderIs(after, f);
    hide Order;
    assert IsOrder(after, f, Order(items, f));
  }

  lemma {:induction false} PlaceIs(items: seq<Item>, order: seq<nat>, run: Option<nat>, i: nat)
    requires Ids(items, order) && i <= |order| && NoRepeats(order)
    ensures forall k :: 0 <= k < |items| && k !in order[i..] ==> Place(items, order, run, i)[k] == items[k]
    ensures forall j :: i <= j < |order| ==> (Place(items, order, run, i)[order[j]] ==
      items[order[j]].(run := if run.Some? then run.value else items[order[j]].run, position := j + 1))
    decreases |order| - i
  {
    if i < |order| {
      var item := items[order[i]];
      var next := items[order[i] := item.(run := if run.Some? then run.value else item.run, position := i + 1)];
      PlaceIs(next, order, run, i + 1);
      assert order[i..] == [order[i]] + order[i + 1..];
      assert order[i] !in order[i + 1..];
    }
  }

  lemma {:induction false} SortedHasNoRepeats(items: seq<Item>, order: seq<nat>)
    requires Ids(items, order) && Sorted(items, order)
    ensures NoRepeats(order)
  {
    forall i, j | 0 <= i < j < |order| ensures order[i] != order[j] {
      assert Before(items, order[i], order[j]);
    }
  }

  /** Adoption puts the leftovers before everything the new run has queued exactly when no input
      of the new run holds a position the leftovers will take. */
  lemma {:induction false} AdoptOrder(items: seq<Item>, r: nat)
    ensures
      var left, mine := Order(items, NotOf(r)), Order(items, Of(r));
      Order(Adopt(items, r), Of(r)) == left + mine <==>
      left == [] || forall k ::
        k in mine ==> |left| < items[k].position || (|left| == items[k].position && left[|left| - 1] < k)
  {
    var left, mine, after := Order(items, NotOf(r)), Order(items, Of(r)), Adopt(items, r);
    AdoptFacts(items, r);
    hide Order, Adopt;
    var want := left + mine;
    assert Ids(after, want);
    SortedJoin(items, after, left, mine);
    if left != [] {
      assert after[left[|left| - 1]].position == |left|;
      assert forall k :: k in mine ==> (Before(after, left[|left| - 1], k) <==>
        |left| < items[k].position || (|left| == items[k].position && left[|left| - 1] < k));
    }
    hide Sorted;
    assert IsOrder(after, Of(r), want) <==> Sorted(after, want);
    OrderIs(after, Of(r));
  }

  lemma {:induction false} SortedJoin(items: seq<Item>, after: seq<Item>, left: seq<nat>, mine: seq<nat>)
    requires |after| == |items| && Ids(items, left) && Ids(items, mine) && Ids(after, left + mine)
    requires Sorted(items, mine)
    requires forall i :: 0 <= i < |left| ==> after[left[i]].position == i + 1
    requires forall i :: 0 <= i < |mine| ==> after[mine[i]] == items[mine[i]]
    ensures Sorted(after, left + mine) <==> left == [] || forall k :: k in mine ==> Before(after, left[|left| - 1], k)
  {
    if left == [] {
      NothingBefore(items, after, mine);
      hide Sorted, Before;
      assert [] + mine == mine;
    } else if forall k :: k in mine ==> Before(after, left[|left| - 1], k) {
      AllBefore(items, after, left, mine);
      hide Sorted, Before;
    } else {
      hide Before;
      var j :| 0 <= j < |mine| && !Before(after, left[|left| - 1], mine[j]);
      assert (left + mine)[|left| - 1] == left[|left| - 1] && (left + mine)[|left| + j] == mine[j];
    }
  }

  lemma {:induction false} NothingBefore(items: seq<Item>, after: seq<Item>, mine: seq<nat>)
    requires |after| == |items| && Ids(items, mine) && Ids(after, mine) && Sorted(items, mine)
    requires forall i :: 0 <= i < |mine| ==> after[mine[i]] == items[mine[i]]
    ensures Sorted(after, mine)
  {
    forall i, j | 0 <= i < j < |mine| ensures Before(after, mine[i], mine[j]) {
      assert Before(items, mine[i], mine[j]);
    }
  }

  lemma {:induction false} AdoptFacts(items: seq<Item>, r: nat)
    ensures
      var left, mine, after := Order(items, NotOf(r)), Order(items, Of(r)), Adopt(items, r);
      && |after| == |items| && Ids(items, left) && Ids(items, mine) && Sorted(items, mine)
      && (forall k: nat :: k in left + mine <==> k < |after| && Of(r).Picks(after[k]))
      && (forall i :: 0 <= i < |left| ==> after[left[i]].position == i + 1)
      && (forall i :: 0 <= i < |mine| ==> after[mine[i]] == items[mine[i]])
      && (forall k :: k in mine ==> after[k] == items[k])
      && (forall k :: 0 <= k < |after| ==> !NotOf(r).Picks(after[k]))
  {
    var left, mine, after := Order(items, NotOf(r)), Order(items, Of(r)), Adopt(items, r);
    OrderIs(items, NotOf(r));
    OrderIs(items, Of(r));
    SortedHasNoRepeats(items, left);
    PlaceIs(items, left, Some(r), 0);
    assert left[0..] == left;
    hide Order, Place, Sorted;
    assert forall i :: 0 <= i < |mine| ==> mine[i] in mine;
  }

  lemma {:induction false} AllBefore(items: seq<Item>, after: seq<Item>, left: seq<nat>, mine: seq<nat>)
    requires |after| == |items| && Ids(items, left) && Ids(items, mine) && left != []
    requires Sorted(items, mine)
    requires forall i :: 0 <= i < |left| ==> after[left[i]].position == i + 1
    requires forall i :: 0 <= i < |mine| ==> after[mine[i]] == items[mine[i]]
    requires forall k :: k in mine ==> Before(after, left[|left| - 1], k)
    ensures Ids(after, left + mine) && Sorted(after, left + mine)
  {
    var want := left + mine;
    forall i, j | 0 <= i < j < |want| ensures Before(after, want[i], want[j]) {
      if i >= |left| {
        assert Before(items, mine[i - |left|], mine[j - |left|]);
      } else if j >= |left| {
        assert want[j] in mine;
        assert Before(after, left[|left| - 1], want[j]);
      }
    }
  }

  /** As a run's first step, adoption makes the leftovers its queue, in the order they waited. */
  lemma {:induction false} AdoptFirst(items: seq<Item>, r: nat)
    requires Order(items, Of(r)) == []
    ensures Order(Adopt(items, r), Of(r)) == Order(items, NotOf(r))
    ensures Order(Adopt(items, r), NotOf(r)) == []
  {
    AdoptOrder(items, r);
    AdoptFacts(items, r);
    var left, after := Order(items, NotOf(r)), Adopt(items, r);
    assert left + [] == left;
    OrderIs(after, NotOf(r));
    hide Order, Adopt;
    assert IsOrder(after, NotOf(r), []);
  }

  /** A reordering is accepted exactly when it is a permutation of the queued inputs, and then
      it is the order of service. */
  lemma {:induction false} ReorderIs(items: seq<Item>, ids: seq<nat>)
    ensures Reorder(items, ids).Some? <==> multiset(ids) == multiset(Order(items, All))
    ensures Reorder(items, ids).Some? ==> Order(Reorder(items, ids).value, All) == ids
  {
    var order := Order(items, All);
    OrderIs(items, All);
    SortedHasNoRepeats(items, order);
    hide Order, Place, Sorted;
    if multiset(ids) == multiset(order) {
      SameBag(ids, order);
      assert Reorderable(items, ids);
    }
    if Reorderable(items, ids) {
      BagOfDistinct(ids);
      BagOfDistinct(order);
      assert forall k: nat :: k in ids <==> k in order;
      assert multiset(ids) == multiset(order);
      ReorderPlaces(items, ids);
    }
  }

  lemma {:induction false} ReorderPlaces(items: seq<Item>, ids: seq<nat>)
    requires Reorderable(items, ids)
    ensures Order(Reorder(items, ids).value, All) == ids
  {
    var after := Reorder(items, ids).value;
    assert forall i :: 0 <= i < |ids| ==> ids[i] in ids;
    PlaceIs(items, ids, None, 0);
    assert ids[0..] == ids;
    OrderIs(after, All);
    hide Order, Place;
    assert IsOrder(after, All, ids);
  }

  lemma {:induction false} BagOfDistinct(ids: seq<nat>)
    requires NoRepeats(ids)
    ensures forall k :: multiset(ids)[k] == if k in ids then 1 else 0
  {
    if ids != [] {
      var n := |ids| - 1;
      BagOfDistinct(ids[..n]);
      assert ids == ids[..n] + [ids[n]];
    }
  }

  lemma {:induction false} SameBag(a: seq<nat>, b: seq<nat>)
    requires multiset(a) == multiset(b) && NoRepeats(b)
    ensures NoRepeats(a) && forall k :: k in a <==> k in b
  {
    BagOfDistinct(b);
    forall k ensures k in a <==> k in b {
      assert k in a <==> multiset(a)[k] > 0;
    }
    forall i, j | 0 <= i < j < |a| ensures a[i] != a[j] {
      assert a == a[..i] + [a[i]] + a[i + 1..j] + [a[j]] + a[j + 1..];
      assert multiset(a)[a[i]] >= 1;
    }
  }

  /** Adopting late can serve a newer input between two leftovers. */
  lemma {:induction false} LateAdoptionMixes()
    ensures
      var items := [Item(0, "first", 1, Queued, None), Item(0, "second", 2, Queued, None),
        Item(1, "newer", 1, Queued, None)];
      Order(items, NotOf(1)) == [0, 1] && Order(items, Of(1)) == [2] && Order(Adopt(items, 1), Of(1)) != [0, 1, 2]
  {
    hide Order, Adopt;
    var items := [Item(0, "first", 1, Queued, None), Item(0, "second", 2, Queued, None),
      Item(1, "newer", 1, Queued, None)];
    OrderIs(items, NotOf(1));
    OrderIs(items, Of(1));
    assert IsOrder(items, NotOf(1), [0, 1]) && IsOrder(items, Of(1), [2]);
    var mine: seq<nat> := [2];
    assert [0, 1] + mine == [0, 1, 2] && 2 in mine;
    AdoptOrder(items, 1);
  }

  // ----- exactly once -----

  datatype Action =
    | Send(run: nat, content: string)
    | TakeOver(run: nat)
    | Serve(run: nat, sequence: nat)
    | Retry(id: nat, sequence: nat)
    | DropAll(run: nat)
    | Edit(id: nat, content: string)
    | Delete(id: nat)
    | Arrange(ids: seq<nat>)
    | Post(run: nat, text: string, sequence: nat)

  predicate Editable(items: seq<Item>, k: nat) { k < |items| && items[k].status == Queued }

  function Step(t: Table, a: Action): Table {
    match a
    case Send(r, content) => t.(items := Enqueue(t.items, r, content))
    case TakeOver(r) => t.(items := Adopt(t.items, r))
    case Serve(r, sequence) => Consume(t, r, sequence)
    case Retry(k, sequence) =>
      if k < |t.items| && t.items[k].status == Consumed then ConsumeItem(t, k, sequence) else t
    case DropAll(r) => t.(items := SkipAll(t.items, r))
    case Edit(k, content) =>
      if Editable(t.items, k) then t.(items := t.items[k := t.items[k].(content := content)]) else t
    case Delete(k) =>
      if Editable(t.items, k) then t.(items := t.items[k := t.items[k].(status := Deleted)]) else t
    case Arrange(ids) =>
      var placed := Reorder(t.items, ids);
      if placed.Some? then t.(items := placed.value) else t
    case Post(r, text, sequence) =>
      if SequenceFree(t.messages, sequence) then t.(messages := t.messages + [Message(sequence, text, r, None)]) else t
  }

  function Run(t: Table, actions: seq<Action>): Table
    decreases |actions|
  {
    if actions == [] then t else Run(Step(t, actions[0]), actions[1..])
  }

  const EMPTY: Table := Table([], [])

  /** The message an input became, if any, carries its text; and no message is shared. */
  ghost predicate Inv(t: Table) {
    && (forall k :: 0 <= k < |t.items| ==> (t.items[k].status == Consumed <==> t.items[k].message.Some?))
    && (forall k :: 0 <= k < |t.items| && t.items[k].message.Some? ==> IsMessageOf(t, t.items[k].message.value, k))
    && (forall m :: 0 <= m < |t.messages| && t.messages[m].source.Some? ==>
          t.messages[m].source.value < |t.items| && t.items[t.messages[m].source.value].message == Some(m))
    && (forall m, n :: 0 <= m < n < |t.messages| ==> t.messages[m].sequence != t.messages[n].sequence)
  }

  predicate IsMessageOf(t: Table, m: nat, k: nat) {
    && m < |t.messages| && k < |t.items|
    && t.messages[m].source == Some(k) && t.messages[m].text == t.items[k].content &&
      t.messages[m].run == t.items[k].run
  }

  /** Only queued inputs were touched, and only in where they stand. */
  predicate Moved(items: seq<Item>, after: seq<Item>) {
    && |after| == |items|
    && forall k :: 0 <= k < |items| ==>
         && (items[k].status != Queued ==> after[k] == items[k])
         && after[k].status == items[k].status && after[k].content == items[k].content &&
           after[k].message == items[k].message
  }

  lemma {:induction false} PlaceMoves(items: seq<Item>, order: seq<nat>, run: Option<nat>)
    requires Ids(items, order) && NoRepeats(order) && forall k :: k in order ==> items[k].status == Queued
    ensures Moved(items, Place(items, order, run, 0))
  {
    PlaceIs(items, order, run, 0);
    assert order[0..] == order;
    var after := Place(items, order, run, 0);
    forall k: nat | k < |items|
      ensures k !in order ==> after[k] == items[k]
      ensures k in order ==> after[k].status == items[k].status
      ensures k in order ==> after[k].content == items[k].content && after[k].message == items[k].message
    {
      if k in order {
        var j :| 0 <= j < |order| && order[j] == k;
      }
    }
    hide Place;
  }

  lemma {:induction false} AdoptMoves(items: seq<Item>, r: nat)
    ensures Moved(items, Adopt(items, r))
  {
    var left := Order(items, NotOf(r));
    OrderIs(items, NotOf(r));
    SortedHasNoRepeats(items, left);
    hide Order, Sorted;
    PlaceMoves(items, left, Some(r));
  }

  lemma {:induction false} ArrangeMoves(items: seq<Item>, ids: seq<nat>)
    requires Reorderable(items, ids)
    ensures Moved(items, Reorder(items, ids).value)
  {
    assert forall i :: 0 <= i < |ids| ==> ids[i] in ids;
    PlaceMoves(items, ids, None);
  }

  /** What any one step may do. Inputs leave the queue once and never change afterwards, and
      messages are only added. */
  predicate Follows(t: Table, next: Table) {
    && |t.items| <= |next.items| && t.messages <= next.messages
    && forall k :: 0 <= k < |t.items| && t.items[k].status != Queued ==> next.items[k] == t.items[k]
  }

  lemma {:induction false} ServeIs(t: Table, r: nat, sequence: nat)
    requires Inv(t)
    ensures Inv(Consume(t, r, sequence)) && Follows(t, Consume(t, r, sequence))
  {
    OrderIs(t.items, Of(r));
    var head := ClaimNext(t.items, r);
    if head.Some? {
      assert head.value in Order(t.items, Of(r));
      hide Order;
    }
  }

  lemma {:induction false} StepIs(t: Table, a: Action)
    requires Inv(t)
    ensures Inv(Step(t, a)) && Follows(t, Step(t, a))
  {
    hide Order, Place, Reorderable;
    match a {
      case TakeOver(r) => AdoptMoves(t.items, r); hide Adopt;
      case Arrange(ids) => if Reorderable(t.items, ids) { ArrangeMoves(t.items, ids); } hide Reorder;
      case Serve(r, sequence) => ServeIs(t, r, sequence); hide Consume, Inv, Follows;
      case _ => PlainStepIs(t, a); hide Step, Inv, Follows;
    }
  }

  lemma {:induction false} PlainStepIs(t: Table, a: Action)
    requires Inv(t) && !a.TakeOver? && !a.Arrange? && !a.Serve?
    ensures Inv(Step(t, a)) && Follows(t, Step(t, a))
  {
    hide Order, Place, Reorderable, NextPosition, Adopt, Reorder, Consume;
    hide ConsumeItem, SkipAll;
    match a {
      case Retry(k, sequence) => RetryIs(t, k, sequence);
      case DropAll(r) => DropIs(t, r);
      case _ =>
    }
  }

  lemma {:induction false} RetryIs(t: Table, k: nat, sequence: nat)
    requires Inv(t)
    ensures Inv(Step(t, Retry(k, sequence))) && Follows(t, Step(t, Retry(k, sequence)))
  {
  }

  lemma {:induction false} DropIs(t: Table, r: nat)
    requires Inv(t)
    ensures Inv(Step(t, DropAll(r))) && Follows(t, Step(t, DropAll(r)))
  {
  }

  lemma {:induction false} RunIs(t: Table, actions: seq<Action>)
    requires Inv(t)
    ensures Inv(Run(t, actions)) && Follows(t, Run(t, actions))
    decreases |actions|
  {
    if actions != [] {
      hide Step, Inv;
      StepIs(t, actions[0]);
      RunIs(Step(t, actions[0]), actions[1..]);
    }
  }

  /** Whatever is sent, served, retried, dropped and rearranged: a consumed input owns exactly
      one message, which has its text; no other input owns any. */
  lemma {:induction false} HandledOnce(actions: seq<Action>, k: nat)
    requires k < |Run(EMPTY, actions).items|
    ensures
      var t := Run(EMPTY, actions);
      if t.items[k].status == Consumed
      then exists m :: IsMessageOf(t, m, k) && forall n ::
        0 <= n < |t.messages| && t.messages[n].source == Some(k) ==> n == m
      else forall n :: 0 <= n < |t.messages| ==> t.messages[n].source != Some(k)
  {
    RunIs(EMPTY, actions);
    var t := Run(EMPTY, actions);
    hide Run;
    if t.items[k].status == Consumed {
      assert IsMessageOf(t, t.items[k].message.value, k);
    }
  }

  /** Leaving the queue is final, and a second consumption is no step at all. */
  lemma {:induction false} LeavingIsFinal(before: seq<Action>, later: seq<Action>, k: nat, sequence: nat)
    requires k < |Run(EMPTY, before).items| && Run(EMPTY, before).items[k].status != Queued
    ensures
      var t := Run(EMPTY, before);
      k < |Run(t, later).items| && Run(t, later).items[k] == t.items[k] &&
      (t.items[k].status == Consumed ==> ConsumeItem(t, k, sequence) == t)
  {
    RunIs(EMPTY, before);
    RunIs(Run(EMPTY, before), later);
  }

  // ----- what each step does to the queues -----

  /** Another message is written exactly if its place in the session is free, and no input changes. */
  lemma {:induction false} PostIs(t: Table, r: nat, text: string, sequence: nat)
    ensures
      var next := Step(t, Post(r, text, sequence));
      if exists m :: 0 <= m < |t.messages| && t.messages[m].sequence == sequence then next == t
      else next.items == t.items && next.messages == t.messages + [Message(sequence, text, r, None)]
  {
  }

  /** Serving a run turns the head of its queue into a message with its text, and nothing else; with an
      empty queue or a taken number nothing happens. */
  lemma {:induction false} ServeTurnsHead(t: Table, r: nat, sequence: nat)
    requires Inv(t)
    ensures
      var order, next := Order(t.items, Of(r)), Step(t, Serve(r, sequence));
      if order == [] || exists m :: 0 <= m < |t.messages| && t.messages[m].sequence == sequence then next == t
      else
        var k := order[0];
        && k < |t.items| && next.messages == t.messages + [Message(sequence, t.items[k].content, r, Some(k))]
        && next.items == t.items[k := t.items[k].(status := Consumed, message := Some(|t.messages|))]
  {
    OrderIs(t.items, Of(r));
    var order := Order(t.items, Of(r));
    assert order != [] ==> order[0] in order;
    hide Order;
  }

  function Without(order: seq<nat>, k: nat): seq<nat> {
    if order == [] then [] else (if order[0] == k then [] else [order[0]]) + Without(order[1..], k)
  }

  lemma {:induction false} WithoutIs(order: seq<nat>, k: nat)
    ensures forall x :: x in Without(order, k) <==> x in order && x != k
  {
    if order != [] {
      WithoutIs(order[1..], k);
      assert order == [order[0]] + order[1..];
    }
  }

  lemma {:induction false} WithoutIsSorted(items: seq<Item>, after: seq<Item>, order: seq<nat>, k: nat)
    requires |after| == |items| && Ids(items, order) && Sorted(items, order)
    requires forall x :: x in order && x != k ==> after[x] == items[x]
    ensures Ids(after, Without(order, k)) && Sorted(after, Without(order, k))
  {
    WithoutIs(order, k);
    var rest := Without(order, k);
    assert forall i :: 0 <= i < |rest| ==> rest[i] in rest;
    if order != [] {
      var tail := order[1..];
      assert order == [order[0]] + tail;
      assert Sorted(items, tail) by {
        forall i, j | 0 <= i < j < |tail| ensures Before(items, tail[i], tail[j]) {
          assert Before(items, order[i + 1], order[j + 1]);
        }
      }
      WithoutIsSorted(items, after, tail, k);
      WithoutIs(tail, k);
      forall x | x in Without(tail, k) && order[0] != k ensures Before(after, order[0], x) {
        var j :| 0 <= j < |tail| && tail[j] == x;
        assert Before(items, order[0], order[j + 1]);
      }
    }
  }

  /** Deleting a queued input takes it out of every queue and keeps the order of the rest. */
  lemma {:induction false} DeleteTakesOut(t: Table, k: nat, f: Filter)
    requires k < |t.items| && t.items[k].status == Queued
    ensures
      var next := Step(t, Delete(k));
      && next == t.(items := t.items[k := t.items[k].(status := Deleted)])
      && Order(next.items, f) == Without(Order(t.items, f), k)
  {
    var after, order := Step(t, Delete(k)).items, Order(t.items, f);
    OrderIs(t.items, f);
    WithoutIsSorted(t.items, after, order, k);
    WithoutIs(order, k);
    OrderIs(after, f);
    hide Order, Sorted, Without;
    assert IsOrder(after, f, Without(order, k));
  }

  /** Editing a queued input changes its text and nothing else. */
  lemma {:induction false} EditChangesText(t: Table, k: nat, content: string, f: Filter)
    requires k < |t.items| && t.items[k].status == Queued
    ensures
      var next := Step(t, Edit(k, content));
      && next == t.(items := t.items[k := t.items[k].(content := content)])
      && Order(next.items, f) == Order(t.items, f)
  {
    SameQueue(t.items, Step(t, Edit(k, content)).items, f);
    hide Order;
  }

  /** Ending a run empties its queue and no other. */
  lemma {:induction false} DropEmptiesQueue(t: Table, r: nat, q: nat)
    ensures Order(Step(t, DropAll(r)).items, Of(q)) == if q == r then [] else Order(t.items, Of(q))
  {
    var after := Step(t, DropAll(r)).items;
    if q == r {
      OrderIs(after, Of(q));
      hide Order;
      assert IsOrder(after, Of(q), []);
    } else {
      SameQueue(t.items, after, Of(q));
    }
  }

  // ----- the table, updated in place -----

  class Inputs {
    var items: seq<Item>
    var messages: seq<Message>

    constructor ()
      ensures View() == EMPTY
    {
      items, messages := [], [];
    }

    ghost function View(): Table
      reads this
    {
      Table(items, messages)
    }

    method EnqueueInput(r: nat, content: string) returns (id: nat)
      modifies this`items
      ensures items == Enqueue(old(items), r, content) && id == |old(items)|
    {
      var next := NextPosition(items, r);
      id := |items|;
      items := items + [Item(r, content, next, Queued, None)];
    }

    method AdoptLeftoverInputs(r: nat)
      modifies this`items
      ensures items == Adopt(old(items), r)
    {
      var leftovers := Order(items, NotOf(r));
      hide Order;
      for index := 0 to |leftovers|
        invariant Ids(items, leftovers)
        invariant Place(items, leftovers, Some(r), index) == Adopt(old(items), r)
      {
        var k := leftovers[index];
        items := items[k := items[k].(run := r, position := index + 1)];
      }
    }

    method ConsumeQueuedInput(k: nat, sequence: nat)
      requires k < |items|
      modifies this
      ensures View() == ConsumeItem(old(View()), k, sequence)
    {
      var item := items[k];
      if !NeedsConsumption(item) || !SequenceFree(messages, sequence) {
        return;
      }
      messages := messages + [Message(sequence, item.content, item.run, Some(k))];
      items := items[k := item.(status := Consumed, message := Some(|messages| - 1))];
    }

    method SkipQueuedInputs(r: nat)
      modifies this`items
      ensures items == SkipAll(old(items), r)
    {
      var queued := Order(items, Of(r));
      OrderIs(items, Of(r));
      SortedHasNoRepeats(items, queued);
      hide Order, Sorted;
      for i := 0 to |queued|
        invariant |items| == |old(items)|
        invariant forall k :: 0 <= k < |items| && k !in queued[..i] ==> items[k] == old(items)[k]
        invariant forall k :: k in queued[..i] ==> items[k] == old(items)[k].(status := Skipped)
      {
        var k := queued[i];
        assert queued[..i + 1] == queued[..i] + [k];
        items := items[k := items[k].(status := Skipped)];
      }
      assert queued[..|queued|] == queued;
      assert forall k: nat :: k in queued <==> k < |items| && Of(r).Picks(old(items)[k]);
    }

    method ReorderInputs(ids: seq<nat>) returns (ok: bool)
      modifies this`items
      ensures ok == Reorder(old(items), ids).Some?
      ensures items == if ok then Reorder(old(items), ids).value else old(items)
    {
      ok := Reorderable(items, ids);
      if ok {
        assert forall i :: 0 <= i < |ids| ==> ids[i] in ids;
        for index := 0 to |ids|
          invariant Ids(items, ids)
          invariant Place(items, ids, None, index) == Reorder(old(items), ids).value
        {
          items := items[ids[index] := items[ids[index]].(position := index + 1)];
        }
      }
    }
  }
}
