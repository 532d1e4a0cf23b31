/**
 * Text put together from deltas that are delivered at least once: a delta counts when its sequence
 * number is above the last one seen. Streamed messages and tool-call arguments are both such logs.
 */
module Dedup {

  datatype Log = Log(present: bool, text: string, last: nat)

  /** What one event does to a log: nothing, see a number, add a delta, or set the last number if the log exists. */
  datatype Op = Skip | Bump(num: nat) | Add(num: nat, delta: string) | Mark(num: nat)

  function Empty(): Log { Log(false, "", 0) }

  function Max(a: nat, b: nat): nat { if a < b then b else a }

  function Do(l: Log, op: Op): Log {
    match op
    case Skip => l
    case Bump(q) => Log(true, l.text, Max(l.last, q))
    case Add(q, delta) => if q > l.last then Log(true, l.text + delta, q) else l.(present := true)
    case Mark(q) => if l.present then l.(last := q) else l
  }

  /** The same, for an event that may also bring the log into being for reasons of its own. */
  function DoAndOpen(l: Log, op: Op, open: bool): Log {
    var m := Do(l, op);
    m.(present := m.present || open)
  }

  /** All deltas in order: what the text should be. */
  function Deltas(ops: seq<Op>): string {
    if ops == [] then "" else
    Deltas(ops[..|ops| - 1]) + match ops[|ops| - 1] case Add(_, delta) => delta case _ => ""
  }

  // ---- Deliveries ----

  /** How far a delivery has come: one more than the highest index delivered. */
  function Front(d: seq<nat>): nat {
    if d == [] then 0 else Max(Front(d[..|d| - 1]), d[|d| - 1] + 1)
  }

  /** First deliveries come in order; whatever was delivered may come again, any number of times, at any time. */
  ghost predicate Delivery(n: nat, d: seq<nat>) {
    forall i :: 0 <= i < |d| ==> d[i] < n && d[i] <= Front(d[..i])
  }

  /** The log after a delivery; opens says after which events the log is brought into being in any case. */
  function Deliver(ops: seq<Op>, d: seq<nat>, opens: seq<bool>): Log
    requires |opens| == |d| && forall i :: 0 <= i < |d| ==> d[i] < |ops|
  {
    if d == [] then Empty()
    else DoAndOpen(Deliver(ops, d[..|d| - 1], opens[..|d| - 1]), ops[d[|d| - 1]], opens[|d| - 1])
  }

  predicate Numbered(op: Op) { op.Bump? || op.Add? || op.Mark? }

  predicate Adds(op: Op) { op.Add? && op.delta != "" }

  /** Numbers are positive and increase along the stream. */
  predicate Ordered(ops: seq<Op>) {
    && (forall i :: 0 <= i < |ops| && Numbered(ops[i]) ==> ops[i].num > 0)
    && (forall i, j :: 0 <= i < j < |ops| && Numbered(ops[i]) && Numbered(ops[j]) ==> ops[i].num < ops[j].num)
  }

  /** Nothing is added after a mark. */
  predicate MarkIsLast(ops: seq<Op>) {
    forall i, j :: 0 <= i < j < |ops| && ops[i].Mark? ==> !Adds(ops[j])
  }

  /** The last number lies between the numbers seen and those to come. */
  predicate Behind(l: Log, ops: seq<Op>, front: nat)
    requires front <= |ops|
  {
    && (forall i :: front <= i < |ops| && Numbered(ops[i]) ==> l.last < ops[i].num)
    && (l.present || l.text == "")
  }

  predicate Ahead(l: Log, ops: seq<Op>, front: nat)
    requires front <= |ops|
  {
    forall i :: 0 <= i < front && Adds(ops[i]) ==> ops[i].num <= l.last && l.present
  }

  lemma FrontBounds(n: nat, d: seq<nat>)
    requires Delivery(n, d)
    ensures Front(d) <= n
    ensures d != [] ==> Delivery(n, d[..|d| - 1]) && d[|d| - 1] <= Front(d[..|d| - 1])
  {
    if d != [] {
      var c := d[..|d| - 1];
      forall i | 0 <= i < |c| ensures c[i] < n && c[i] <= Front(c[..i]) {
        assert c[..i] == d[..i];
      }
      FrontBounds(n, c);
    }
  }

  lemma DeltasSnoc(ops: seq<Op>, n: nat)
    requires n < |ops|
    ensures Deltas(ops[..n + 1]) == Deltas(ops[..n]) + if ops[n].Add? then ops[n].delta else ""
  {
    assert ops[..n + 1][..n] == ops[..n];
  }

  /** One first delivery. */
  lemma NextIsAdded(l: Log, ops: seq<Op>, n: nat, open: bool)
    requires Ordered(ops) && n < |ops| && Behind(l, ops, n) && l.text == Deltas(ops[..n])
    ensures var m := DoAndOpen(l, ops[n], open); Behind(m, ops, n + 1) && m.text == Deltas(ops[..n + 1])
    ensures MarkIsLast(ops) && Ahead(l, ops, n) ==> Ahead(DoAndOpen(l, ops[n], open), ops, n + 1)
  {
    DeltasSnoc(ops, n);
  }

  /** One redelivery. */
  lemma OldIsIgnored(l: Log, ops: seq<Op>, n: nat, front: nat, open: bool)
    requires Ordered(ops) && MarkIsLast(ops) && n < front <= |ops| && Behind(l, ops, front) && Ahead(l, ops, front)
    ensures var m := DoAndOpen(l, ops[n], open); Behind(m, ops, front) && Ahead(m, ops, front) && m.text == l.text
  {
  }

  lemma {:induction false} DeliveryIsExact(ops: seq<Op>, d: seq<nat>, opens: seq<bool>)
    requires Ordered(ops) && MarkIsLast(ops) && Delivery(|ops|, d) && |opens| == |d|
    ensures Front(d) <= |ops|
    ensures var l := Deliver(ops, d, opens);
      l.text == Deltas(ops[..Front(d)]) && Behind(l, ops, Front(d)) && Ahead(l, ops, Front(d))
  {
    FrontBounds(|ops|, d);
    if d == [] {
    } else {
      var c, n, o := d[..|d| - 1], d[|d| - 1], opens[..|d| - 1];
      DeliveryIsExact(ops, c, o);
      var l := Deliver(ops, c, o);
      if n == Front(c) {
        NextIsAdded(l, ops, n, opens[|d| - 1]);
      } else {
        OldIsIgnored(l, ops, n, Front(c), opens[|d| - 1]);
      }
    }
  }

  /** The delivery of the first n events, once each. */
  function FirstOnly(n: nat): (d: seq<nat>)
    ensures |d| == n && forall i :: 0 <= i < n ==> d[i] == i
  {
    if n == 0 then [] else FirstOnly(n - 1) + [n - 1]
  }

  /** There is a delivery that has come to any given point. */
  lemma {:induction false} DeliveryUpTo(n: nat, m: nat) returns (d: seq<nat>)
    requires m <= n
    ensures Delivery(n, d) && Front(d) == m
  {
    if m == 0 {
      d := [];
    } else {
      d := DeliveryUpTo(n, m - 1);
      DeliverySnoc(n, d, m - 1);
      d := d + [m - 1];
    }
  }

  lemma {:induction false} InOrderIsExact(ops: seq<Op>, n: nat, opens: seq<bool>)
    requires Ordered(ops) && n <= |ops| && |opens| == n
    ensures Delivery(|ops|, FirstOnly(n)) && Front(FirstOnly(n)) == n
    ensures var l := Deliver(ops, FirstOnly(n), opens); l.text == Deltas(ops[..n]) && Behind(l, ops, n)
  {
    if n == 0 {
    } else {
      InOrderIsExact(ops, n - 1, opens[..n - 1]);
      DeliverySnoc(|ops|, FirstOnly(n - 1), n - 1);
      NextIsAdded(Deliver(ops, FirstOnly(n - 1), opens[..n - 1]), ops, n - 1, opens[n - 1]);
    }
  }

  lemma DeliverySnoc(n: nat, d: seq<nat>, i: nat)
    requires Delivery(n, d) && i < n && i <= Front(d)
    ensures Delivery(n, d + [i]) && Front(d + [i]) == Max(Front(d), i + 1) && (d + [i])[..|d|] == d
  {
    var e := d + [i];
    assert e[..|e| - 1] == d;
    forall j | 0 <= j < |e| ensures e[j] < n && e[j] <= Front(e[..j]) {
      if j < |d| { assert e[..j] == d[..j]; }
    }
  }

  lemma DeliverSnoc(ops: seq<Op>, d: seq<nat>, i: nat, opens: seq<bool>)
    requires i < |ops| && |opens| == |d| + 1 && forall k :: 0 <= k < |d| ==> d[k] < |ops|
    ensures Deliver(ops, d + [i], opens) == DoAndOpen(Deliver(ops, d, opens[..|d|]), ops[i], opens[|d|])
  {
    assert (d + [i])[..|d|] == d;
  }

  /** The first deliveries up to j, then i and j once more. */
  function Again(i: nat, j: nat): (d: seq<nat>)
    ensures |d| == j + 3
  {
    FirstOnly(j + 1) + [i] + [j]
  }

  lemma AgainIsDelivery(n: nat, i: nat, j: nat)
    requires i < j < n && Delivery(n, FirstOnly(j + 1)) && Front(FirstOnly(j + 1)) == j + 1
    ensures Delivery(n, Again(i, j)) && Front(Again(i, j)) == j + 1
  {
    DeliverySnoc(n, FirstOnly(j + 1), i);
    DeliverySnoc(n, FirstOnly(j + 1) + [i], j);
  }

  lemma DeliverTwo(ops: seq<Op>, d: seq<nat>, i: nat, j: nat, opens: seq<bool>)
    requires i < |ops| && j < |ops| && |opens| == |d| + 2 && forall k :: 0 <= k < |d| ==> d[k] < |ops|
    ensures Deliver(ops, d + [i] + [j], opens)
         == DoAndOpen(DoAndOpen(Deliver(ops, d, opens[..|d|]), ops[i], opens[|d|]), ops[j], opens[|d| + 1])
  {
    DeliverSnoc(ops, d, i, opens[..|d| + 1]);
    DeliverSnoc(ops, d + [i], j, opens);
    assert opens[..|d| + 1][..|d|] == opens[..|d|];
  }

  lemma AddedIsPresent(ops: seq<Op>, j: nat, opens: seq<bool>)
    requires j < |ops| && Adds(ops[j]) && |opens| == j + 1
    ensures Deliver(ops, FirstOnly(j + 1), opens).present
  {
    DeliverSnoc(ops, FirstOnly(j), j, opens);
  }

  /** Seen again, a mark sets the last number back, so that the later delta is added once more. */
  lemma AddedOnceMore(ops: seq<Op>, d: seq<nat>, i: nat, j: nat, opens: seq<bool>)
    requires Ordered(ops) && i < j < |ops| && ops[i].Mark? && Adds(ops[j])
    requires |opens| == |d| + 2 && (forall k :: 0 <= k < |d| ==> d[k] < |ops|) && Deliver(ops, d, opens[..|d|]).present
    ensures Deliver(ops, d + [i] + [j], opens).text == Deliver(ops, d, opens[..|d|]).text + ops[j].delta
  {
    DeliverTwo(ops, d, i, j, opens);
  }

  /** After a mark is delivered again, a later delta that comes again is added twice. */
  lemma MarkedTwice(ops: seq<Op>, i: nat, j: nat, opens: seq<bool>)
    requires Ordered(ops) && i < j < |ops| && ops[i].Mark? && Adds(ops[j]) && |opens| == j + 3
    ensures Delivery(|ops|, Again(i, j)) && Front(Again(i, j)) == j + 1
    ensures Deliver(ops, Again(i, j), opens).text == Deltas(ops[..j + 1]) + ops[j].delta
  {
    InOrderIsExact(ops, j + 1, opens[..j + 1]);
    AddedIsPresent(ops, j, opens[..j + 1]);
    AgainIsDelivery(|ops|, i, j);
    AddedOnceMore(ops, FirstOnly(j + 1), i, j, opens);
  }

  ghost predicate Inexact(ops: seq<Op>, d: seq<nat>, opens: seq<bool>)
    requires |opens| == |d| && forall i :: 0 <= i < |d| ==> d[i] < |ops|
  {
    Front(d) <= |ops| && Deliver(ops, d, opens).text != Deltas(ops[..Front(d)])
  }

  /** So the text is wrong after some delivery, whatever else brings the log into being. */
  lemma InexactDelivery(ops: seq<Op>, i: nat, j: nat) returns (d: seq<nat>)
    requires Ordered(ops) && i < j < |ops| && ops[i].Mark? && Adds(ops[j])
    ensures Delivery(|ops|, d) && forall opens: seq<bool> :: |opens| == |d| ==> Inexact(ops, d, opens)
  {
    d := Again(i, j);
    MarkedTwice(ops, i, j, seq(j + 3, _ => false));
    forall opens: seq<bool> | |opens| == |d| ensures Inexact(ops, d, opens) { MarkedTwice(ops, i, j, opens); }
  }
}
