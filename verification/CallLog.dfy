/**
 * The arguments of one tool call under at-least-once delivery. A call is opened by its first event, named by a
 * start or a named chunk, and forgotten at its end; each end, and each chunk of a named call, stores the
 * arguments as they stand. Deliveries are those of module Dedup.
 */
module CallLog {
  import opened Wrappers
  import opened Dedup

  datatype CallOp = Other | Begin(num: nat) | Piece(num: nat, delta: string) | Chunk(num: nat, delta: string,
                                                                                     names: bool) | Finish

  datatype Call = Call(named: bool, text: string, last: nat)

  function Closed(): Call { Call(false, "", 0) }

  /** Numbered events carry a delta, or are starts. */
  predicate Adding(op: CallOp) { (op.Piece? || op.Chunk?) && op.delta != "" }

  predicate Counting(op: CallOp) { op.Begin? || Adding(op) }

  predicate Naming(op: CallOp) { op.Begin? || (op.Chunk? && op.names) }

  function DeltaOf(op: CallOp): string {
    if op.Piece? || op.Chunk? then op.delta else ""
  }

  function Extend(c: Call, num: nat, delta: string): Call {
    if delta != "" && num > c.last then Call(c.named, c.text + delta, num) else c
  }

  function Do(c: Call, op: CallOp): Call {
    match op
    case Other => c
    case Begin(num) => Call(true, c.text, Max(c.last, num))
    case Piece(num, delta) => Extend(c, num, delta)
    case Chunk(num, delta, names) => Extend(c, num, delta).(named := c.named || names)
    case Finish => if c.named then Closed() else c
  }

  /** The arguments that an event stores in the message of the call. */
  function Stores(c: Call, op: CallOp): Option<string> {
    if op.Finish? && c.named then Some(c.text)
    else if op.Chunk? && Do(c, op).named then Some(Do(c, op).text)
    else None
  }

  /** Numbers are positive and increase along the stream. */
  predicate InSequence(ops: seq<CallOp>) {
    && (forall i :: 0 <= i < |ops| && Counting(ops[i]) ==> ops[i].num > 0)
    && (forall i, j :: 0 <= i < j < |ops| && Counting(ops[i]) && Counting(ops[j]) ==> ops[i].num < ops[j].num)
  }

  predicate Within(d: seq<nat>, n: nat) { forall i :: 0 <= i < |d| ==> d[i] < n }

  function After(ops: seq<CallOp>, d: seq<nat>): Call
    requires Within(d, |ops|)
  {
    if d == [] then Closed() else Do(After(ops, d[..|d| - 1]), ops[d[|d| - 1]])
  }

  /** What was delivered since the call was last forgotten. */
  function Since(ops: seq<CallOp>, d: seq<nat>): (g: seq<nat>)
    requires Within(d, |ops|)
    ensures Within(g, |ops|)
  {
    if d == [] then []
    else if ops[d[|d| - 1]].Finish? && After(ops, d[..|d| - 1]).named then []
    else Since(ops, d[..|d| - 1]) + [d[|d| - 1]]
  }

  /** A call made up of the events in g, none of which ends it. */
  function Fold(ops: seq<CallOp>, g: seq<nat>): Call
    requires Within(g, |ops|)
  {
    if g == [] then Closed()
    else
      var c := Fold(ops, g[..|g| - 1]);
      if ops[g[|g| - 1]].Finish? then c else Do(c, ops[g[|g| - 1]])
  }

  lemma {:induction false} AfterIsFold(ops: seq<CallOp>, d: seq<nat>)
    requires Within(d, |ops|)
    ensures After(ops, d) == Fold(ops, Since(ops, d))
  {
    if d == [] {
    } else {
      var c, x := d[..|d| - 1], d[|d| - 1];
      AfterIsFold(ops, c);
      if ops[x].Finish? && After(ops, c).named {
      } else {
        assert (Since(ops, c) + [x])[..|Since(ops, c)|] == Since(ops, c);
      }
    }
  }

  // ---- Which deltas count ----

  /** All deltas of the first n events, in order: what the arguments should be. */
  function Total(ops: seq<CallOp>, n: nat): string
    requires n <= |ops|
  {
    if n == 0 then "" else Total(ops, n - 1) + DeltaOf(ops[n - 1])
  }

  /** Those of the first n events whose index is kept. */
  function Pick(ops: seq<CallOp>, n: nat, keep: set<nat>): string
    requires n <= |ops|
  {
    if n == 0 then "" else Pick(ops, n - 1, keep) + if n - 1 in keep then DeltaOf(ops[n - 1]) else ""
  }

  /** The deltas that were added, not ignored as old. */
  function Kept(ops: seq<CallOp>, g: seq<nat>): set<nat>
    requires Within(g, |ops|)
  {
    if g == [] then {}
    else
      var c, x := g[..|g| - 1], g[|g| - 1];
      Kept(ops, c) + if Adding(ops[x]) && ops[x].num > Fold(ops, c).last then {x} else {}
  }

  /** The last number is the highest one seen. */
  lemma {:induction false} LastIsHighest(ops: seq<CallOp>, g: seq<nat>, num: nat)
    requires Within(g, |ops|)
    ensures num > Fold(ops, g).last <==> num > 0 && forall q :: 0 <= q < |g| && Counting(ops[g[q]]) ==>
      ops[g[q]].num < num
  {
    if g == [] {
    } else {
      var c := g[..|g| - 1];
      LastIsHighest(ops, c, num);
      assert forall q :: 0 <= q < |c| ==> c[q] == g[q];
      assert forall q :: 0 <= q < |g| ==> q == |g| - 1 || g[q] == c[q];
    }
  }

  lemma {:induction false} PickIgnores(ops: seq<CallOp>, n: nat, keep: set<nat>, x: nat)
    requires n <= |ops| && n <= x
    ensures Pick(ops, n, keep + {x}) == Pick(ops, n, keep)
  {
    if n == 0 {
    } else {
      PickIgnores(ops, n - 1, keep, x);
    }
  }

  lemma {:induction false} PickInsert(ops: seq<CallOp>, n: nat, keep: set<nat>, x: nat)
    requires x < n <= |ops| && forall k :: k in keep ==> k < x
    ensures Pick(ops, n, keep + {x}) == Pick(ops, n, keep) + DeltaOf(ops[x])
  {
    if n - 1 == x {
      PickIgnores(ops, x, keep, x);
    } else {
      PickInsert(ops, n - 1, keep, x);
    }
  }

  lemma {:induction false} FoldIsPick(ops: seq<CallOp>, g: seq<nat>, n: nat)
    requires Within(g, n) && n <= |ops| && InSequence(ops)
    ensures Fold(ops, g).text == Pick(ops, n, Kept(ops, g))
    ensures forall k :: k in Kept(ops, g) ==> k < n && Adding(ops[k]) && ops[k].num <= Fold(ops, g).last
  {
    if g == [] {
      PickNothing(ops, n);
    } else {
      var c, x := g[..|g| - 1], g[|g| - 1];
      FoldIsPick(ops, c, n);
      if Adding(ops[x]) && ops[x].num > Fold(ops, c).last {
        forall k | k in Kept(ops, c) ensures k < x {}
        PickInsert(ops, n, Kept(ops, c), x);
      } else {
        assert Kept(ops, g) == Kept(ops, c);
      }
    }
  }

  lemma {:induction false} PickNothing(ops: seq<CallOp>, n: nat)
    requires n <= |ops|
    ensures Pick(ops, n, {}) == ""
  {
    if n == 0 {
    } else {
      PickNothing(ops, n - 1);
    }
  }

  ghost predicate AllKept(ops: seq<CallOp>, n: nat, keep: set<nat>)
    requires n <= |ops|
  {
    forall j :: 0 <= j < n && Adding(ops[j]) ==> j in keep
  }

  /** Nothing may be missing: the picked deltas are all of the text exactly when they are all deltas. */
  lemma {:induction false} PickIsTotalIff(ops: seq<CallOp>, n: nat, keep: set<nat>)
    requires n <= |ops|
    ensures |Pick(ops, n, keep)| <= |Total(ops, n)|
    ensures |Pick(ops, n, keep)| == |Total(ops, n)| <==> AllKept(ops, n, keep)
    ensures AllKept(ops, n, keep) ==> Pick(ops, n, keep) == Total(ops, n)
  {
    if n == 0 {
    } else {
      PickIsTotalIff(ops, n - 1, keep);
      assert AllKept(ops, n, keep) <==> AllKept(ops, n - 1, keep) && (Adding(ops[n - 1]) ==> n - 1 in keep);
    }
  }

  // ---- One delivery ----

  /** The delta comes ahead of everything numbered after it. */
  ghost predicate ComesInTime(ops: seq<CallOp>, g: seq<nat>, j: nat)
    requires Within(g, |ops|)
  {
    exists p :: 0 <= p < |g| && g[p] == j && NothingLater(ops, g, p, j)
  }

  predicate NothingLater(ops: seq<CallOp>, g: seq<nat>, p: nat, j: nat)
    requires Within(g, |ops|) && p <= |g|
  {
    forall q :: 0 <= q < p && Counting(ops[g[q]]) ==> g[q] < j
  }

  /** Every delta of the first n events comes, and in time. */
  ghost predicate Whole(ops: seq<CallOp>, g: seq<nat>, n: nat)
    requires Within(g, |ops|) && n <= |ops|
  {
    forall j :: 0 <= j < n && Adding(ops[j]) ==> ComesInTime(ops, g, j)
  }

  lemma ComesInTimeSnoc(ops: seq<CallOp>, c: seq<nat>, x: nat, j: nat)
    requires Within(c, |ops|) && x < |ops|
    ensures ComesInTime(ops, c + [x], j) <==> ComesInTime(ops, c, j) || (x == j && NothingLater(ops, c, |c|, j))
  {
    var g := c + [x];
    if ComesInTime(ops, c, j) {
      var p :| 0 <= p < |c| && c[p] == j && NothingLater(ops, c, p, j);
      assert g[p] == j && NothingLater(ops, g, p, j);
    }
    if x == j && NothingLater(ops, c, |c|, j) { assert g[|c|] == j && NothingLater(ops, g, |c|, j); }
    if ComesInTime(ops, g, j) {
      var p :| 0 <= p < |g| && g[p] == j && NothingLater(ops, g, p, j);
      assert forall q :: 0 <= q < |c| ==> g[q] == c[q];
      assert NothingLater(ops, c, p, j);
    }
  }

  lemma InTimeIsNew(ops: seq<CallOp>, c: seq<nat>, j: nat)
    requires Within(c, |ops|) && j < |ops| && InSequence(ops) && Adding(ops[j])
    ensures NothingLater(ops, c, |c|, j) <==> ops[j].num > Fold(ops, c).last
  {
    LastIsHighest(ops, c, ops[j].num);
  }

  lemma {:induction false} KeptIff(ops: seq<CallOp>, g: seq<nat>, j: nat)
    requires Within(g, |ops|) && j < |ops| && InSequence(ops) && Adding(ops[j])
    ensures j in Kept(ops, g) <==> ComesInTime(ops, g, j)
  {
    if g == [] {
    } else {
      var c, x := g[..|g| - 1], g[|g| - 1];
      KeptIff(ops, c, j);
      assert g == c + [x];
      ComesInTimeSnoc(ops, c, x, j);
      InTimeIsNew(ops, c, j);
    }
  }

  /** The arguments that g makes up are exact if and only if every delta so far comes in time. */
  lemma FoldIsExactIff(ops: seq<CallOp>, g: seq<nat>, n: nat)
    requires Within(g, n) && n <= |ops| && InSequence(ops)
    ensures Fold(ops, g).text == Total(ops, n) <==> Whole(ops, g, n)
  {
    FoldIsPick(ops, g, n);
    PickIsTotalIff(ops, n, Kept(ops, g));
    forall j | 0 <= j < n && Adding(ops[j]) ensures j in Kept(ops, g) <==>
      ComesInTime(ops, g, j) { KeptIff(ops, g, j); }
  }

  /** What the last event of a delivery stores, if it stores. */
  function StoredAt(ops: seq<CallOp>, d: seq<nat>): Option<string>
    requires Within(d, |ops|) && d != []
  {
    Stores(After(ops, d[..|d| - 1]), ops[d[|d| - 1]])
  }

  /** The events that made up what the last event of a delivery stores. */
  function Made(ops: seq<CallOp>, d: seq<nat>): (g: seq<nat>)
    requires Within(d, |ops|) && d != []
    ensures Within(g, |ops|)
  {
    var c, x := d[..|d| - 1], d[|d| - 1];
    if ops[x].Finish? then Since(ops, c) else Since(ops, c) + [x]
  }

  lemma {:induction false} BehindFront(d: seq<nat>, i: nat)
    requires i < |d|
    ensures d[i] < Front(d)
  {
    if i == |d| - 1 {
    } else {
      BehindFront(d[..|d| - 1], i);
    }
  }

  lemma {:induction false} SinceBehindFront(ops: seq<CallOp>, d: seq<nat>)
    requires Within(d, |ops|)
    ensures Within(Since(ops, d), Front(d))
  {
    if d == [] {
    } else {
      SinceBehindFront(ops, d[..|d| - 1]);
    }
  }

  lemma MadeIsDelivered(ops: seq<CallOp>, d: seq<nat>)
    requires Within(d, |ops|) && d != []
    ensures Within(Made(ops, d), Front(d))
  {
    var c, x := d[..|d| - 1], d[|d| - 1];
    var g := Since(ops, c);
    SinceBehindFront(ops, c);
    FrontGrows(d);
    forall i | 0 <= i < |Made(ops, d)| ensures Made(ops, d)[i] < Front(d) {
      assert i < |g| ==> Made(ops, d)[i] == g[i];
    }
  }

  lemma FrontGrows(d: seq<nat>)
    requires d != []
    ensures Front(d) >= Front(d[..|d| - 1]) && Front(d) > d[|d| - 1]
  {
  }

  lemma StoredIsFold(ops: seq<CallOp>, d: seq<nat>)
    requires Within(d, |ops|) && d != [] && StoredAt(ops, d).Some?
    ensures StoredAt(ops, d).value == Fold(ops, Made(ops, d)).text
  {
    var c, x := d[..|d| - 1], d[|d| - 1];
    AfterIsFold(ops, c);
    assert (Since(ops, c) + [x])[..|Since(ops, c)|] == Since(ops, c);
  }

  /** What is stored last is exactly the arguments so far. */
  ghost predicate Exact(ops: seq<CallOp>, d: seq<nat>)
    requires Within(d, |ops|) && d != []
  {
    StoredAt(ops, d).Some? ==> Front(d) <= |ops| && StoredAt(ops, d).value == Total(ops, Front(d))
  }

  /**
   * Per delivery: whatever is stored is exact if and only if, since the call was last forgotten, every delta
   * delivered so far has come, or come again, ahead of everything numbered after it.
   */
  lemma ExactAtIff(ops: seq<CallOp>, d: seq<nat>)
    requires InSequence(ops) && Delivery(|ops|, d) && d != [] && StoredAt(ops, d).Some?
    ensures Front(d) <= |ops|
    ensures Exact(ops, d) <==> Whole(ops, Made(ops, d), Front(d))
  {
    FrontBounds(|ops|, d);
    MadeIsDelivered(ops, d);
    StoredIsFold(ops, d);
    FoldIsExactIff(ops, Made(ops, d), Front(d));
  }

  // ---- Every delivery ----

  /** An end of the call can come after one event names it again, with a delta elsewhere left out. */
  ghost predicate Restartable(ops: seq<CallOp>) {
    exists e, i, j :: 0 <= e < |ops| && 0 <= i < |ops| && 0 <= j < |ops| && RestartsAt(ops, e, i, j)
  }

  predicate RestartsAt(ops: seq<CallOp>, e: nat, i: nat, j: nat)
    requires e < |ops| && i < |ops| && j < |ops|
  {
    ops[e].Finish? && Naming(ops[i]) && Adding(ops[j]) && i != j
  }

  lemma {:induction false} FirstDelivery(ops: seq<CallOp>, d: seq<nat>, j: nat)
    requires Delivery(|ops|, d) && j < Front(d)
    ensures ComesInTime(ops, d, j)
  {
    FrontBounds(|ops|, d);
    var c, x := d[..|d| - 1], d[|d| - 1];
    assert d == c + [x];
    ComesInTimeSnoc(ops, c, x, j);
    if j < Front(c) {
      FirstDelivery(ops, c, j);
    } else {
      forall q | 0 <= q < |c| ensures c[q] < j { BehindFront(c, q); }
    }
  }

  lemma {:induction false} SinceTheStart(ops: seq<CallOp>, d: seq<nat>)
    requires Within(d, |ops|) && forall e :: 0 <= e < |ops| ==> !ops[e].Finish?
    ensures Since(ops, d) == d
  {
    if d == [] {
    } else {
      SinceTheStart(ops, d[..|d| - 1]);
      assert d == d[..|d| - 1] + [d[|d| - 1]];
    }
  }

  lemma WholeWithoutEnds(ops: seq<CallOp>, d: seq<nat>)
    requires InSequence(ops) && Delivery(|ops|, d) && d != [] && StoredAt(ops, d).Some?
    requires forall e :: 0 <= e < |ops| ==> !ops[e].Finish?
    ensures Front(d) <= |ops| && Whole(ops, Made(ops, d), Front(d))
  {
    FrontBounds(|ops|, d);
    SinceTheStart(ops, d[..|d| - 1]);
    assert Made(ops, d) == d;
    forall j | 0 <= j < Front(d) && Adding(ops[j]) ensures ComesInTime(ops, d, j) { FirstDelivery(ops, d, j); }
  }

  lemma {:induction false} NamedBySince(ops: seq<CallOp>, d: seq<nat>) returns (i: nat)
    requires Within(d, |ops|) && After(ops, d).named
    ensures i in Since(ops, d) && i < |ops| && Naming(ops[i])
  {
    var c, x := d[..|d| - 1], d[|d| - 1];
    if Naming(ops[x]) { i := x; } else { i := NamedBySince(ops, c); }
  }

  lemma {:induction false} FirstOf(g: seq<nat>, i: nat) returns (p: nat)
    requires i in g
    ensures p < |g| && g[p] == i && i !in g[..p]
  {
    if g[0] == i {
      p := 0;
    } else {
      p := FirstOf(g[1..], i);
      assert g[..p + 1] == [g[0]] + g[1..][..p];
      p := p + 1;
    }
  }

  lemma WholeFromName(ops: seq<CallOp>, g: seq<nat>, i: nat, n: nat)
    requires Within(g, |ops|) && i in g && Naming(ops[i]) && n <= |ops|
    requires forall k, j :: 0 <= k < |ops| && 0 <= j < |ops| && Naming(ops[k]) && Adding(ops[j]) ==> k == j
    ensures Whole(ops, g, n)
  {
    var p := FirstOf(g, i);
    forall j | 0 <= j < n && Adding(ops[j]) ensures ComesInTime(ops, g, j) {
      assert j == i;
      forall q | 0 <= q < p ensures !Counting(ops[g[q]]) { assert g[..p][q] == g[q]; }
      assert NothingLater(ops, g, p, j);
    }
  }

  lemma WholeWithEnds(ops: seq<CallOp>, d: seq<nat>, e: nat)
    requires InSequence(ops) && Delivery(|ops|, d) && d != [] && StoredAt(ops, d).Some?
    requires e < |ops| && ops[e].Finish? && !Restartable(ops)
    ensures Front(d) <= |ops| && Whole(ops, Made(ops, d), Front(d))
  {
    FrontBounds(|ops|, d);
    var c, x := d[..|d| - 1], d[|d| - 1];
    forall k, j | 0 <= k < |ops| && 0 <= j < |ops| && Naming(ops[k]) && Adding(ops[j]) ensures k == j {
      assert !RestartsAt(ops, e, k, j);
    }
    var i := x;
    if !Naming(ops[x]) { i := NamedBySince(ops, c); }
    WholeFromName(ops, Made(ops, d), i, Front(d));
  }

  lemma AfterSnoc(ops: seq<CallOp>, d: seq<nat>, x: nat)
    requires Within(d, |ops|) && x < |ops|
    ensures Within(d + [x], |ops|) && After(ops, d + [x]) == Do(After(ops, d), ops[x])
    ensures Since(ops, d + [x]) == if ops[x].Finish? && After(ops, d).named then [] else Since(ops, d) + [x]
  {
    assert (d + [x])[..|d|] == d;
  }

  /** Naming the call and ending it leaves nothing of what came before. */
  lemma NameAndEnd(ops: seq<CallOp>, d: seq<nat>, i: nat, e: nat)
    requires Within(d, |ops|) && i < |ops| && e < |ops| && Naming(ops[i]) && ops[e].Finish?
    ensures Within(d + [i] + [e], |ops|)
    ensures After(ops, d + [i] + [e]) == Closed() && Since(ops, d + [i] + [e]) == []
  {
    AfterSnoc(ops, d, i);
    AfterSnoc(ops, d + [i], e);
  }

  /** Named and ended from scratch, the call is stored with what the naming event alone makes up. */
  lemma NameAlone(ops: seq<CallOp>, c: seq<nat>, i: nat, e: nat)
    requires Within(c, |ops|) && i < |ops| && e < |ops| && Naming(ops[i]) && ops[e].Finish?
    requires After(ops, c) == Closed() && Since(ops, c) == []
    ensures var d := c + [i] + [e]; Within(d, |ops|) && StoredAt(ops, d).Some? && Made(ops, d) == [i]
  {
    AfterSnoc(ops, c, i);
    assert (c + [i] + [e])[..|c| + 1] == c + [i];
  }

  lemma TwiceIsDelivery(n: nat, a: seq<nat>, i: nat, e: nat)
    requires Delivery(n, a) && i < Front(a) <= n && e < Front(a)
    ensures Delivery(n, a + [i] + [e]) && Front(a + [i] + [e]) == Front(a)
  {
    DeliverySnoc(n, a, i);
    DeliverySnoc(n, a + [i], e);
  }

  lemma DeltaIsMissing(ops: seq<CallOp>, d: seq<nat>, i: nat, j: nat)
    requires InSequence(ops) && Delivery(|ops|, d) && d != [] && StoredAt(ops, d).Some? && Made(ops, d) == [i]
    requires j < Front(d) && j < |ops| && Adding(ops[j]) && i != j
    ensures !Exact(ops, d)
  {
    ExactAtIff(ops, d);
    assert !ComesInTime(ops, [i], j);
  }

  /** After everything up to some point once, i and e twice: the second end stores what i alone makes up. */
  lemma RestartFrom(ops: seq<CallOp>, a: seq<nat>, e: nat, i: nat, j: nat) returns (d: seq<nat>)
    requires InSequence(ops) && e < |ops| && i < |ops| && j < |ops| && RestartsAt(ops, e, i, j)
    requires Delivery(|ops|, a) && e < Front(a) <= |ops| && i < Front(a) && j < Front(a)
    ensures d != [] && Delivery(|ops|, d) && !Exact(ops, d)
  {
    var c := a + [i] + [e];
    TwiceIsDelivery(|ops|, a, i, e);
    NameAndEnd(ops, a, i, e);
    d := c + [i] + [e];
    TwiceIsDelivery(|ops|, c, i, e);
    NameAlone(ops, c, i, e);
    DeltaIsMissing(ops, d, i, j);
  }

  lemma RestartIsInexact(ops: seq<CallOp>, e: nat, i: nat, j: nat) returns (d: seq<nat>)
    requires InSequence(ops) && e < |ops| && i < |ops| && j < |ops| && RestartsAt(ops, e, i, j)
    ensures d != [] && Delivery(|ops|, d) && !Exact(ops, d)
  {
    var m := Max(e, Max(i, j)) + 1;
    var a := DeliveryUpTo(|ops|, m);
    d := RestartFrom(ops, a, e, i, j);
  }

  ghost predicate AlwaysExact(ops: seq<CallOp>) {
    forall d :: d != [] && Delivery(|ops|, d) ==> Exact(ops, d)
  }

  /**
   * For increasing numbers, every delivery stores exact arguments if and only if no end of the call comes with an
   * event that names it and a nonempty delta in another event.
   */
  lemma AlwaysExactIff(ops: seq<CallOp>)
    requires InSequence(ops)
    ensures AlwaysExact(ops) <==> !Restartable(ops)
  {
    if Restartable(ops) {
      var e, i, j :| 0 <= e < |ops| && 0 <= i < |ops| && 0 <= j < |ops| && RestartsAt(ops, e, i, j);
      var d := RestartIsInexact(ops, e, i, j);
    } else {
      forall d | d != [] && Delivery(|ops|, d) ensures Exact(ops, d) {
        if StoredAt(ops, d).Some? {
          if e :| 0 <= e < |ops| && ops[e].Finish? {
            WholeWithEnds(ops, d, e);
          } else {
            WholeWithoutEnds(ops, d);
          }
          ExactAtIff(ops, d);
        }
      }
    }
  }
}
