/** The queue of a session as its reconciler reads it: actions listed in order, and the owner found by scanning. */
module ActionQueue {
  import opened Text
  import opened Actions
  import opened System

  ghost predicate Sorted(items: seq<Action>) {
    forall i, j :: 0 <= i < j < |items| ==> Before(items[i], items[j])
  }

  /** Actions are stored under their own trimmed names. */
  ghost predicate Keyed(actions: map<string, Action>) {
    forall n :: n in actions ==> actions[n].name == n && n != "" && Trim(n) == n
  }

  /** Each action of the map once, in queue order. */
  ghost predicate Lists(items: seq<Action>, actions: map<string, Action>) {
    && Sorted(items)
    && (forall a :: a in items ==> a.name in actions && actions[a.name] == a)
    && (forall n :: n in actions ==> actions[n] in items)
  }

  method Insert(items: seq<Action>, a: Action) returns (r: seq<Action>)
    requires Sorted(items) && forall b :: b in items ==> b.name != a.name
    ensures Sorted(r) && forall b :: b in r <==> b == a || b in items
  {
    var i := 0;
    while i < |items| && Before(items[i], a)
      invariant 0 <= i <= |items|
      invariant forall k :: 0 <= k < i ==> Before(items[k], a)
    {
      i := i + 1;
    }
    r := items[..i] + [a] + items[i..];
    forall k | i <= k < |items| ensures Before(a, items[k]) {
      BeforeIsOrder(a, items[i], items[k]);
    }
  }

  /** listSessionActions */
  method ListSessionActions(store: map<string, Action>) returns (items: seq<Action>)
    requires Keyed(store)
    ensures Lists(items, store)
    ensures forall i, j :: 0 <= i < j < |items| ==> CreatedEarlier(items[i], items[j])
  {
    items := [];
    var left := store.Keys;
    while left != {}
      invariant left <= store.Keys && Sorted(items)
      invariant forall a :: a in items ==> a.name in store.Keys - left && store[a.name] == a
      invariant forall n :: n in store.Keys - left ==> store[n] in items
    {
      var n :| n in left;
      items := Insert(items, store[n]);
      left := left - {n};
    }
    forall i, j | 0 <= i < j < |items| ensures CreatedEarlier(items[i], items[j]) {
      BeforeIsCreatedEarlier(items[i], items[j]);
    }
  }

  method FirstActiveAction(items: seq<Action>) returns (name: string, k: nat)
    ensures k <= |items| && forall i :: 0 <= i < k ==> !IsActive(items[i])
    ensures name == if k < |items| then Trim(items[k].name) else ""
    ensures k < |items| ==> IsActive(items[k])
  {
    for i := 0 to |items|
      invariant forall j :: 0 <= j < i ==> !IsActive(items[j])
    {
      if IsActive(items[i]) { return Trim(items[i].name), i; }
    }
    return "", |items|;
  }

  /** The scan stops at the owner, and nobody else owns the queue. */
  lemma ScanFindsOwner(actions: map<string, Action>, items: seq<Action>, k: nat, name: string)
    requires Lists(items, actions) && Keyed(actions) && k < |items| && !IsTerminal(items[k]) && name in actions
    requires if IsActive(items[k]) then forall i :: 0 <= i < k ==> !IsActive(items[i])
             else forall i :: 0 <= i < |items| ==> !IsActive(items[i]) && (i < k ==> IsTerminal(items[i]))
    ensures IsOwner(actions, name) <==> name == items[k].name
  {
    var first := items[k];
    assert first in items;
    forall n | n in actions && n != first.name && !IsTerminal(actions[n])
      ensures IsActive(actions[n]) ==> IsActive(first)
      ensures IsActive(actions[n]) == IsActive(first) ==> Before(first, actions[n])
    {
      var i :| 0 <= i < |items| && items[i] == actions[n];
      assert actions[n] in items;
    }
    BeforeIsOrder(first, actions[name], first);
  }

  /** queueOwnerID: the one action that may work now; "" when all have ended. */
  method QueueOwnerId(items: seq<Action>, ghost actions: map<string, Action>) returns (owner: string)
    requires Lists(items, actions) && Keyed(actions)
    ensures forall n :: n in actions ==> (owner == n <==> IsOwner(actions, n))
  {
    var active, k := FirstActiveAction(items);
    assert k < |items| ==> items[k] in items;
    if active != "" {
      forall n | n in actions ensures active == n <==> IsOwner(actions, n) { ScanFindsOwner(actions, items, k, n); }
      return active;
    }
    for i := 0 to |items|
      invariant forall j :: 0 <= j < i ==> IsTerminal(items[j])
    {
      if IsTerminal(items[i]) { continue; }
      assert items[i] in items;
      forall n | n in actions ensures items[i].name == n <==> IsOwner(actions,
                                                                      n) { ScanFindsOwner(actions, items, i, n); }
      return Trim(items[i].name);
    }
    return "";
  }
}
