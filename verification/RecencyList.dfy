// What an LRU cache with time to live is: a list of items, most recently used first.
// The request key is the hash of the request; responses are compared only for equality.
module RecencyList {
  import opened CheckerTypes
  import opened FiniteSets

  datatype Item = Item(key: string, response: string, createdAt: int)

  predicate Holds(l: seq<Item>, k: string) {
    exists i :: 0 <= i < |l| && l[i].key == k
  }

  predicate DistinctKeys(l: seq<Item>) {
    forall i, j :: 0 <= i < j < |l| ==> l[i].key != l[j].key
  }

  function Find(l: seq<Item>, k: string): (r: Option<Item>)
    ensures r.Some? <==> Holds(l, k)
    ensures r.Some? ==> r.value in l && r.value.key == k
  {
    if l == [] then None
    else if l[0].key == k then assert Holds(l, k); Some(l[0])
    else
      assert Holds(l[1..], k) ==> Holds(l, k);
      Find(l[1..], k)
  }

  function Remove(l: seq<Item>, k: string): seq<Item> {
    if l == [] then []
    else if l[0].key == k then Remove(l[1..], k)
    else [l[0]] + Remove(l[1..], k)
  }

  lemma {:induction false} RemoveFacts(l: seq<Item>, k: string)
    ensures !Holds(Remove(l, k), k)
    ensures forall x :: x in Remove(l, k) <==> x in l && x.key != k
    ensures !Holds(l, k) ==> Remove(l, k) == l
    ensures |Remove(l, k)| <= |l|
  {
    if l != [] {
      RemoveFacts(l[1..], k);
      assert l == [l[0]] + l[1..];
      assert Holds(l[1..], k) ==> Holds(l, k);
    }
  }

  predicate Stale(x: Item, ttl: int, now: int) {
    now - x.createdAt > ttl
  }

  // A hit returns the response and moves the item to the front; an expired item is
  // removed.
  function Lookup(l: seq<Item>, ttl: int, k: string, now: int): Option<string> {
    match Find(l, k)
    case None => None
    case Some(x) => if Stale(x, ttl, now) then None else Some(x.response)
  }

  function AfterGet(l: seq<Item>, ttl: int, k: string, now: int): seq<Item> {
    match Find(l, k)
    case None => l
    case Some(x) => if Stale(x, ttl, now) then Remove(l, k) else [x] + Remove(l, k)
  }

  function AfterPut(l: seq<Item>, capacity: nat, k: string, response: string, now: int): seq<Item> {
    var x := Item(k, response, now);
    if Holds(l, k) then [x] + Remove(l, k)
    else [x] + (if |l| >= capacity && |l| > 0 then l[..|l| - 1] else l)
  }

  datatype Event =
    | Get(key: string, now: int)
    | Put(key: string, response: string, now: int)
    | Clear

  datatype Settings = Settings(capacity: nat, ttl: int)

  function Step(c: Settings, l: seq<Item>, e: Event): seq<Item> {
    match e
    case Get(k, now) => AfterGet(l, c.ttl, k, now)
    case Put(k, response, now) => AfterPut(l, c.capacity, k, response, now)
    case Clear => []
  }

  function After(c: Settings, h: seq<Event>): seq<Item> {
    if |h| == 0 then [] else Step(c, After(c, h[..|h| - 1]), h[|h| - 1])
  }

  // ------------------------------------------------------------- list invariants

  lemma HeldWithout(l: seq<Item>, j: string, k: string)
    requires Holds(Remove(l, j), k)
    ensures Holds(l, k)
  {
    var i :| 0 <= i < |Remove(l, j)| && Remove(l, j)[i].key == k;
    RemoveFacts(l, j);
    assert Remove(l, j)[i] in l;
  }

  lemma PushKeepsDistinct(x: Item, l: seq<Item>)
    requires DistinctKeys(l) && !Holds(l, x.key)
    ensures DistinctKeys([x] + l)
  {
  }

  lemma HeadIsDistinct(l: seq<Item>)
    requires DistinctKeys(l) && l != []
    ensures DistinctKeys(l[1..]) && !Holds(l[1..], l[0].key)
  {
  }

  lemma {:induction false} RemoveKeepsDistinct(l: seq<Item>, k: string)
    requires DistinctKeys(l)
    ensures DistinctKeys(Remove(l, k))
  {
    if l != [] {
      HeadIsDistinct(l);
      RemoveKeepsDistinct(l[1..], k);
      if l[0].key != k {
        if Holds(Remove(l[1..], k), l[0].key) {
          HeldWithout(l[1..], k, l[0].key);
        }
        PushKeepsDistinct(l[0], Remove(l[1..], k));
      }
    }
  }

  lemma {:induction false} RemoveShortens(l: seq<Item>, k: string)
    requires DistinctKeys(l) && Holds(l, k)
    ensures |Remove(l, k)| == |l| - 1
  {
    HeadIsDistinct(l);
    if l[0].key == k {
      RemoveFacts(l[1..], k);
    } else {
      var i :| 0 <= i < |l| && l[i].key == k;
      assert l[1..][i - 1].key == k;
      RemoveShortens(l[1..], k);
    }
  }

  // Moving or putting an item to the front.
  lemma {:induction false} UseKeepsList(l: seq<Item>, x: Item)
    requires DistinctKeys(l) && Holds(l, x.key)
    ensures DistinctKeys([x] + Remove(l, x.key)) && |[x] + Remove(l, x.key)| == |l|
  {
    RemoveKeepsDistinct(l, x.key);
    RemoveShortens(l, x.key);
    RemoveFacts(l, x.key);
    PushKeepsDistinct(x, Remove(l, x.key));
  }

  lemma {:induction false} PutKeepsList(l: seq<Item>, capacity: nat, k: string, response: string, now: int)
    requires capacity > 0 && DistinctKeys(l) && |l| <= capacity
    ensures var m := AfterPut(l, capacity, k, response, now); DistinctKeys(m) && |m| <= capacity
  {
    var x := Item(k, response, now);
    if Holds(l, k) {
      UseKeepsList(l, x);
    } else {
      var m := if |l| >= capacity && |l| > 0 then l[..|l| - 1] else l;
      assert forall i :: 0 <= i < |m| ==> m[i] == l[i];
      PushKeepsDistinct(x, m);
    }
  }

  lemma {:induction false} StepKeepsList(c: Settings, l: seq<Item>, e: Event)
    requires c.capacity > 0
    requires DistinctKeys(l) && |l| <= c.capacity
    ensures DistinctKeys(Step(c, l, e)) && |Step(c, l, e)| <= c.capacity
  {
    if e.Put? {
      PutKeepsList(l, c.capacity, e.key, e.response, e.now);
    } else if e.Get? && Holds(l, e.key) {
      RemoveKeepsDistinct(l, e.key);
      RemoveFacts(l, e.key);
      UseKeepsList(l, Find(l, e.key).value);
    }
  }

  lemma {:induction false} ListStaysValid(c: Settings, h: seq<Event>)
    requires c.capacity > 0
    ensures DistinctKeys(After(c, h)) && |After(c, h)| <= c.capacity
  {
    if |h| > 0 {
      ListStaysValid(c, h[..|h| - 1]);
      StepKeepsList(c, After(c, h[..|h| - 1]), h[|h| - 1]);
    }
  }

  // --------------------------------------------------------------- hits are right

  // The last Put of k since the last Clear, from the history alone.
  function LatestPut(h: seq<Event>, k: string): (r: Option<Item>)
    ensures r.Some? ==> r.value.key == k
  {
    if |h| == 0 then None
    else
      match h[|h| - 1]
      case Clear => None
      case Put(j, response, now) => if j == k then Some(Item(k, response, now)) else LatestPut(h[..|h| - 1], k)
      case Get(_, _) => LatestPut(h[..|h| - 1], k)
  }

  lemma {:induction false} ItemsAreLatestPuts(c: Settings, h: seq<Event>, x: Item)
    requires x in After(c, h)
    ensures LatestPut(h, x.key) == Some(x)
  {
    if |h| > 0 {
      var before := h[..|h| - 1];
      var l := After(c, before);
      if !h[|h| - 1].Clear? {
        RemoveFacts(l, h[|h| - 1].key);
      }
      if x in l {
        ItemsAreLatestPuts(c, before, x);
      }
    }
  }

  /** A hit returns the response of the latest Put of that key since the last Clear, and
      that Put is not older than the time to live. */
  lemma HitsAreLatestAndFresh(c: Settings, h: seq<Event>, k: string, now: int)
    requires Lookup(After(c, h), c.ttl, k, now).Some?
    ensures LatestPut(h, k).Some?
    ensures Lookup(After(c, h), c.ttl, k, now) == Some(LatestPut(h, k).value.response)
    ensures now - LatestPut(h, k).value.createdAt <= c.ttl
  {
    ItemsAreLatestPuts(c, h, Find(After(c, h), k).value);
  }

  // ----------------------------------------------------------------- retention

  // Other keys used (put, or got with a hit) since k was last used.
  function OthersUsed(c: Settings, h: seq<Event>, k: string): set<string> {
    if |h| == 0 then {}
    else
      var before := h[..|h| - 1];
      match h[|h| - 1]
      case Clear => {}
      case Put(j, _, _) => if j == k then {} else OthersUsed(c, before, k) + {j}
      case Get(j, now) =>
        if Lookup(After(c, before), c.ttl, j, now).None? then OthersUsed(c, before, k)
        else if j == k then {}
        else OthersUsed(c, before, k) + {j}
  }

  // k was put, no Get of it came too late, and at no time since had as many as
  // `capacity` other keys been used after it.
  predicate Kept(c: Settings, h: seq<Event>, k: string) {
    |h| > 0 &&
    var before := h[..|h| - 1];
    match h[|h| - 1]
    case Clear => false
    case Put(j, _, _) => j == k || (Kept(c, before, k) && |OthersUsed(c, h, k)| < c.capacity)
    case Get(j, now) =>
      && Kept(c, before, k)
      && (if j == k then LatestPut(before, k).Some? && !Stale(LatestPut(before, k).value, c.ttl, now)
          else |OthersUsed(c, h, k)| < c.capacity)
  }

  // The keys in front of k.
  function Front(l: seq<Item>, k: string): set<string> {
    if l == [] || l[0].key == k then {} else {l[0].key} + Front(l[1..], k)
  }

  lemma {:induction false} FrontIsPosition(l: seq<Item>, k: string, at: nat)
    requires DistinctKeys(l) && at < |l| && l[at].key == k
    ensures |Front(l, k)| == at
    ensures forall j :: j in Front(l, k) ==> Holds(l, j) && j != k
  {
    if at > 0 {
      FrontIsPosition(l[1..], k, at - 1);
      forall j | j in Front(l[1..], k) ensures Holds(l, j) && j != l[0].key {
        var i :| 0 <= i < |l[1..]| && l[1..][i].key == j;
        assert l[i + 1].key == j;
      }
    }
  }

  lemma {:induction false} RemoveShrinksFront(l: seq<Item>, j: string, k: string)
    requires j != k && Holds(l, k)
    ensures Front(Remove(l, j), k) <= Front(l, k)
  {
    if l[0].key != k {
      var i :| 0 <= i < |l| && l[i].key == k;
      assert l[1..][i - 1].key == k;
      RemoveShrinksFront(l[1..], j, k);
      if l[0].key != j {
        assert Remove(l, j)[1..] == Remove(l[1..], j);
      }
    } else {
      assert Remove(l, j)[0] == l[0];
    }
  }

  lemma {:induction false} FrontOfPrefix(l: seq<Item>, n: nat, k: string)
    requires n <= |l| && Holds(l[..n], k)
    ensures Front(l[..n], k) == Front(l, k)
  {
    if l[0].key != k {
      var i :| 0 <= i < |l[..n]| && l[..n][i].key == k;
      assert l[..n][1..] == l[1..][..n - 1];
      assert l[1..][..n - 1][i - 1].key == k;
      FrontOfPrefix(l[1..], n - 1, k);
    }
  }

  lemma FrontAfterPush(x: Item, l: seq<Item>, k: string)
    ensures Front([x] + l, k) == if x.key == k then {} else {x.key} + Front(l, k)
  {
    assert ([x] + l)[1..] == l;
  }

  lemma HeldBefore(x: Item, l: seq<Item>, k: string)
    requires x.key != k && Holds([x] + l, k)
    ensures Holds(l, k)
  {
    var i :| 0 <= i < |[x] + l| && ([x] + l)[i].key == k;
    assert l[i - 1].key == k;
  }

  // Using x puts it in front, whether or not it was there before.
  lemma {:induction false} UseGrowsFront(l: seq<Item>, x: Item, k: string)
    requires x.key != k && Holds([x] + Remove(l, x.key), k)
    ensures Holds(l, k) && Front([x] + Remove(l, x.key), k) <= Front(l, k) + {x.key}
  {
    var r := Remove(l, x.key);
    HeldBefore(x, r, k);
    HeldWithout(l, x.key, k);
    FrontAfterPush(x, r, k);
    RemoveShrinksFront(l, x.key, k);
  }

  lemma {:induction false} PutGrowsFront(c: Settings, l: seq<Item>, e: Event, k: string)
    requires e.Put? && e.key != k && Holds(Step(c, l, e), k)
    ensures Holds(l, k) && Front(Step(c, l, e), k) <= Front(l, k) + {e.key}
  {
    var x := Item(e.key, e.response, e.now);
    if Holds(l, e.key) {
      UseGrowsFront(l, x, k);
    } else {
      var n := if |l| >= c.capacity && |l| > 0 then |l| - 1 else |l|;
      assert l[..|l|] == l;
      HeldBefore(x, l[..n], k);
      FrontAfterPush(x, l[..n], k);
      FrontOfPrefix(l, n, k);
      var i :| 0 <= i < n && l[..n][i].key == k;
      assert l[i].key == k;
    }
  }

  /** Everything in front of an item was used after it. */
  lemma {:induction false} FrontIsUsedLater(c: Settings, h: seq<Event>, k: string)
    requires Holds(After(c, h), k)
    ensures Front(After(c, h), k) <= OthersUsed(c, h, k)
  {
    var before := h[..|h| - 1];
    var l := After(c, before);
    var e := h[|h| - 1];
    if e.Put? && e.key != k {
      PutGrowsFront(c, l, e, k);
      FrontIsUsedLater(c, before, k);
    } else if e.Get? {
      var x := Find(l, e.key);
      if x.None? {
        FrontIsUsedLater(c, before, k);
      } else if Stale(x.value, c.ttl, e.now) {
        RemoveFacts(l, e.key);
        HeldWithout(l, e.key, k);
        RemoveShrinksFront(l, e.key, k);
        FrontIsUsedLater(c, before, k);
      } else if e.key != k {
        UseGrowsFront(l, x.value, k);
        FrontIsUsedLater(c, before, k);
      }
    }
  }

  lemma {:induction false} StillThere(c: Settings, l: seq<Item>, e: Event, k: string, i: nat)
    requires e.Put? && e.key != k && i < |l| && l[i].key == k
    requires Holds(l, e.key) || |l| < c.capacity || i < |l| - 1
    ensures Holds(Step(c, l, e), k)
  {
    var m := Step(c, l, e);
    if Holds(l, e.key) {
      RemoveFacts(l, e.key);
      assert l[i] in Remove(l, e.key);
      assert l[i] in m;
    } else {
      assert m[i + 1] == l[i];
    }
  }

  // Only the last item of a full list is evicted, and only for a key not present.
  lemma {:induction false} EvictedWasLast(c: Settings, l: seq<Item>, e: Event, k: string)
    requires e.Put? && e.key != k && Holds(l, k) && !Holds(Step(c, l, e), k)
    ensures !Holds(l, e.key) && |l| >= c.capacity && l[|l| - 1].key == k
  {
    var i :| 0 <= i < |l| && l[i].key == k;
    if Holds(l, e.key) || |l| < c.capacity || i < |l| - 1 {
      StillThere(c, l, e, k, i);
    }
  }

  // So k is evicted only when `capacity` other keys were used after it.
  lemma {:induction false} EvictionNeedsCrowd(c: Settings, h: seq<Event>, k: string)
    requires c.capacity > 0 && |h| > 0 && h[|h| - 1].Put? && h[|h| - 1].key != k
    requires Holds(After(c, h[..|h| - 1]), k) && !Holds(After(c, h), k)
    ensures |OthersUsed(c, h, k)| >= c.capacity
  {
    var before := h[..|h| - 1];
    var l := After(c, before);
    var j := h[|h| - 1].key;
    EvictedWasLast(c, l, h[|h| - 1], k);
    ListStaysValid(c, before);
    FrontIsUsedLater(c, before, k);
    FrontIsPosition(l, k, |l| - 1);
    assert j !in Front(l, k);
    SubsetSize(Front(l, k) + {j}, OthersUsed(c, h, k));
  }

  /** A key stays present, with its latest response, while fewer than `capacity` other keys
      are used after it and it is not asked for too late. */
  lemma {:induction false} UsedKeysAreKept(c: Settings, h: seq<Event>, k: string)
    requires c.capacity > 0 && Kept(c, h, k)
    ensures Holds(After(c, h), k)
    ensures LatestPut(h, k).Some? && LatestPut(h, k).value in After(c, h)
  {
    var before := h[..|h| - 1];
    var l := After(c, before);
    var m := After(c, h);
    match h[|h| - 1] {
      case Put(j, response, now) =>
        if j == k {
          assert m[0].key == k;
        } else {
          UsedKeysAreKept(c, before, k);
          if !Holds(m, k) {
            EvictionNeedsCrowd(c, h, k);
            assert false;
          }
        }
      case Get(j, now) =>
        UsedKeysAreKept(c, before, k);
        var x := LatestPut(before, k).value;
        if j == k {
          var y := Find(l, k).value;
          ItemsAreLatestPuts(c, before, y);
          assert m[0] == x;
        } else {
          RemoveFacts(l, j);
          assert x in m;
        }
    }
    if Holds(m, k) {
      ItemsAreLatestPuts(c, h, Find(m, k).value);
    }
  }
}
