// The cache object: a map for lookup and a list for recency, kept in agreement.
module ResponseCache {
  import opened CheckerTypes
  import opened RecencyList

  class Entry {
    const key: string
    var response: string
    var createdAt: int

    constructor (key: string, response: string, createdAt: int)
      ensures this.key == key && this.response == response && this.createdAt == createdAt
    {
      this.key, this.response, this.createdAt := key, response, createdAt;
    }
  }

  function Without(order: seq<Entry>, e: Entry): (r: seq<Entry>)
    ensures forall x :: x in r ==> x in order && x != e
    ensures forall x :: x in order && x != e ==> x in r
  {
    if order == [] then []
    else if order[0] == e then Without(order[1..], e)
    else [order[0]] + Without(order[1..], e)
  }

  function Items(order: seq<Entry>): (r: seq<Item>)
    reads order
    ensures |r| == |order|
    ensures forall i :: 0 <= i < |order| ==> r[i] == Item(order[i].key, order[i].response, order[i].createdAt)
  {
    seq(|order|, i requires 0 <= i < |order| reads order =>
      Item(order[i].key, order[i].response, order[i].createdAt))
  }

  ghost predicate OneEntryPerKey(order: seq<Entry>) {
    forall i, j :: 0 <= i < j < |order| ==> order[i].key != order[j].key
  }

  ghost predicate Agree(items: map<string, Entry>, order: seq<Entry>) {
    && OneEntryPerKey(order)
    && (forall e :: e in order ==> e.key in items && items[e.key] == e)
    && (forall k :: k in items ==> items[k] in order && items[k].key == k)
  }

  function ItemOf(e: Entry): Item
    reads e
  {
    Item(e.key, e.response, e.createdAt)
  }

  lemma ItemsCons(e: Entry, order: seq<Entry>)
    ensures Items([e] + order) == [ItemOf(e)] + Items(order)
  {
  }

  lemma {:induction false} HeadIsAway(order: seq<Entry>, e: Entry)
    requires OneEntryPerKey(order) && e in order
    ensures if order[0] == e then e !in order[1..] && forall i :: 1 <= i < |order| ==> order[i].key != e.key
            else e in order[1..] && order[0].key != e.key
  {
    var i :| 0 <= i < |order| && order[i] == e;
    assert order == [order[0]] + order[1..];
  }

  lemma {:induction false} ItemsTail(order: seq<Entry>)
    requires order != []
    ensures Items(order)[1..] == Items(order[1..]) && Items(order)[0] == ItemOf(order[0])
  {
  }

  lemma {:induction false} WithoutIsRemove(order: seq<Entry>, e: Entry)
    requires OneEntryPerKey(order) && e in order
    ensures Items(Without(order, e)) == Remove(Items(order), e.key)
    ensures |Without(order, e)| == |order| - 1
  {
    var rest := order[1..];
    HeadIsAway(order, e);
    ItemsTail(order);
    if order[0] == e {
      WithoutAbsent(rest, e);
      assert !Holds(Items(rest), e.key);
      RemoveFacts(Items(rest), e.key);
    } else {
      WithoutIsRemove(rest, e);
      ItemsCons(order[0], Without(rest, e));
    }
  }

  lemma {:induction false} WithoutKeepsKeys(order: seq<Entry>, e: Entry)
    requires OneEntryPerKey(order)
    ensures OneEntryPerKey(Without(order, e))
  {
    if order != [] {
      WithoutKeepsKeys(order[1..], e);
      var w := Without(order[1..], e);
      assert forall i :: 0 <= i < |w| ==> w[i] in order[1..];
    }
  }

  lemma {:induction false} AgreeWithout(items: map<string, Entry>, order: seq<Entry>, e: Entry)
    requires Agree(items, order) && e in order
    ensures Agree(items - {e.key}, Without(order, e))
  {
    WithoutKeepsKeys(order, e);
  }

  lemma {:induction false} AgreeInFront(items: map<string, Entry>, order: seq<Entry>, e: Entry)
    requires Agree(items, order) && e in order
    ensures Agree(items, [e] + Without(order, e))
  {
    WithoutKeepsKeys(order, e);
    var w := Without(order, e);
    forall i | 0 <= i < |w| ensures w[i].key != e.key {
      assert w[i] in order && w[i] != e;
    }
  }

  lemma {:induction false} WithoutAbsent(order: seq<Entry>, e: Entry)
    requires e !in order
    ensures Without(order, e) == order
  {
    if order != [] {
      WithoutAbsent(order[1..], e);
    }
  }

  lemma AgreeFind(items: map<string, Entry>, order: seq<Entry>, k: string)
    requires Agree(items, order)
    ensures k in items <==> Holds(Items(order), k)
    ensures k in items ==>
              Find(Items(order), k) == Some(Item(k, items[k].response, items[k].createdAt))
  {
    var l := Items(order);
    if k in items {
      var i :| 0 <= i < |order| && order[i] == items[k];
      assert l[i].key == k;
      var x := Find(l, k).value;
      var j :| 0 <= j < |l| && l[j] == x;
      assert order[j].key == order[i].key;
    }
  }

  // Updating an entry leaves the items of other entries alone.
  method Store(elem: Entry, response: string, now: int, ghost others: seq<Entry>)
    requires elem !in others
    modifies elem
    ensures elem.response == response && elem.createdAt == now
    ensures Items(others) == old(Items(others))
  {
    elem.response := response;
    elem.createdAt := now;
  }

  lemma AgreeInsert(items: map<string, Entry>, order: seq<Entry>, e: Entry)
    requires Agree(items, order) && e.key !in items
    ensures Agree(items[e.key := e], [e] + order)
  {
    forall i | 0 <= i < |order| ensures order[i].key != e.key {
      assert order[i] in order;
    }
  }

  class Cache {
    const capacity: int
    const ttl: int
    const enabled: bool
    var items: map<string, Entry>
    var order: seq<Entry>

    ghost predicate Valid()
      reads this
    {
      && Agree(items, order)
      && (enabled ==> 0 < capacity && |order| <= capacity)
    }

    function Contents(): seq<Item>
      reads this, order
    {
      Items(order)
    }

    constructor (capacity: int, ttl: int, enabled: bool)
      ensures Valid() && Contents() == []
      ensures this.enabled <==> enabled && capacity > 0
      ensures this.enabled ==> this.capacity == capacity && this.ttl == ttl
    {
      this.enabled := enabled && capacity > 0;
      this.capacity, this.ttl := capacity, ttl;
      items, order := map[], [];
    }

    method MoveToFront(e: Entry)
      requires Valid() && e in order
      modifies this`order
      ensures Valid()
      ensures order == [e] + Without(old(order), e)
      ensures Contents() == [ItemOf(e)] + Remove(old(Contents()), e.key)
    {
      AgreeInFront(items, order, e);
      WithoutIsRemove(order, e);
      ItemsCons(e, Without(order, e));
      order := [e] + Without(order, e);
    }

    method Discard(e: Entry)
      requires Valid() && e in order
      modifies this`order, this`items
      ensures Valid()
      ensures order == Without(old(order), e)
      ensures Contents() == Remove(old(Contents()), e.key)
    {
      AgreeWithout(items, order, e);
      WithoutIsRemove(order, e);
      order := Without(order, e);
      items := items - {e.key};
    }

    method Get(key: string, now: int) returns (r: Option<string>)
      requires Valid()
      modifies this
      ensures Valid() && forall e :: e in order ==> e in old(order)
      ensures r == if enabled then Lookup(old(Contents()), ttl, key, now) else None
      ensures Contents() == if enabled then AfterGet(old(Contents()), ttl, key, now) else old(Contents())
    {
      if !enabled {
        return None;
      }
      AgreeFind(items, order, key);
      if key !in items {
        return None;
      }
      var elem := items[key];
      if now - elem.createdAt > ttl {
        Discard(elem);
        return None;
      }
      MoveToFront(elem);
      return Some(elem.response);
    }

    // Storing nothing leaves the cache alone, like the program's nil response.
    method Put(key: string, response: Option<string>, now: int)
      requires Valid()
      modifies this, order
      ensures Valid()
      ensures Contents() == if enabled && response.Some?
                            then AfterPut(old(Contents()), capacity, key, response.value, now)
                            else old(Contents())
    {
      if !enabled || response.None? {
        return;
      }
      AgreeFind(items, order, key);
      if key in items {
        Refresh(items[key], response.value, now);
        return;
      }
      if |order| >= capacity {
        EvictOldest();
      }
      Insert(key, response.value, now);
    }

    method Refresh(elem: Entry, response: string, now: int)
      requires Valid() && elem in order
      modifies this`order, elem
      ensures Valid()
      ensures Contents() == [Item(elem.key, response, now)] + Remove(old(Contents()), elem.key)
    {
      WithoutIsRemove(order, elem);
      MoveToFront(elem);
      ghost var rest := Without(old(order), elem);
      Store(elem, response, now, rest);
      ItemsCons(elem, rest);
    }

    method EvictOldest()
      requires Valid() && |order| > 0
      modifies this
      ensures Valid()
      ensures order == old(order)[..|old(order)| - 1]
      ensures items.Keys <= old(items).Keys
    {
      var oldest := order[|order| - 1];
      order := order[..|order| - 1];
      items := items - {oldest.key};
      assert forall e :: e in order ==> e in old(order);
      forall k | k in items ensures items[k] in order {
        var i :| 0 <= i < |old(order)| && old(order)[i] == items[k];
        assert order[i] == items[k];
      }
    }

    method Insert(key: string, response: string, now: int)
      requires Valid() && key !in items && (enabled ==> |order| < capacity)
      modifies this
      ensures Valid()
      ensures Contents() == [Item(key, response, now)] + old(Contents())
    {
      var elem := new Entry(key, response, now);
      AgreeInsert(items, order, elem);
      ItemsCons(elem, order);
      order := [elem] + order;
      items := items[key := elem];
    }

    method Clear()
      requires Valid()
      modifies this
      ensures Valid() && Contents() == if enabled then [] else old(Contents())
    {
      if enabled {
        items, order := map[], [];
      }
    }

    method Size() returns (n: nat)
      requires Valid()
      ensures n == if enabled then |Contents()| else 0
    {
      n := if enabled then |order| else 0;
    }
  }
}
