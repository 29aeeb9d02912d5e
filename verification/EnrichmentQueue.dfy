/** The coalescing enrichment queue (internal/dashboard/enrichment_queue.go): a bounded
    channel, a `pending` map with newest-wins replacement and an `inflight` set. */
module EnrichmentQueue {
  import opened CheckerTypes

  datatype Request = Request(
    clusterID: string, generation: nat, issueHash: string, configVersion: string, results: Results)

  /** The queue as a value.  `working` is the request the single worker has received
      from the channel and not yet marked done; the program keeps it on the worker's stack. */
  datatype QueueState = QueueState(
    capacity: nat, ch: seq<Request>, pending: map<string, Request>, inflight: set<string>,
    working: Option<Request>)

  ghost function Clusters(rs: seq<Request>): set<string> {
    set r | r in rs :: r.clusterID
  }

  ghost predicate DistinctClusters(rs: seq<Request>) {
    forall i, j | 0 <= i < j < |rs| :: rs[i].clusterID != rs[j].clusterID
  }

  /** Everything dispatched and not done: the worker's request, then the channel. */
  ghost function Held(q: QueueState): seq<Request> {
    (if q.working.Some? then [q.working.value] else []) + q.ch
  }

  /** A coalesced request whose cluster is not in flight: only a dispatch can move it. */
  ghost predicate Waiting(q: QueueState, c: string) {
    c in q.pending && c !in q.inflight
  }

  ghost predicate Consistent(q: QueueState) {
    && 0 < q.capacity && |q.ch| <= q.capacity
    && DistinctClusters(Held(q))
    && q.inflight == Clusters(Held(q))
    && forall c | c in q.pending :: q.pending[c].clusterID == c
  }

  /** Every reachable queue state: one request per cluster in channel plus worker,
      `inflight` exactly those clusters, and nothing waits while there is room. */
  ghost predicate Valid(q: QueueState) {
    && Consistent(q)
    && ((exists c :: Waiting(q, c)) ==> |Held(q)| >= q.capacity)
  }

  // ------------------------------------------------------- what each call does

  /** Some waiting requests moved from `pending` to the end of the channel. */
  ghost predicate Promoted(q: QueueState, q': QueueState) {
    && q' == q.(ch := q'.ch, pending := q'.pending, inflight := q'.inflight)
    && q.ch <= q'.ch && |q'.ch| <= q.capacity
    && var moved := q'.ch[|q.ch|..];
       && DistinctClusters(moved)
       && (forall r | r in moved :: Waiting(q, r.clusterID) && q.pending[r.clusterID] == r)
       && q'.pending == q.pending - Clusters(moved)
       && q'.inflight == q.inflight + Clusters(moved)
  }

  ghost predicate PromotedOne(q: QueueState, c: string, q': QueueState) {
    && Waiting(q, c) && |q.ch| < q.capacity && q.pending[c].clusterID == c
    && q' == q.(ch := q.ch + [q.pending[c]], pending := q.pending - {c}, inflight := q.inflight + {c})
  }

  /** What a dispatch may leave behind, whatever order the map is walked in. */
  ghost predicate Dispatched(q: QueueState, q': QueueState) {
    && Promoted(q, q')
    && (|q'.ch| == q.capacity || forall c :: !Waiting(q', c))
  }

  ghost predicate Enqueued(q: QueueState, req: Request, accepted: bool, q': QueueState) {
    var c := req.clusterID;
    var coalesced := q.(pending := q.pending[c := req]);
    if c in q.inflight then accepted && q' == coalesced
    else if c in q.pending then accepted && Dispatched(coalesced, q')
    else if |q.ch| < q.capacity then
      accepted && q' == q.(ch := q.ch + [req], inflight := q.inflight + {c})
    else !accepted && q' == q
  }

  ghost predicate Received(q: QueueState, q': QueueState) {
    q.working.None? && q.ch != [] && q' == q.(ch := q.ch[1..], working := Some(q.ch[0]))
  }

  ghost predicate MarkedDone(q: QueueState, q': QueueState) {
    && q.working.Some?
    && Dispatched(q.(working := None, inflight := q.inflight - {q.working.value.clusterID}), q')
  }

  // -------------------------------------------------------- every call keeps Valid

  lemma PromotedClusters(q: QueueState, q': QueueState)
    requires Consistent(q) && Promoted(q, q')
    ensures Consistent(q')
  {
    var moved := q'.ch[|q.ch|..];
    PromotedHeld(q, q');
    forall i, j | 0 <= i < j < |Held(q')|
      ensures Held(q')[i].clusterID != Held(q')[j].clusterID
    {
      if i < |Held(q)| <= j {
        assert Held(q')[j] in moved;
        assert Held(q)[i].clusterID in q.inflight;
      }
    }
  }

  lemma PromotedHeld(q: QueueState, q': QueueState)
    requires Promoted(q, q')
    ensures Held(q') == Held(q) + q'.ch[|q.ch|..]
  {
    assert q'.ch == q.ch + q'.ch[|q.ch|..];
  }

  lemma DispatchedIsValid(q: QueueState, q': QueueState)
    requires Consistent(q) && Dispatched(q, q')
    ensures Valid(q')
  {
    PromotedClusters(q, q');
  }

  lemma EnqueueKeepsValid(q: QueueState, req: Request, accepted: bool, q': QueueState)
    requires Valid(q) && Enqueued(q, req, accepted, q')
    ensures Valid(q')
  {
    var c := req.clusterID;
    var coalesced := q.(pending := q.pending[c := req]);
    assert Held(coalesced) == Held(q);
    if c in q.inflight {
      assert forall d :: Waiting(q', d) ==> Waiting(q, d);
    } else if c in q.pending {
      DispatchedIsValid(coalesced, q');
    } else if accepted {
      assert Held(q') == Held(q) + [req];
      assert forall d :: Waiting(q', d) ==> Waiting(q, d);
    }
  }

  /** A request is refused exactly when `capacity` distinct other clusters fill the
      channel; a refusal changes nothing. */
  lemma RefusedOnlyWhenFull(q: QueueState, req: Request, accepted: bool, q': QueueState)
    requires Valid(q) && Enqueued(q, req, accepted, q')
    ensures !accepted <==> |q.ch| == q.capacity && req.clusterID !in q.inflight && req.clusterID !in q.pending
    ensures !accepted ==> q' == q && |Clusters(q.ch)| == q.capacity && req.clusterID !in Clusters(q.ch)
  {
    if !accepted {
      assert forall r | r in q.ch :: r in Held(q);
      assert DistinctClusters(q.ch) by {
        forall i, j | 0 <= i < j < |q.ch| ensures q.ch[i].clusterID != q.ch[j].clusterID {
          var off := |Held(q)| - |q.ch|;
          assert Held(q)[off + i] == q.ch[i] && Held(q)[off + j] == q.ch[j];
        }
      }
      DistinctClustersCount(q.ch);
    }
  }

  lemma {:induction false} DistinctClustersCount(rs: seq<Request>)
    requires DistinctClusters(rs)
    ensures |Clusters(rs)| == |rs|
  {
    if rs != [] {
      DistinctClustersCount(rs[1..]);
      ClustersOfHead(rs);
    }
  }

  lemma ClustersOfHead(rs: seq<Request>)
    requires rs != [] && DistinctClusters(rs)
    ensures Clusters(rs) == {rs[0].clusterID} + Clusters(rs[1..])
    ensures rs[0].clusterID !in Clusters(rs[1..])
  {
    assert rs == [rs[0]] + rs[1..];
  }

  lemma ReceiveKeepsValid(q: QueueState, q': QueueState)
    requires Valid(q) && Received(q, q')
    ensures Valid(q')
  {
    assert Held(q') == Held(q);
    assert forall c :: Waiting(q', c) ==> Waiting(q, c);
  }

  lemma MarkDoneKeepsValid(q: QueueState, q': QueueState)
    requires Valid(q) && MarkedDone(q, q')
    ensures Valid(q')
  {
    var c := q.working.value.clusterID;
    var freed := q.(working := None, inflight := q.inflight - {c});
    FreedIsConsistent(q, freed);
    DispatchedIsValid(freed, q');
  }

  lemma FreedIsConsistent(q: QueueState, freed: QueueState)
    requires Consistent(q) && q.working.Some?
    requires freed == q.(working := None, inflight := q.inflight - {q.working.value.clusterID})
    ensures Consistent(freed)
  {
    assert Held(q) == [q.working.value] + Held(freed);
    assert Held(q)[0] == q.working.value;
    assert forall i | 0 <= i < |Held(freed)| :: Held(q)[i + 1] == Held(freed)[i];
    assert forall r | r in Held(freed) :: r.clusterID != q.working.value.clusterID;
  }

  /** With nothing in flight nothing is pending. */
  lemma IdleQueueHasNoPending(q: QueueState)
    requires Valid(q) && q.inflight == {}
    ensures q.ch == [] && q.working.None? && q.pending == map[]
  {
    DistinctClustersCount(Held(q));
    if c :| c in q.pending {
      assert Waiting(q, c);
    }
  }

  /** A waiting request implies that as many requests as the channel holds are
      dispatched and unfinished, so at least one other cluster is in flight. */
  lemma WaitingImpliesOthersInFlight(q: QueueState, c: string)
    requires Valid(q) && Waiting(q, c)
    ensures |q.inflight| >= q.capacity >= 1
    ensures c !in q.inflight
  {
    DistinctClustersCount(Held(q));
  }

  // ------------------------------------------- where requests are and how they move

  ghost predicate InQueue(q: QueueState, r: Request) {
    r in q.ch || (r.clusterID in q.pending && q.pending[r.clusterID] == r)
  }

  /** A coalesced request is newer than the one its cluster has in the channel. */
  ghost predicate NewestPending(q: QueueState) {
    forall r | r in q.ch && r.clusterID in q.pending :: r.generation < q.pending[r.clusterID].generation
  }

  /** A dispatch moves requests but neither loses nor invents one. */
  lemma DispatchConserves(q: QueueState, q': QueueState)
    requires Consistent(q) && Dispatched(q, q')
    ensures forall r :: InQueue(q', r) <==> InQueue(q, r)
    ensures NewestPending(q) ==> NewestPending(q')
  {
    var moved := q'.ch[|q.ch|..];
    assert q'.ch == q.ch + moved;
    forall r | InQueue(q, r) ensures InQueue(q', r) {
      if r !in q.ch && r.clusterID in Clusters(moved) {
        var m :| m in moved && m.clusterID == r.clusterID;
        assert m == r;
      }
    }
  }

  /** An accepted request is in the queue; it replaces at most an older pending one
      of its own cluster. */
  lemma EnqueueConserves(q: QueueState, req: Request, accepted: bool, q': QueueState)
    requires Valid(q) && Enqueued(q, req, accepted, q')
    requires NewestPending(q)
    requires forall r | r in q.ch && r.clusterID == req.clusterID :: r.generation < req.generation
    ensures NewestPending(q')
    ensures accepted ==> InQueue(q', req)
    ensures forall r | InQueue(q', r) :: InQueue(q, r) || (accepted && r == req)
    ensures forall r | InQueue(q, r) :: InQueue(q', r) || (accepted && r.clusterID == req.clusterID && r !in q.ch)
  {
    var c := req.clusterID;
    var coalesced := q.(pending := q.pending[c := req]);
    CoalescedConserves(q, req, coalesced);
    if c !in q.inflight && c in q.pending {
      DispatchConserves(coalesced, q');
    } else if c !in q.inflight && accepted {
      assert c !in q'.pending;
    }
  }

  lemma CoalescedConserves(q: QueueState, req: Request, coalesced: QueueState)
    requires Consistent(q) && coalesced == q.(pending := q.pending[req.clusterID := req])
    requires NewestPending(q)
    requires forall r | r in q.ch && r.clusterID == req.clusterID :: r.generation < req.generation
    ensures Consistent(coalesced) && NewestPending(coalesced) && InQueue(coalesced, req)
    ensures forall r | InQueue(coalesced, r) :: InQueue(q, r) || r == req
    ensures forall r | InQueue(q, r) :: InQueue(coalesced, r) || (r.clusterID == req.clusterID && r !in q.ch)
  {
    assert Held(coalesced) == Held(q);
  }

  lemma MarkDoneConserves(q: QueueState, q': QueueState)
    requires Valid(q) && MarkedDone(q, q')
    ensures forall r :: InQueue(q', r) <==> InQueue(q, r)
    ensures NewestPending(q) ==> NewestPending(q')
  {
    var c := q.working.value.clusterID;
    var freed := q.(working := None, inflight := q.inflight - {c});
    FreedIsConsistent(q, freed);
    DispatchConserves(freed, q');
  }

  // ------------------------------------------------------------------- the class

  class Queue {
    const capacity: nat
    var ch: seq<Request>
    var pending: map<string, Request>
    var inflight: set<string>
    ghost var working: Option<Request>

    ghost function State(): QueueState
      reads this
    {
      QueueState(capacity, ch, pending, inflight, working)
    }

    constructor (requested: int)
      ensures Valid(State()) && ch == [] && pending == map[] && working.None?
      ensures capacity == if requested <= 0 then 16 else requested
    {
      capacity := if requested <= 0 then 16 else requested;
      ch, pending, inflight, working := [], map[], {}, None;
    }

    method Enqueue(req: Request) returns (accepted: bool)
      requires Valid(State())
      modifies this
      ensures Valid(State())
      ensures Enqueued(old(State()), req, accepted, State())
    {
      ghost var before := State();
      if req.clusterID in inflight {
        pending := pending[req.clusterID := req];
        accepted := true;
      } else if req.clusterID in pending {
        pending := pending[req.clusterID := req];
        assert Held(State()) == Held(before);
        DispatchPendingLocked();
        accepted := true;
      } else if |ch| < capacity {
        ch := ch + [req];
        inflight := inflight + {req.clusterID};
        accepted := true;
      } else {
        accepted := false;
      }
      EnqueueKeepsValid(before, req, accepted, State());
    }

    /** The worker's receive from the channel. */
    method Receive() returns (req: Request)
      requires Valid(State()) && working.None? && ch != []
      modifies this
      ensures Valid(State()) && Received(old(State()), State()) && working == Some(req)
    {
      ghost var before := State();
      req := ch[0];
      ch := ch[1..];
      working := Some(req);
      ReceiveKeepsValid(before, State());
    }

    method MarkDone(clusterID: string)
      requires Valid(State()) && working.Some? && working.value.clusterID == clusterID
      modifies this
      ensures Valid(State()) && MarkedDone(old(State()), State())
    {
      ghost var before := State();
      inflight := inflight - {clusterID};
      working := None;
      DispatchPendingLocked();
      MarkDoneKeepsValid(before, State());
    }

    method DispatchPendingLocked()
      requires |ch| <= capacity
      requires forall c | c in pending :: pending[c].clusterID == c
      modifies this
      ensures Dispatched(old(State()), State())
    {
      var more := true;
      while more
        invariant Promoted(old(State()), State())
        invariant forall c | c in pending :: pending[c].clusterID == c
        invariant !more ==> |ch| == capacity || forall c :: !Waiting(State(), c)
        decreases more, |pending|
      {
        ghost var before := State();
        ghost var c;
        more, c := PromoteOne();
        if more {
          PromoteOneMore(old(State()), before, c, State());
        }
      }
    }

    /** One walk over `pending` in an unspecified order, up to the first promotion. */
    method PromoteOne() returns (dispatched: bool, ghost chosen: string)
      requires |ch| <= capacity
      requires forall c | c in pending :: pending[c].clusterID == c
      modifies this
      ensures dispatched ==> PromotedOne(old(State()), chosen, State()) && |pending| < |old(pending)|
      ensures !dispatched ==> State() == old(State())
      ensures !dispatched ==> |ch| == capacity || forall c :: !Waiting(State(), c)
    {
      var todo := pending.Keys;
      dispatched, chosen := false, "";
      while todo != {}
        invariant todo <= pending.Keys
        invariant State() == old(State())
        invariant forall c | c in pending && c !in todo :: c in inflight
        decreases todo
      {
        var c :| c in todo;
        todo := todo - {c};
        if c !in inflight {
          if |ch| < capacity {
            ghost var keys := pending.Keys;
            ch := ch + [pending[c]];
            pending := pending - {c};
            inflight := inflight + {c};
            assert keys == pending.Keys + {c};
            return true, c;
          } else {
            return;
          }
        }
      }
    }

    method Depth() returns (depth: nat)
      requires Valid(State())
      ensures depth == |Held(State())| + |pending|
    {
      DistinctClustersCount(Held(State()));
      depth := |pending| + |inflight|;
    }
  }

  lemma PromoteOneMore(q: QueueState, mid: QueueState, c: string, q': QueueState)
    requires Promoted(q, mid) && PromotedOne(mid, c, q')
    ensures Promoted(q, q')
  {
    var moved, moved' := mid.ch[|q.ch|..], q'.ch[|q.ch|..];
    assert moved' == moved + [mid.pending[c]];
    assert Clusters(moved') == Clusters(moved) + {c};
    assert q'.pending == q.pending - Clusters(moved');
  }
}
