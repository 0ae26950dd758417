/** The coalescing event queue of mali_kbase_event.c. */
module EventQueue {
  import opened Sequences
  import opened JdState

  /** A reportable event in the order of posting. */
  datatype Entry = Entry(atom: Id, coalesced: bool)

  /** What a dequeue tells user space: no event yet, the end of the context, or an event. */
  datatype Dequeued = NoEvent | DrvTerminated | Event(code: nat, atom: Id)

  /** How many of the posted events user space may see: an event posted with the coalesce
      flag stays hidden until one without it follows. */
  ghost function Visible(log: seq<Entry>): (n: nat)
    ensures n <= |log|
  {
    if log == [] then 0
    else if !log[|log| - 1].coalesced then |log|
    else Visible(log[..|log| - 1])
  }

  ghost function Atoms(log: seq<Entry>): (r: seq<Id>)
    ensures |r| == |log|
    ensures forall i :: 0 <= i < |log| ==> r[i] == log[i].atom
  {
    seq(|log|, i requires 0 <= i < |log| => log[i].atom)
  }

  /** An event is hidden exactly when it and all later ones carry the coalesce flag. */
  lemma {:induction false} HiddenIffTrailing(log: seq<Entry>, i: nat)
    requires i < |log|
    ensures i >= Visible(log) <==> forall j :: i <= j < |log| ==> log[j].coalesced
  {
    var n := |log| - 1;
    if log[n].coalesced && i < n {
      HiddenIffTrailing(log[..n], i);
      assert forall j :: i <= j < n ==> log[..n][j] == log[j];
    }
  }

  class EventContext {
    var status: seq<Status>
    var req: seq<Req>
    var coalesce: seq<bool>
    var code: seq<nat>
    var eventList: seq<Id>
    var coalesceList: seq<Id>
    var eventCount: int
    var coalesceCount: int
    var closed: bool
    /** atoms whose unreported event is still to be processed by the work queue */
    var work: seq<Id>
    ghost var posted: seq<Entry>
    ghost var delivered: seq<Id>

    /** kbase_event_init, for a context with these atoms. */
    constructor (st: seq<Status>, rq: seq<Req>, co: seq<bool>, cd: seq<nat>)
      requires |st| == ATOM_COUNT && |rq| == ATOM_COUNT && |co| == ATOM_COUNT && |cd| == ATOM_COUNT
      ensures Valid() && posted == [] && delivered == [] && work == [] && !closed
      ensures status == st && req == rq && coalesce == co && code == cd
    {
      status, req, coalesce, code := st, rq, co, cd;
      eventList, coalesceList, eventCount, coalesceCount := [], [], 0, 0;
      closed, work, posted, delivered := false, [], [], [];
    }

    ghost predicate Sized()
      reads this
    {
      |status| == ATOM_COUNT && |req| == ATOM_COUNT && |coalesce| == ATOM_COUNT && |code| == ATOM_COUNT
    }

    ghost function Queued(): seq<Id>
      reads this
    {
      eventList + coalesceList + work
    }

    ghost predicate Counters()
      reads this
    {
      eventCount == |eventList| && coalesceCount == |coalesceList|
    }

    /** Every list node belongs to one completed atom, and is on one list once. */
    ghost predicate Nodes()
      reads this
      requires Sized()
    {
      NoDup(Queued()) && forall a :: a in Queued() ==> status[a] == Completed
    }

    ghost predicate Valid()
      reads this
    {
      && Sized() && Counters() && Nodes()
      && delivered + eventList == Atoms(posted)[..Visible(posted)]
      && coalesceList == Atoms(posted)[Visible(posted)..]
    }

    /** Delivered, listed and coalesced events together are the posted ones, in order. */
    lemma Fifo()
      requires Valid()
      ensures delivered + eventList + coalesceList == Atoms(posted)
    {
      assert delivered + eventList + coalesceList == (delivered + eventList) + coalesceList;
    }

    /** kbase_event_process: the atom number becomes free. */
    method Process(a: Id)
      requires Sized() && status[a] == Completed
      modifies this`status
      ensures status == old(status)[a := Unused]
    {
      status := status[a := Unused];
    }

    method ProcessNoreport(a: Id)
      requires Sized() && status[a] == Completed
      modifies this`status, this`work
      ensures status == (if req[a].extRes then old(status) else old(status)[a := Unused])
      ensures work == (if req[a].extRes then old(work) + [a] else old(work))
    {
      if req[a].extRes {
        work := work + [a];
      } else {
        Process(a);
      }
    }

    /** The work item of an unreported atom runs. */
    method NoreportWorker()
      requires Valid() && work != []
      modifies this`status, this`work
      ensures Valid() && work == old(work)[1..] && status == old(status)[old(work)[0] := Unused]
    {
      var a := work[0];
      assert Queued()[|eventList| + |coalesceList|] == a;
      work := work[1..];
      Process(a);
      assert Queued() == old(Queued())[..|eventList| + |coalesceList|] + old(Queued())[|eventList| + |coalesceList| + 1..];
    }

    method Coalesce() returns (moved: int)
      requires Counters()
      modifies this`eventList, this`coalesceList, this`coalesceCount
      ensures eventList == old(eventList) + old(coalesceList) && coalesceList == [] && coalesceCount == 0
      ensures moved == |old(coalesceList)|
    {
      moved := coalesceCount;
      eventList, coalesceList := eventList + coalesceList, [];
      coalesceCount := 0;
    }

    /** The event of a is hidden until an uncoalesced one follows. */
    method PostCoalesced(a: Id)
      requires Valid() && status[a] == Completed && a !in Queued() && coalesce[a]
      modifies this`coalesceList, this`coalesceCount, this`posted
      ensures Valid() && posted == old(posted) + [Entry(a, true)]
    {
      posted := posted + [Entry(a, true)];
      HiddenExtends(old(posted), a);
      coalesceList := coalesceList + [a];
      coalesceCount := coalesceCount + 1;
      assert Queued() == old(eventList + coalesceList) + [a] + work;
      InsertNoDup(old(eventList + coalesceList), a, work);
    }

    /** The event of a makes itself and all hidden ones visible. */
    method PostVisible(a: Id)
      requires Valid() && status[a] == Completed && a !in Queued() && !coalesce[a]
      modifies this`eventList, this`eventCount, this`coalesceList, this`coalesceCount, this`posted
      ensures Valid() && posted == old(posted) + [Entry(a, false)]
    {
      posted := posted + [Entry(a, false)];
      assert Atoms(posted) == Atoms(old(posted)) + [a];
      var moved := Coalesce();
      eventList := eventList + [a];
      eventCount := eventCount + (1 + moved);
      VisibleExtends(old(posted), delivered, old(eventList), old(coalesceList), eventList, a);
      assert Queued() == old(eventList + coalesceList) + [a] + work;
      InsertNoDup(old(eventList + coalesceList), a, work);
    }

    /** kbase_event_post */
    method Post(a: Id)
      requires Valid() && status[a] == Completed && a !in Queued()
      modifies this
      ensures Valid() && delivered == old(delivered)
      ensures req == old(req) && coalesce == old(coalesce) && code == old(code) && closed == old(closed)
      ensures var silent := req[a].report == Never || (req[a].report == OnFailure && code[a] == DONE);
              if silent then
                && posted == old(posted) && eventList == old(eventList) && coalesceList == old(coalesceList)
                && status == (if req[a].extRes then old(status) else old(status)[a := Unused])
                && work == (if req[a].extRes then old(work) + [a] else old(work))
              else
                posted == old(posted) + [Entry(a, coalesce[a])] && status == old(status) && work == old(work)
    {
      if (req[a].report == OnFailure && code[a] == DONE) || req[a].report == Never {
        ProcessNoreport(a);
        assert req[a].extRes ==> Queued() == old(Queued()) + [a];
      } else if coalesce[a] {
        PostCoalesced(a);
      } else {
        PostVisible(a);
      }
    }

    method Pending() returns (r: bool)
      requires Valid()
      ensures r <==> closed || |delivered| < Visible(posted)
    {
      assert |delivered| + |eventList| == Visible(posted);
      r := eventCount != 0 || closed;
    }

    /** kbase_event_dequeue: the oldest visible event that was not delivered yet. */
    method Dequeue() returns (r: Dequeued)
      requires Sized() && Counters() && Nodes()
      modifies this`eventList, this`eventCount, this`status, this`delivered
      ensures Sized() && Counters() && Nodes() && (old(Valid()) ==> Valid())
      ensures if old(eventList) == [] then
                && r == (if closed then DrvTerminated else NoEvent)
                && eventList == [] && delivered == old(delivered) && status == old(status)
              else
                var a := old(eventList)[0];
                && r == Event(code[a], a) && eventList == old(eventList)[1..]
                && delivered == old(delivered) + [a] && status == old(status)[a := Unused]
    {
      if eventList == [] {
        return if closed then DrvTerminated else NoEvent;
      }
      eventCount := eventCount - 1;
      var a := eventList[0];
      assert Queued()[0] == a;
      eventList := eventList[1..];
      delivered := delivered + [a];
      assert Queued() == old(Queued())[1..];
      assert delivered + eventList == old(delivered + eventList);
      r := Event(code[a], a);
      Process(a);
    }

    method Close()
      requires Valid()
      modifies this`closed
      ensures Valid() && closed
    {
      closed := true;
    }

    /** flush_workqueue: every unreported atom is processed. */
    method FlushWork()
      requires Valid()
      modifies this`status, this`work
      ensures Valid() && work == []
      ensures forall a: Id :: status[a] == if a in old(work) then Unused else old(status)[a]
    {
      while work != []
        invariant Valid()
        invariant forall a: Id :: a in work ==> a in old(work)
        invariant forall a: Id :: status[a] == if a in old(work) && a !in work then Unused else old(status)[a]
        decreases |work|
      {
        assert work == [work[0]] + work[1..];
        assert forall k :: 0 <= k < |work| ==> Queued()[|eventList| + |coalesceList| + k] == work[k];
        NoreportWorker();
      }
    }

    method DeliverAll()
      requires Sized() && Counters() && Nodes() && work == [] && coalesceList == []
      modifies this`eventList, this`eventCount, this`status, this`delivered
      ensures delivered == old(delivered + eventList) && eventList == [] && eventCount == 0 && Sized()
      ensures forall a: Id :: status[a] == if a in old(eventList) then Unused else old(status)[a]
    {
      while eventList != []
        invariant Sized() && Counters() && Nodes()
        invariant delivered + eventList == old(delivered + eventList)
        invariant forall a: Id :: a in eventList ==> a in old(eventList)
        invariant forall a: Id :: status[a] == if a in old(eventList) && a !in eventList then Unused else old(status)[a]
        decreases |eventList|
      {
        assert eventList == [eventList[0]] + eventList[1..];
        assert Queued() == eventList;
        var r := Dequeue();
      }
    }

    /** kbase_event_cleanup, the last user of the queue: nothing posted is lost, and no
        atom number stays taken. */
    method Cleanup()
      requires Valid()
      modifies this
      ensures delivered == Atoms(old(posted)) && eventList == [] && coalesceList == [] && work == []
      ensures eventCount == 0 && coalesceCount == 0
      ensures Sized() && forall a: Id :: status[a] == if a in old(Queued()) then Unused else old(status)[a]
    {
      hide Visible, NoDup;
      FlushWork();
      Gather();
      assert forall a: Id :: a in old(Queued()) <==> a in eventList || a in old(work);
      DeliverAll();
    }

    /** The coalesced events are made visible for the last time. */
    method Gather()
      requires Valid() && work == []
      modifies this`eventList, this`eventCount, this`coalesceList, this`coalesceCount
      ensures Sized() && Counters() && Nodes() && coalesceList == []
      ensures eventList == old(eventList) + old(coalesceList) && delivered + eventList == Atoms(posted)
    {
      hide Visible, Atoms;
      Fifo();
      ghost var before := Queued();
      var moved := Coalesce();
      eventCount := eventCount + moved;
      assert Queued() == before;
      assert delivered + eventList == delivered + old(eventList) + old(coalesceList);
    }
  }

  lemma HiddenExtends(log: seq<Entry>, a: Id)
    ensures var log' := log + [Entry(a, true)];
            && Visible(log') == Visible(log)
            && Atoms(log')[..Visible(log)] == Atoms(log)[..Visible(log)]
            && Atoms(log')[Visible(log)..] == Atoms(log)[Visible(log)..] + [a]
  {
    var log' := log + [Entry(a, true)];
    assert log'[..|log|] == log;
    assert Atoms(log') == Atoms(log) + [a];
  }

  lemma VisibleExtends(log: seq<Entry>, delivered: seq<Id>, listed: seq<Id>, hidden: seq<Id>, now: seq<Id>, a: Id)
    requires delivered + listed == Atoms(log)[..Visible(log)] && hidden == Atoms(log)[Visible(log)..]
    requires now == listed + hidden + [a]
    ensures delivered + now == Atoms(log) + [a]
  {
    assert delivered + now == (delivered + listed) + hidden + [a];
  }

  lemma InsertNoDup(xs: seq<Id>, a: Id, ys: seq<Id>)
    requires NoDup(xs + ys) && a !in xs + ys
    ensures NoDup(xs + [a] + ys)
  {
    var r := xs + [a] + ys;
    forall i, j | 0 <= i < j < |r|
      ensures r[i] != r[j]
    {
      var i' := if i > |xs| then i - 1 else i;
      var j' := if j > |xs| then j - 1 else j;
      if i != |xs| { assert r[i] == (xs + ys)[i']; }
      if j != |xs| { assert r[j] == (xs + ys)[j']; }
    }
  }
}
