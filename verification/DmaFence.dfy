/** The dma-fence wait of one atom: mali_kbase_fence.[ch] and mali_kbase_dma_fence.c.

    Everything runs under the context lock except the callbacks of the fences, which may
    fire at any time. Each access to the shared count, the fences and the work item is one
    atomic action, and `Interfere`, which lets other threads take any number of their own
    actions, stands wherever they may come in between two of them. */
module DmaFence {
  import opened Sequences

  /** The callback that the atom sets up on one fence. */
  type Cb = nat

  /** What becomes of adding a callback to a fence. */
  datatype AddOutcome = Registered | Signalled(status: int) | AddFailed(err: int)

  const ENOMEM: int := 12

  /** What adding a callback returns: a fence that has signalled successfully is no error. */
  ghost function ErrorOf(outcome: AddOutcome): int {
    match outcome
    case Registered => 0
    case Signalled(status) => if status == 1 then 0 else status
    case AddFailed(e) => e
  }

  /** The atom's work item, and the threads on their way to queue it: its pending mark, the runs
      of the worker that are queued and have not started, and the number of callbacks that have
      found the count at zero and not initialised the item yet. `inits` holds, by the time when
      they did, those that have initialised it and not queued it yet, and `own` the thread that
      holds the lock if it is one of them. `stale` and `staleInits` are callbacks of earlier
      waits. The clock counts the accesses to the item; it was last queued, and last initialised
      or started, at `lastQueued` and `lastCleared`. `calls` counts the calls of queue_work for
      this wait, and `warned` those that found the item marked, so that the warning fired; `fired`
      are the callbacks of this wait that have fired. */
  datatype Item = Item(
    marked: bool,
    workers: nat,
    owes: nat,
    inits: set<nat>,
    own: set<nat>,
    stale: nat,
    staleInits: set<nat>,
    clock: nat,
    lastQueued: int,
    lastCleared: int,
    calls: nat,
    warned: nat,
    fired: set<Cb>)
  {
    /** The threads of this wait that are on their way to queue the worker. */
    ghost function OnTheWay(): nat {
      owes + |inits| + |own|
    }

    /** How often this wait has called queue_work, or is about to. */
    ghost function Due(): nat {
      calls + OnTheWay()
    }

    /** No other thread has anything left to do with the item. */
    predicate Quiet() {
      owes == 0 && inits == {} && stale == 0 && staleInits == {}
    }

    /** How many actions other threads have left. */
    ghost function Left(): nat {
      2 * (owes + stale) + |inits| + |staleInits|
    }

    /** The item is marked exactly if it was queued after it was last initialised or started, and
        then a run of the worker is queued. Every thread has cleared the mark itself. */
    ghost predicate MarkRight() {
      && (marked <==> lastQueued > lastCleared) && (marked ==> workers > 0)
      && lastQueued < clock && lastCleared < clock
      && (forall t :: t in inits || t in staleInits || t in own ==> t <= lastCleared)
    }
  }

  /** The state of a wait: whether it is on, that is begun and neither handed on nor given up; 1
      while it is being set up; the callback that is registered but not yet counted; 1 while a
      callback has been removed but not yet counted off; when it began, and whether no callback
      of an earlier one was left by then; how often the atom was handed on since; and in how many
      windows all callbacks that were pending have fired. */
  datatype WaitState = WaitState(
    active: bool,
    guard: nat,
    window: set<Cb>,
    taken: nat,
    since: nat,
    clean: bool,
    handed: nat,
    emptied: nat)

  // -------------------------------------------------------------- invariants

  /** dep_count is the guard, the pending callbacks and the one being removed, less the one in the
      window. */
  ghost predicate CountRight(depCount: int, pending: set<Cb>, w: WaitState) {
    && (w.active ==> depCount == w.guard + |pending| + w.taken - |w.window| && w.handed == 0)
    && (!w.active ==> depCount == -1 && pending == {} && w.window == {} && w.guard == 0 && w.taken == 0)
    && w.guard <= 1 && |w.window| <= w.guard && w.taken + |w.window| <= 1 && w.handed <= 1
  }

  ghost predicate Listed(callbacks: seq<Cb>, pending: set<Cb>, w: WaitState) {
    NoDup(callbacks) && forall cb :: cb in pending ==> cb in callbacks || cb in w.window
  }

  /** The set-up is over and the count is down to zero. */
  ghost predicate DownToZero(depCount: int, w: WaitState) {
    w.active && w.guard == 0 && depCount == 0
  }

  /** Then the worker is queued, or a thread is about to queue it, or the thread that holds the
      lock will see to it. */
  ghost predicate Awake(depCount: int, w: WaitState, item: Item, owed: bool) {
    DownToZero(depCount, w) ==> item.workers > 0 || item.OnTheWay() > 0 || owed
  }

  /** queue_work is called once for each window in which all pending callbacks have fired, and once
      more when the count is down to zero after the set-up; `last` says that a removal has taken
      the last count and nobody is on the way for that yet. */
  ghost predicate CallsRight(depCount: int, pending: set<Cb>, w: WaitState, item: Item, last: bool) {
    && (w.active ==>
          item.Due() == w.emptied + if (w.window != {} && pending == {}) || (DownToZero(depCount, w) && !last) then 1 else 0)
    && (!w.active ==> w.emptied <= item.Due() <= w.emptied + 1)
    && (w.active && last ==> DownToZero(depCount, w))
  }

  /** Unless callbacks of an earlier wait are left, the first call queues the worker. */
  ghost predicate WarnedRight(w: WaitState, item: Item) {
    && w.since <= item.clock && item.warned <= item.calls
    && (forall t :: t in item.inits || t in item.own ==> w.since <= t)
    && (w.clean ==>
          && item.stale == 0 && item.staleInits == {}
          && (item.calls == 0 ==> item.lastQueued < w.since)
          && (item.calls > 0 ==> item.warned < item.calls))
  }

  /** The three about the work item. */
  ghost predicate ItemRight(depCount: int, pending: set<Cb>, w: WaitState, item: Item, owed: bool, last: bool) {
    && Awake(depCount, w, item, owed) && CallsRight(depCount, pending, w, item, last)
    && item.MarkRight() && WarnedRight(w, item)
  }

  class FenceWait {
    var depCount: int
    /** the callbacks set up on fences that have neither fired nor been removed */
    var pending: set<Cb>
    /** the atom's own list of callbacks */
    var callbacks: seq<Cb>
    /** whether the atom is on the context's list of waiting atoms */
    var waiting: bool
    var item: Item
    ghost var wait: WaitState

    /** The invariant at every moment. */
    ghost predicate Safe(owed: bool := false, last: bool := false)
      reads this`depCount, this`pending, this`callbacks, this`item, this`wait
    {
      CountRight(depCount, pending, wait) && Listed(callbacks, pending, wait)
      && ItemRight(depCount, pending, wait, item, owed, last)
    }

    /** The invariant whenever the context lock is free; `lost` says that the wait has lost its
        last callback to a removal after which nobody has queued the worker. */
    ghost predicate Free(lost: bool)
      reads this
    {
      && Safe(lost, lost) && wait.guard == 0 && wait.taken == 0 && item.own == {} && (waiting <==> wait.active)
      && (!wait.active ==> callbacks == [] && !lost)
    }

    ghost predicate Valid()
      reads this
    {
      Free(false)
    }

    /** A wait is being set up, and no callback is between registration and counting. */
    ghost predicate SettingUp()
      reads this
    {
      && Safe() && wait.active && wait.guard == 1 && wait.taken == 0 && wait.window == {} && !waiting && item.own == {}
    }

    constructor ()
      ensures Valid() && !wait.active && wait.handed == 0 && item == Item(false, 0, 0, {}, {}, 0, {}, 0, -1, -1, 0, 0, {})
    {
      depCount, pending, callbacks, waiting := -1, {}, [], false;
      item := Item(false, 0, 0, {}, {}, 0, {}, 0, -1, -1, 0, 0, {});
      wait := WaitState(false, 0, {}, 0, 0, true, 0, 0);
    }

    // --------------------------------------------------------- the work item

    /** INIT_WORK, the first half of kbase_dma_fence_queue_work: the mark is cleared, even if the
        item is on the queue. */
    method InitWork() returns (time: nat)
      modifies this`item
      ensures time == old(item).clock
      ensures item == old(item).(marked := false, clock := time + 1, lastCleared := time)
    {
      time := item.clock;
      item := item.(marked := false, clock := time + 1, lastCleared := time);
    }

    /** queue_work, the second half, by a thread that has initialised the item at this time. It is
        refused, and the warning fires, exactly if the item was queued and neither initialised
        nor started since; then another thread has queued it since this one has initialised it. */
    method Enqueue(time: nat) returns (ret: bool)
      requires item.MarkRight() && time <= item.lastCleared
      modifies this`item
      ensures !ret <==> old(item).lastQueued > old(item).lastCleared
      ensures !ret ==> old(item).lastQueued > time && item.workers > 0
      ensures item == old(item).(marked := true, workers := old(item).workers + (if ret then 1 else 0),
                                 clock := old(item).clock + 1, lastQueued := old(item).clock)
    {
      ret := !item.marked;
      if ret {
        item := item.(marked := true, workers := item.workers + 1);
      }
      item := item.(clock := item.clock + 1, lastQueued := item.clock);
    }

    // --------------------------------------------------------- the callback

    /** kbase_dma_fence_cb: a fence signals, and the count goes down by one. It happens at any
        time, without the lock. If it finds zero it goes on to queue the worker. */
    method CallbackCounts(cb: Cb, ghost owed: bool := false, ghost last: bool := false)
      requires Safe(owed, last) && cb in pending
      modifies this`depCount, this`pending, this`item
      ensures Safe(owed, last) && pending == old(pending) - {cb} && depCount == old(depCount) - 1
      ensures item == old(item).(owes := old(item).owes + (if depCount == 0 then 1 else 0),
                                 fired := old(item).fired + {cb})
    {
      pending := pending - {cb};
      item := item.(fired := item.fired + {cb});
      depCount := depCount - 1;
      if depCount == 0 {
        item := item.(owes := item.owes + 1);
      }
    }

    /** It initialises the work item ... */
    method CallbackInits(ghost owed: bool := false, ghost last: bool := false) returns (time: nat)
      requires Safe(owed, last) && item.owes > 0
      modifies this`item
      ensures Safe(owed, last) && time !in old(item).inits && time == old(item).clock
      ensures item == old(item).(owes := old(item).owes - 1, inits := old(item).inits + {time}, marked := false,
                                 clock := time + 1, lastCleared := time)
    {
      hide CountRight, Listed;
      time := InitWork();
      item := item.(owes := item.owes - 1, inits := item.inits + {time});
    }

    /** ... and queues it; or the warning fires. */
    method CallbackQueues(time: nat, ghost owed: bool := false, ghost last: bool := false) returns (ret: bool)
      requires Safe(owed, last) && time in item.inits
      modifies this`item
      ensures Safe(owed, last)
      ensures (!ret <==> old(item).lastQueued > old(item).lastCleared) && (!ret ==> old(item).lastQueued > time)
      ensures item == old(item).(inits := old(item).inits - {time}, marked := true,
                                 workers := old(item).workers + (if ret then 1 else 0),
                                 clock := old(item).clock + 1, lastQueued := old(item).clock,
                                 calls := old(item).calls + 1, warned := old(item).warned + if ret then 0 else 1)
    {
      hide CountRight, Listed;
      ret := Enqueue(time);
      item := item.(inits := item.inits - {time}, calls := item.calls + 1,
                    warned := item.warned + if ret then 0 else 1);
    }

    /** The same two actions of a callback of an earlier wait. */
    method StaleInits(ghost owed: bool := false, ghost last: bool := false)
      requires Safe(owed, last) && item.stale > 0
      modifies this`item
      ensures Safe(owed, last) && item.Left() < old(item).Left() && item.Due() == old(item).Due()
      ensures item.workers == old(item).workers && item.own == old(item).own && item.fired == old(item).fired
    {
      hide CountRight, Listed;
      var time := InitWork();
      item := item.(stale := item.stale - 1, staleInits := item.staleInits + {time});
    }

    method StaleQueues(time: nat, ghost owed: bool := false, ghost last: bool := false)
      requires Safe(owed, last) && time in item.staleInits
      modifies this`item
      ensures Safe(owed, last) && item.Left() < old(item).Left() && item.Due() == old(item).Due()
      ensures item.workers >= old(item).workers && item.own == old(item).own && item.fired == old(item).fired
    {
      hide CountRight, Listed;
      var ret := Enqueue(time);
      item := item.(staleInits := item.staleInits - {time});
    }

    /** One pending callback fires. */
    method FireOne(ghost owed: bool, ghost last: bool)
      requires Safe(owed, last) && pending != {}
      modifies this`depCount, this`pending, this`item
      ensures Safe(owed, last) && pending <= old(pending) && depCount <= old(depCount)
      ensures item.own == old(item).own && item.workers == old(item).workers
      ensures old(item).fired <= item.fired && pending + item.fired == old(pending) + old(item).fired
      ensures 3 * |pending| + item.Left() < old(3 * |pending| + item.Left())
    {
      hide Safe;
      var cb :| cb in pending;
      CallbackCounts(cb, owed, last);
    }

    /** One thread on its way to queue the worker, of this wait or an earlier one, goes a step further. */
    method QueueOne(ghost owed: bool, ghost last: bool)
      requires Safe(owed, last) && !item.Quiet()
      modifies this`item
      ensures Safe(owed, last) && item.Left() < old(item).Left() && item.Due() == old(item).Due()
      ensures item.own == old(item).own && item.workers >= old(item).workers && item.fired == old(item).fired
    {
      hide Safe;
      var choice: nat := *;
      if item.owes > 0 && (choice == 0 || item.(owes := 0).Quiet()) {
        var time := CallbackInits(owed, last);
      } else if item.stale > 0 && (choice == 1 || (item.inits == {} && item.staleInits == {})) {
        StaleInits(owed, last);
      } else if item.inits != {} && (choice == 2 || item.staleInits == {}) {
        var time :| time in item.inits;
        var ret := CallbackQueues(time, owed, last);
      } else {
        var time :| time in item.staleInits;
        StaleQueues(time, owed, last);
      }
    }

    /** One action of another thread. */
    method OtherAction(ghost owed: bool, ghost last: bool)
      requires Safe(owed, last) && (pending != {} || !item.Quiet())
      modifies this`depCount, this`pending, this`item
      ensures Safe(owed, last) && pending <= old(pending) && depCount <= old(depCount)
      ensures item.own == old(item).own && item.workers >= old(item).workers
      ensures old(item).fired <= item.fired && pending + item.fired == old(pending) + old(item).fired
      ensures old(pending) == {} ==> depCount == old(depCount) && item.Due() == old(item).Due()
      ensures 3 * |pending| + item.Left() < old(3 * |pending| + item.Left())
    {
      hide Safe, Item.Due, Item.Left;
      var fire: bool := *;
      if pending != {} && (fire || item.Quiet()) {
        FireOne(owed, last);
      } else {
        QueueOne(owed, last);
      }
    }

    /** Other threads: any of the pending callbacks fire, in any order, and any of those that have
        found the count at zero go on to queue the worker. */
    method Interfere(ghost owed: bool := false, ghost last: bool := false)
      requires Safe(owed, last)
      modifies this`depCount, this`pending, this`item
      ensures Safe(owed, last) && pending <= old(pending) && depCount <= old(depCount)
      ensures item.own == old(item).own && item.workers >= old(item).workers
      ensures old(item).fired <= item.fired && pending + item.fired == old(pending) + old(item).fired
      ensures old(pending) == {} ==> depCount == old(depCount) && item.Due() == old(item).Due()
      ensures old(pending) == {} && old(item).Quiet() ==> item == old(item)
    {
      hide Safe, Item.Due, Item.Left;
      var more: bool := *;
      while more && (pending != {} || !item.Quiet())
        invariant Safe(owed, last) && pending <= old(pending) && depCount <= old(depCount)
        invariant item.own == old(item).own && item.workers >= old(item).workers
        invariant old(item).fired <= item.fired && pending + item.fired == old(pending) + old(item).fired
        invariant old(pending) == {} ==> depCount == old(depCount) && item.Due() == old(item).Due()
        invariant old(pending) == {} && old(item).Quiet() ==> item == old(item)
        decreases 3 * |pending| + item.Left()
      {
        OtherAction(owed, last);
        more := *;
      }
    }

    // ------------------------------------------------------ setting up a wait

    /** The wait begins: dep_count is set to the guard. Callbacks of earlier waits may be left. */
    method Begin()
      requires Valid() && !wait.active
      modifies this`depCount, this`item, this`wait
      ensures SettingUp() && pending == {} && callbacks == [] && depCount == 1
      ensures item == old(item).(calls := 0, warned := 0, owes := 0, inits := {}, fired := {},
                                 stale := old(item).stale + old(item).owes,
                                 staleInits := old(item).staleInits + old(item).inits)
      ensures wait == WaitState(true, 1, {}, 0, item.clock, item.stale == 0 && item.staleInits == {}, 0, 0)
    {
      depCount := 1;
      item := item.(calls := 0, warned := 0, owes := 0, inits := {}, fired := {},
                    stale := item.stale + item.owes, staleInits := item.staleInits + item.inits);
      wait := WaitState(true, 1, {}, 0, item.clock, item.stale == 0 && item.staleInits == {}, 0, 0);
    }

    /** dma_fence_add_callback: from now on the callback may fire. */
    method Register(cb: Cb)
      requires SettingUp() && cb !in callbacks && cb !in pending
      modifies this`pending, this`wait
      ensures Safe() && pending == old(pending) + {cb} && wait == old(wait).(window := {cb})
    {
      pending := pending + {cb};
      wait := wait.(window := {cb});
    }

    /** The callback is counted and put on the list, which closes its window. It may have fired
        already, and so may all others. */
    method Increment(cb: Cb)
      requires Safe() && wait.active && wait.guard == 1 && wait.window == {cb} && cb !in callbacks
      modifies this`depCount, this`callbacks, this`wait
      ensures Safe() && callbacks == [cb] + old(callbacks) && depCount == old(depCount) + 1
      ensures wait == old(wait).(window := {}, emptied := old(wait).emptied + if pending == {} then 1 else 0)
    {
      hide Item.MarkRight, Item.OnTheWay;
      depCount := depCount + 1;
      callbacks := [cb] + callbacks;
      wait := wait.(window := {}, emptied := wait.emptied + if pending == {} then 1 else 0);
    }

    /** kbase_fence_add_callback. A fence that has signalled before needs no callback. */
    method AddCallback(cb: Cb, outcome: AddOutcome) returns (err: int)
      requires SettingUp() && cb !in callbacks && cb !in pending
      modifies this`depCount, this`pending, this`callbacks, this`item, this`wait
      ensures SettingUp() && callbacks == (if outcome.Registered? then [cb] + old(callbacks) else old(callbacks))
      ensures pending + item.fired == old(pending) + old(item).fired + if outcome.Registered? then {cb} else {}
      ensures match outcome
              case Registered => err == 0
              case Signalled(status) => err == if status == 1 then 0 else status
              case AddFailed(e) => err == e
    {
      hide Safe;
      Interfere();
      match outcome
      case Registered =>
        Register(cb);
        Interfere();
        Increment(cb);
        Interfere();
        err := 0;
      case Signalled(status) =>
        err := if status == 1 then 0 else status;
      case AddFailed(e) =>
        err := e;
    }

    // ------------------------------------------------------------- cleaning up

    /** dma_fence_remove_callback: a callback that has not fired never will. */
    method Remove(cb: Cb, ghost last: bool) returns (removed: bool)
      requires Safe(last, last) && wait.window == {} && wait.taken == 0
      modifies this`pending, this`wait
      ensures Safe(last, last) && removed == (cb in old(pending)) && pending == old(pending) - {cb}
      ensures wait == old(wait).(taken := if removed then 1 else 0)
    {
      hide Item.MarkRight, Item.OnTheWay;
      removed := cb in pending;
      if removed {
        pending := pending - {cb};
        wait := wait.(taken := 1);
      }
    }

    /** atomic_dec_return, for a callback that has been removed. */
    method CountOff(ghost last: bool) returns (zero: bool)
      requires Safe(last, last) && wait.window == {} && wait.taken == 1
      modifies this`depCount, this`wait
      ensures Safe(last || zero, last || zero) && depCount == old(depCount) - 1 && wait == old(wait).(taken := 0)
      ensures zero <==> depCount == 0
      ensures zero ==> wait.active && wait.guard == 0 && !last
    {
      hide Item.MarkRight, Item.OnTheWay;
      depCount := depCount - 1;
      wait := wait.(taken := 0);
      zero := depCount == 0;
    }

    /** list_del and kfree, for the first callback. */
    method Unlist(ghost last: bool)
      requires Safe(last, last) && callbacks != [] && callbacks[0] !in pending
      modifies this`callbacks
      ensures Safe(last, last) && callbacks == old(callbacks)[1..]
    {
      hide CountRight, ItemRight;
      callbacks := callbacks[1..];
    }

    lemma NothingLeft(last: bool)
      requires Safe(last, last) && wait.window == {} && wait.taken == 0 && callbacks == []
      ensures pending == {} && (wait.active ==> depCount == wait.guard)
    {
      hide ItemRight;
    }

    /** kbase_fence_free_callbacks. When it returns, no callback will fire any more. The result
        tells that it was a removal, and not a callback, that took the last count. */
    method FreeCallbacks(ghost lost: bool := false) returns (res: bool)
      requires Safe(lost, lost) && wait.window == {} && wait.taken == 0
      modifies this`depCount, this`pending, this`callbacks, this`item, this`wait
      ensures Safe(lost || res, lost || res) && pending == {} && callbacks == [] && wait == old(wait)
      ensures item.own == old(item).own && (wait.active ==> depCount == wait.guard)
      ensures old(item).fired <= item.fired <= old(pending) + old(item).fired
      ensures res ==> wait.active && wait.guard == 0 && old(depCount) > 0
      ensures old(pending) == {} ==> depCount == old(depCount) && item.Due() == old(item).Due()
    {
      hide Safe, Item.Due;
      res := false;
      while callbacks != []
        invariant Safe(lost || res, lost || res) && wait == old(wait) && depCount <= old(depCount)
        invariant res ==> wait.active && wait.guard == 0 && old(depCount) > 0
        invariant item.own == old(item).own && pending <= old(pending)
        invariant old(item).fired <= item.fired && pending + item.fired <= old(pending) + old(item).fired
        invariant old(pending) == {} ==> depCount == old(depCount) && item.Due() == old(item).Due()
        decreases |callbacks|
      {
        Interfere(lost || res, lost || res);
        var removed := Remove(callbacks[0], lost || res);
        if removed {
          Interfere(lost || res, lost || res);
          var zero := CountOff(lost || res);
          res := res || zero;
        }
        Interfere(lost || res, lost || res);
        Unlist(lost || res);
      }
      NothingLeft(lost || res);
    }

    /** kbase_dma_fence_queue_work by the thread that holds the lock, for a count that it has taken
        to zero. */
    method QueueWork()
      requires Safe(true, true) && wait.active && item.own == {}
      modifies this`depCount, this`pending, this`item
      ensures Safe() && item.own == {} && pending <= old(pending) && depCount <= old(depCount) && item.workers > 0
    {
      hide Safe;
      var time := OwnInit();
      Interfere();
      var ret := OwnEnqueue(time);
    }

    method OwnInit() returns (time: nat)
      requires Safe(true, true) && wait.active && item.own == {}
      modifies this`item
      ensures Safe() && item.own == {time}
    {
      hide Listed;
      time := InitWork();
      item := item.(own := {time});
    }

    method OwnEnqueue(time: nat) returns (ret: bool)
      requires Safe() && item.own == {time}
      modifies this`item
      ensures Safe() && item.own == {} && item.workers > 0
    {
      hide CountRight, Listed;
      ret := Enqueue(time);
      item := item.(own := {}, calls := item.calls + 1, warned := item.warned + if ret then 0 else 1);
    }

    /** kbase_dma_fence_cancel_callbacks: a failing predecessor ends the wait early. */
    method CancelCallbacks()
      requires Valid()
      modifies this`depCount, this`pending, this`callbacks, this`item, this`wait
      ensures Valid() && pending == {} && callbacks == [] && wait == old(wait)
      ensures wait.active ==> depCount == 0 && (item.workers > 0 || item.OnTheWay() > 0)
    {
      hide Listed, CallsRight, Item.MarkRight, WarnedRight;
      var res := FreeCallbacks();
      Interfere(res, res);
      if res {
        QueueWork();
      }
      NothingLeft(false);
    }

    /** The guard is dropped; the result tells that nothing is left to wait for. */
    method DropGuard() returns (zero: bool)
      requires SettingUp()
      modifies this`depCount, this`wait
      ensures Safe(zero, zero) && wait == old(wait).(guard := 0) && depCount == old(depCount) - 1
      ensures zero <==> depCount == 0
      ensures zero ==> pending == {}
    {
      hide Item.MarkRight, Item.OnTheWay;
      depCount := depCount - 1;
      wait := wait.(guard := 0);
      zero := depCount == 0;
    }

    /** The atom is marked as handled: it is handed on by this thread, or the wait is given up. */
    method Mark(hand: bool, ghost owed: bool, ghost last: bool)
      requires Safe(owed, last) && wait.active && pending == {} && wait.taken == 0 && wait.window == {}
      modifies this`depCount, this`wait
      ensures Safe() && depCount == -1
      ensures wait == old(wait).(active := false, guard := 0, handed := if hand then old(wait).handed + 1 else 0)
    {
      hide Item.MarkRight, Item.OnTheWay;
      depCount := -1;
      wait := wait.(active := false, guard := 0, handed := if hand then wait.handed + 1 else 0);
    }

    lemma NotHandedYet(owed: bool, last: bool)
      requires Safe(owed, last) && wait.active
      ensures wait.handed == 0
    {
      hide ItemRight, Listed;
    }

    lemma DueNow(owed: bool, last: bool)
      requires Safe(owed, last) && wait.active && pending == {} && wait.window == {} && wait.guard == 0 && depCount == 0
      ensures item.Due() == wait.emptied + if last then 0 else 1
    {
      hide CountRight, Listed, Item.Due, Item.MarkRight, WarnedRight, Awake;
    }

    /** The tail of kbase_dma_fence_wait. The atom is ready at once if nothing is left to wait
        for; otherwise it is put on the list of waiting atoms. */
    method EndSetup(err: int)
      requires SettingUp()
      modifies this
      ensures Valid()
      ensures err != 0 ==> !wait.active && wait.handed == 0
      ensures err == 0 ==> (!wait.active <==> wait.handed == 1) && (wait.handed == 1 ==> item.Due() == wait.emptied)
      ensures err == 0 ==> pending + item.fired == old(pending) + old(item).fired && (wait.handed == 1 ==> pending == {})
      ensures err == 0 && wait.active ==> callbacks == old(callbacks)
    {
      hide Safe, Item.Due;
      Interfere();
      if err == 0 {
        var zero := DropGuard();
        Interfere(zero, zero);
        NotHandedYet(zero, zero);
        if zero {
          DueNow(true, true);
          Mark(true, true, true);
          var res := FreeCallbacks();
        } else {
          waiting := true;
        }
      } else {
        var res := FreeCallbacks();
        Interfere();
        Mark(false, false, false);
        res := FreeCallbacks();
      }
    }

    /** kbase_dma_fence_wait: whether its own fence can be allocated, the result of locking
        the reservations, and what becomes of adding a callback to each of their fences. */
    method Wait(memory: bool, lockErr: int, outcomes: seq<AddOutcome>) returns (err: int)
      requires Valid() && !wait.active
      modifies this
      ensures Valid() && (!memory ==> err == -12 && wait == old(wait))
      ensures memory && err != 0 ==> !wait.active && wait.handed == 0
      ensures memory && lockErr != 0 ==> err == lockErr
      ensures memory && lockErr == 0 ==>
        if exists i :: 0 <= i < |outcomes| && ErrorOf(outcomes[i]) != 0
        then exists i :: 0 <= i < |outcomes| && err == ErrorOf(outcomes[i]) != 0 && forall j :: 0 <= j < i ==> ErrorOf(outcomes[j]) == 0
        else err == 0
      ensures err == 0 ==> forall i: nat :: i in pending || i in item.fired <==> i < |outcomes| && outcomes[i].Registered?
      ensures err == 0 && wait.handed == 1 ==> forall i :: 0 <= i < |outcomes| && outcomes[i].Registered? ==> i in item.fired
      ensures err == 0 && wait.active ==> forall i :: 0 <= i < |outcomes| && outcomes[i].Registered? ==> i in callbacks
      ensures err == 0 ==> lockErr == 0 && (!wait.active <==> wait.handed == 1)
      ensures err == 0 && wait.handed == 1 ==> item.Due() == wait.emptied
    {
      hide Safe, Item.Due;
      if !memory {
        return -ENOMEM;
      }
      Begin();
      Interfere();
      if lockErr != 0 {
        Mark(false, false, false);
        return lockErr;
      }
      err := 0;
      var i := 0;
      while i < |outcomes| && err == 0
        invariant 0 <= i <= |outcomes| && SettingUp()
        invariant forall x :: x in callbacks ==> x < i
        invariant if err == 0 then forall j :: 0 <= j < i ==> ErrorOf(outcomes[j]) == 0
                  else i > 0 && err == ErrorOf(outcomes[i - 1]) && forall j :: 0 <= j < i - 1 ==> ErrorOf(outcomes[j]) == 0
        invariant forall x: nat :: x in pending || x in item.fired <==> x < i && outcomes[x].Registered?
        invariant forall x: nat :: x in callbacks <==> x < i && outcomes[x].Registered?
      {
        PendingListed();
        err := AddCallback(i, outcomes[i]);
        i := i + 1;
      }
      if err != 0 {
        var res := FreeCallbacks();
      }
      EndSetup(err);
    }

    lemma PendingListed()
      requires SettingUp()
      ensures forall cb :: cb in pending ==> cb in callbacks
    {
      hide ItemRight;
    }

    // ----------------------------------------------------- the wait is over

    /** The work queue starts a run: the item is unmarked. */
    method StartWorker(ghost lost: bool)
      requires Safe(lost, lost)
      modifies this`item
      ensures Safe(true, lost) && item.own == old(item).own && item.Due() == old(item).Due()
      ensures item.fired == old(item).fired
    {
      hide CountRight, Listed;
      item := item.(workers := if item.workers > 0 then item.workers - 1 else 0, marked := false,
                    clock := item.clock + 1, lastCleared := item.clock);
    }

    /** kbase_dma_fence_work. It may run at any time, and more often than it was queued. The run
        that finds the count at zero hands the atom on, when no callback is pending; every other
        run, before or after, does nothing. */
    method Work(ghost lost: bool := false)
      requires Free(lost)
      modifies this
      ensures Free(lost && wait.active)
      ensures old(wait).active && old(pending) == {} ==> !wait.active
      ensures old(wait).active && !wait.active ==>
        wait.handed == 1 && pending == {} && (!lost ==> item.Due() == wait.emptied + 1)
      ensures old(wait).active ==> pending + item.fired == old(pending) + old(item).fired
      ensures !old(wait).active ==> wait == old(wait)
      ensures wait.active ==> wait.handed == 0 && depCount != 0
    {
      hide ItemRight, Listed, Item.Due;
      StartWorker(lost);
      Interfere(true, lost);
      if depCount == 0 {
        HandOn(lost);
      } else {
        NotDown(true, lost);
      }
    }

    /** As long as the count is not zero nobody has to be on the way. */
    lemma NotDown(owed: bool, last: bool)
      requires Safe(owed, last) && depCount != 0
      ensures Safe(false, last) && (wait.active ==> !last)
    {
      hide CountRight, Listed, Item.Due, Item.MarkRight, WarnedRight;
    }

    /** The rest of kbase_dma_fence_work, once the count was found at zero. */
    method HandOn(ghost lost: bool)
      requires Safe(true, lost) && wait.guard == 0 && wait.taken == 0 && depCount == 0 && item.own == {} && wait.active
      modifies this
      ensures Valid() && !wait.active && wait.handed == 1 && pending == {} && item.fired == old(item).fired
      ensures !lost ==> item.Due() == wait.emptied + 1
    {
      hide Safe, Item.Due;
      NothingPending(true, lost);
      NotHandedYet(true, lost);
      Interfere(true, lost);
      DueNow(true, lost);
      Mark(true, true, lost);
      waiting := false;
      Interfere();
      var res := FreeCallbacks();
    }

    lemma NothingPending(owed: bool, last: bool)
      requires Safe(owed, last) && wait.guard == 0 && wait.taken == 0 && depCount == 0
      ensures pending == {} && wait.window == {} && wait.active
    {
      hide ItemRight, Listed;
    }

    /** kbase_dma_fence_cancel_all_atoms, for this atom, and kbase_dma_fence_cancel_atom. A
        worker that is queued already will find nothing to do. */
    method CancelAtom(ghost lost: bool := false)
      requires Free(lost) && waiting
      modifies this
      ensures Valid() && !wait.active && !waiting && wait.handed == 0 && callbacks == []
    {
      hide ItemRight, Listed, Item.Due;
      waiting := false;
      Interfere(lost, lost);
      var res := FreeCallbacks(lost);
      Interfere(lost || res, lost || res);
      Mark(false, lost || res, lost || res);
    }

    /** kbase_dma_fence_signal, when the atom has completed. If the wait is still on, a removal
        may take the count to zero without the worker being queued: the wait is lost. */
    method Signal() returns (lost: bool)
      requires Valid()
      modifies this`depCount, this`pending, this`callbacks, this`item, this`wait
      ensures Free(lost) && wait == old(wait) && pending == {}
      ensures wait.active ==> waiting && depCount == 0
      ensures lost ==> wait.active && old(pending) != {}
    {
      hide ItemRight, Listed, Item.Due;
      Interfere();
      lost := FreeCallbacks();
    }

    /** Once nobody is on the way any more and no run of the worker is queued, a lost wait stays
        on whatever other threads do, and the atom on the list, until it is cancelled. */
    method LostStays()
      requires Free(true) && item.Quiet() && item.workers == 0
      modifies this`depCount, this`pending, this`item
      ensures Free(true) && item == old(item) && pending == {} && depCount == 0 && waiting
    {
      hide Item.Due;
      Interfere(true, true);
    }

    // -------------------------------------------------- how often it is queued

    /** While the atom waits, queue_work has been called for it, or a thread is on the way to call
        it, at most once if and only if no window of the set-up was emptied, or one was and the
        count is not zero again. Then, unless callbacks of an earlier wait were left, the warning
        has not fired; and the first call always queues the worker. */
    lemma CalledAtMostOnce()
      requires Valid() && wait.active
      ensures item.Due() == wait.emptied + if pending == {} then 1 else 0
      ensures item.Due() <= 1 <==> wait.emptied == 0 || (wait.emptied == 1 && depCount != 0)
      ensures wait.clean && item.Due() <= 1 ==> item.warned == 0
      ensures wait.clean && item.calls > 0 ==> item.warned < item.calls
    {
    }

    /** One run of kbase_fence_add_callback in which the only pending callback fires before it is
        counted, and stops short of queueing the worker. */
    method EmptyWindow(cb: Cb)
      requires SettingUp() && pending == {} && cb !in callbacks
      modifies this`depCount, this`pending, this`callbacks, this`item, this`wait
      ensures SettingUp() && pending == {} && depCount == old(depCount) && callbacks == [cb] + old(callbacks)
      ensures item == old(item).(owes := old(item).owes + 1, fired := old(item).fired + {cb})
      ensures wait == old(wait).(emptied := old(wait).emptied + 1)
    {
      hide ItemRight, Listed;
      Register(cb);
      CallbackCounts(cb);
      Increment(cb);
    }

    /** The end of a set-up after which the only pending callback fires, and stops likewise. */
    method LastFires(cb: Cb)
      requires SettingUp() && pending == {cb}
      modifies this`depCount, this`waiting, this`pending, this`item, this`wait
      ensures Valid() && pending == {} && wait == old(wait).(guard := 0)
      ensures item == old(item).(owes := old(item).owes + 1, fired := old(item).fired + {cb})
    {
      hide ItemRight, Listed;
      var zero := DropGuard();
      waiting := true;
      CallbackCounts(cb);
    }
  }

  /** A set-up with one emptied window and another callback that fires afterwards: two threads are
      on the way. */
  method TwoOnTheWay() returns (f: FenceWait)
    ensures fresh(f) && f.Valid() && f.wait.active && f.wait.emptied == 1 && f.wait.clean
    ensures f.item == Item(false, 0, 2, {}, {}, 0, {}, 0, -1, -1, 0, 0, {0, 1})
  {
    hide CountRight, Listed, ItemRight;
    f := new FenceWait();
    f.Begin();
    assert f.item.staleInits == {};
    f.EmptyWindow(0);
    f.Register(1);
    f.Increment(1);
    f.LastFires(1);
  }

  /** If each of them queues the worker before the other initialises the item, it is queued twice,
      the second time while it is on the queue, and nothing warns of that. */
  method WorkerQueuedTwice() returns (f: FenceWait)
    ensures f.Valid() && f.wait.active && f.wait.emptied == 1 && f.wait.clean
    ensures f.item.calls == 2 && f.item.warned == 0 && f.item.workers == 2
  {
    hide CountRight, Listed, ItemRight;
    f := TwoOnTheWay();
    var t := f.CallbackInits();
    var r := f.CallbackQueues(t);
    t := f.CallbackInits();
    r := f.CallbackQueues(t);
  }

  /** If both initialise it first, the second call finds it marked, and the warning fires. */
  method WarningFires() returns (f: FenceWait)
    ensures f.Valid() && f.wait.active && f.wait.emptied == 1 && f.wait.clean
    ensures f.item.calls == 2 && f.item.warned == 1 && f.item.workers == 1
  {
    hide CountRight, Listed, ItemRight;
    f := TwoOnTheWay();
    var t := f.CallbackInits();
    var u := f.CallbackInits();
    var r := f.CallbackQueues(t);
    r := f.CallbackQueues(u);
  }

  // ----------------------------------------------------------- reservations

  /** What ww_mutex_lock answers. */
  datatype LockAnswer = Locked | Deadlock | Failed(err: int)

  const EDEADLK: int := 35

  /** kbase_dma_fence_add_reservation: a reservation that is there already is ignored. */
  method AddReservation(resv: seq<nat>, excl: seq<bool>, r: nat, exclusive: bool) returns (resv': seq<nat>, excl': seq<bool>)
    requires |excl| == |resv| && NoDup(resv)
    ensures |excl'| == |resv'| && NoDup(resv')
    ensures if r in resv then resv' == resv && excl' == excl else resv' == resv + [r] && excl' == excl + [exclusive]
  {
    var i := 0;
    while i < |resv|
      invariant 0 <= i <= |resv| && r !in resv[..i]
    {
      if resv[i] == r {
        return resv, excl;
      }
      i := i + 1;
    }
    return resv + [r], excl + [exclusive];
  }

  class Reservations {
    /** how often each reservation is locked by this thread */
    var held: map<nat, int>

    constructor ()
      ensures held == map[]
    {
      held := map[];
    }

    predicate Holds(r: nat)
      reads this
    {
      r in held && held[r] > 0
    }

    /** Taking a lock that the thread does not hold yet. */
    method Lock(r: nat)
      requires !Holds(r)
      modifies this
      ensures held == old(held)[r := 1]
    {
      held := held[r := 1];
    }

    method Unlock(r: nat)
      requires r in held && held[r] == 1
      modifies this
      ensures held == old(held)[r := 0]
    {
      held := held[r := 0];
    }

    ghost predicate HoldsExactly(rs: set<nat>)
      reads this
    {
      forall r: nat :: if r in rs then r in held && held[r] == 1 else !Holds(r)
    }

    ghost function Prefix(resv: seq<nat>, r: nat, contended: int): set<nat>
      requires r <= |resv| && contended < |resv|
    {
      (set i | 0 <= i < r :: resv[i]) + if contended >= 0 then {resv[contended]} else {}
    }

    /** kbase_dma_fence_lock_reservations, for one sequence of answers of the lock; when they
        run out the lock is granted. Either every reservation is locked, once, or none is.
        The lock that was waited for after a deadlock is carried over to the next attempt. */
    method LockReservations(resv: seq<nat>, answers: seq<LockAnswer>) returns (err: int)
      requires NoDup(resv) && HoldsExactly({})
      requires forall x :: x in answers && x.Failed? ==> x.err != 0 && x.err != -EDEADLK
      modifies this
      ensures if err == 0 then HoldsExactly(Prefix(resv, |resv|, -1)) else HoldsExactly({})
      ensures err != -EDEADLK
    {
      var left, contended, r := answers, -1, 0;
      while true
        invariant -1 <= contended < |resv| && HoldsExactly(Prefix(resv, 0, contended))
        invariant forall x :: x in left && x.Failed? ==> x.err != 0 && x.err != -EDEADLK
        decreases |left|
      {
        err, r, left, contended := TryAll(resv, left, contended);
        if err == 0 {
          return;
        }
        var index := r;
        UnlockAll(resv, r, contended);
        if err != -EDEADLK {
          return;
        }
        contended := index;
        Lock(resv[contended]);
      }
    }

    /** After a failed attempt: the locks taken in order, and the one carried over. */
    method UnlockAll(resv: seq<nat>, count: nat, contended: int)
      requires NoDup(resv) && count <= |resv| && contended < |resv| && (contended < 0 || contended >= count)
      requires HoldsExactly(Prefix(resv, count, contended))
      modifies this
      ensures HoldsExactly({})
    {
      var r := count;
      while r > 0
        invariant 0 <= r <= count && HoldsExactly(Prefix(resv, r, contended))
      {
        r := r - 1;
        Unlock(resv[r]);
      }
      if contended >= 0 {
        Unlock(resv[contended]);
      }
    }

    /** One attempt: the loop that locks the reservations in order, up to the first failure. */
    method TryAll(resv: seq<nat>, answers: seq<LockAnswer>, slow: int)
      returns (err: int, r: nat, left: seq<LockAnswer>, contended: int)
      requires NoDup(resv) && -1 <= slow < |resv| && HoldsExactly(Prefix(resv, 0, slow))
      requires forall x :: x in answers && x.Failed? ==> x.err != 0 && x.err != -EDEADLK
      modifies this
      ensures r <= |resv| && -1 <= contended < |resv| && HoldsExactly(Prefix(resv, r, contended))
      ensures err == 0 ==> r == |resv| && contended == -1
      ensures err != 0 ==> r < |resv| && (contended < 0 || contended > r) && |left| < |answers|
      ensures forall x :: x in left ==> x in answers
    {
      err, r, left, contended := 0, 0, answers, slow;
      while r < |resv|
        invariant 0 <= r <= |resv| && -1 <= contended < |resv| && err == 0
        invariant contended < 0 || contended >= r
        invariant HoldsExactly(Prefix(resv, r, contended))
        invariant |left| <= |answers| && forall x :: x in left ==> x in answers
      {
        if contended >= 0 && resv[r] == resv[contended] {
          contended := -1;
        } else {
          var answer := if left == [] then Locked else left[0];
          left := if left == [] then [] else left[1..];
          match answer
          case Locked => Lock(resv[r]);
          case Deadlock => return -EDEADLK, r, left, contended;
          case Failed(e) => return e, r, left, contended;
        }
        r := r + 1;
      }
    }

    /** kbase_dma_fence_unlock_reservations */
    method UnlockReservations(resv: seq<nat>)
      requires NoDup(resv) && HoldsExactly(Prefix(resv, |resv|, -1))
      modifies this
      ensures HoldsExactly({})
    {
      for r := 0 to |resv|
        invariant forall x: nat :: if x in resv[r..] then x in held && held[x] == 1 else !Holds(x)
      {
        Unlock(resv[r]);
      }
    }
  }
}
