/** The address-space allocator of mali_kbase_ctx_sched.c. */
module CtxSched {
  const MAX_NR_AS: nat := 16
  const AS_NR_INVALID: int := -1

  type Ctx = nat

  datatype Owner = Nobody | Owner(ctx: Ctx)

  /** `free[i]` is bit i of as_free, `owner[i]` the context that space i was last given to,
      `asNr[c]` the space last given to c, and `mmu[i]` the context programmed into space i;
      `updates` counts the calls that program the MMU. */
  datatype Sched = Sched(
    free: seq<bool>,
    owner: seq<Owner>,
    asNr: map<Ctx, int>,
    refcount: map<Ctx, int>,
    mmu: seq<Owner>,
    updates: nat)

  // ------------------------------------------------------------- invariant

  ghost predicate Shape(s: Sched) {
    |s.free| == |s.owner| == |s.mmu| <= MAX_NR_AS && s.asNr.Keys == s.refcount.Keys
  }

  /** asNr and owner are inverse to each other. */
  ghost predicate Inverse(s: Sched)
    requires Shape(s)
  {
    && (forall i :: 0 <= i < |s.owner| && s.owner[i].Owner? ==> s.owner[i].ctx in s.asNr && s.asNr[s.owner[i].ctx] == i)
    && (forall c :: c in s.asNr && s.asNr[c] != AS_NR_INVALID ==>
          0 <= s.asNr[c] < |s.owner| && s.owner[s.asNr[c]] == Owner(c))
  }

  /** A space is free exactly when its owner, if any, holds no reference. */
  ghost predicate FreeRight(s: Sched)
    requires Shape(s) && Inverse(s)
  {
    && (forall c :: c in s.refcount ==> s.refcount[c] >= 0)
    && (forall c :: c in s.refcount && s.refcount[c] > 0 ==> s.asNr[c] != AS_NR_INVALID)
    && (forall i :: 0 <= i < |s.owner| ==> (s.free[i] <==> s.owner[i].Nobody? || s.refcount[s.owner[i].ctx] == 0))
  }

  /** A context that owns a space is programmed into it. */
  ghost predicate Programmed(s: Sched)
    requires Shape(s)
  {
    forall i :: 0 <= i < |s.owner| && s.owner[i].Owner? ==> s.mmu[i] == s.owner[i]
  }

  ghost predicate Inv(s: Sched) {
    Shape(s) && Inverse(s) && FreeRight(s)
  }

  // ----------------------------------------------------------------- steps

  function LowestFree(free: seq<bool>): (r: int)
    ensures r == AS_NR_INVALID <==> forall i :: 0 <= i < |free| ==> !free[i]
    ensures r != AS_NR_INVALID ==> 0 <= r < |free| && free[r] && forall i :: 0 <= i < r ==> !free[i]
  {
    if free == [] then AS_NR_INVALID
    else if free[0] then 0
    else
      var r := LowestFree(free[1..]);
      assert forall i :: 1 <= i < |free| ==> free[i] == free[1..][i - 1];
      if r == AS_NR_INVALID then AS_NR_INVALID else r + 1
  }

  function Find(s: Sched, c: Ctx): int
    requires Shape(s) && c in s.asNr
    requires s.asNr[c] != AS_NR_INVALID ==> 0 <= s.asNr[c] < |s.free|
  {
    if s.asNr[c] != AS_NR_INVALID && s.free[s.asNr[c]] then s.asNr[c] else LowestFree(s.free)
  }

  function Create(s: Sched, c: Ctx): Sched {
    s.(asNr := s.asNr[c := AS_NR_INVALID], refcount := s.refcount[c := 0])
  }

  /** Space i, taken from whatever unreferenced context had it, is given to c. */
  function Give(s: Sched, c: Ctx, i: nat): Sched
    requires Shape(s) && i < |s.owner|
  {
    var asNr := if s.owner[i].Owner? then s.asNr[s.owner[i].ctx := AS_NR_INVALID] else s.asNr;
    s.(asNr := asNr[c := i], owner := s.owner[i := Owner(c)], mmu := s.mmu[i := Owner(c)], updates := s.updates + 1)
  }

  function Retain(s: Sched, c: Ctx): Sched
    requires Inv(s) && c in s.asNr
  {
    if s.refcount[c] > 0 then s.(refcount := s.refcount[c := s.refcount[c] + 1])
    else
      var i := Find(s, c);
      if i == AS_NR_INVALID then s
      else
        var t := s.(refcount := s.refcount[c := 1], free := s.free[i := false]);
        if i == s.asNr[c] then t else Give(t, c, i)
  }

  function Release(s: Sched, c: Ctx): Sched
    requires Inv(s) && c in s.asNr && s.refcount[c] > 0
  {
    var t := s.(refcount := s.refcount[c := s.refcount[c] - 1]);
    if s.refcount[c] == 1 then t.(free := s.free[s.asNr[c] := true]) else t
  }

  function Remove(s: Sched, c: Ctx, powered: bool): Sched
    requires Inv(s) && c in s.asNr
  {
    if s.asNr[c] == AS_NR_INVALID then s
    else s.(owner := s.owner[s.asNr[c] := Nobody], asNr := s.asNr[c := AS_NR_INVALID],
            mmu := if powered then s.mmu[s.asNr[c] := Nobody] else s.mmu)
  }

  /** Reprogramming one space after a reset. */
  function RestoreOne(s: Sched, i: nat): Sched
    requires Shape(s) && Inverse(s) && i < |s.owner|
  {
    if s.owner[i].Nobody? then s.(mmu := s.mmu[i := Nobody])
    else if s.refcount[s.owner[i].ctx] > 0 then s.(mmu := s.mmu[i := s.owner[i]], updates := s.updates + 1)
    else s.(owner := s.owner[i := Nobody], asNr := s.asNr[s.owner[i].ctx := AS_NR_INVALID])
  }

  lemma RestoreOneInv(s: Sched, i: nat)
    requires Inv(s) && i < |s.owner|
    ensures Inv(RestoreOne(s, i)) && |RestoreOne(s, i).owner| == |s.owner|
  {
  }

  function Restore(s: Sched, i: nat): Sched
    requires Inv(s) && i <= |s.owner|
    decreases |s.owner| - i
  {
    if i == |s.owner| then s
    else
      RestoreOneInv(s, i);
      Restore(RestoreOne(s, i), i + 1)
  }

  /** Giving a free space to a context that has none keeps the two tables inverse. */
  lemma GiveInverse(s: Sched, c: Ctx, i: nat)
    requires Shape(s) && Inverse(s) && c in s.asNr && s.asNr[c] == AS_NR_INVALID && i < |s.owner|
    ensures Shape(Give(s, c, i)) && Inverse(Give(s, c, i))
  {
    var t := Give(s, c, i);
    forall x | x in t.asNr && t.asNr[x] != AS_NR_INVALID
      ensures 0 <= t.asNr[x] < |t.owner| && t.owner[t.asNr[x]] == Owner(x)
    {
      if x != c {
        assert t.asNr[x] == s.asNr[x];
      }
    }
  }

  lemma GiveFree(s: Sched, c: Ctx, i: nat)
    requires Inv(s) && c in s.asNr && s.asNr[c] == AS_NR_INVALID && i < |s.owner| && s.free[i]
    ensures var t := Give(s.(refcount := s.refcount[c := 1], free := s.free[i := false]), c, i);
            Shape(t) && Inverse(t) ==> FreeRight(t)
  {
  }

  lemma FindKept(s: Sched, t: Sched, c: Ctx)
    requires Shape(s) && Shape(t) && c in s.asNr && t.asNr == s.asNr && t.free == s.free
    requires s.asNr[c] != AS_NR_INVALID ==> 0 <= s.asNr[c] < |s.free|
    ensures Find(t, c) == Find(s, c)
  {
  }

  /** The space that is found for an unreferenced context is free, and its owner holds no reference. */
  lemma FoundSpace(s: Sched, c: Ctx)
    requires Inv(s) && c in s.asNr
    ensures s.refcount[c] >= 0
    ensures s.asNr[c] != AS_NR_INVALID ==> 0 <= s.asNr[c] < |s.free|
    ensures s.refcount[c] == 0 ==>
      var i := Find(s, c);
      if i == AS_NR_INVALID then s.asNr[c] == AS_NR_INVALID
      else
        && 0 <= i < |s.owner|
        && (i != s.asNr[c] && s.owner[i].Owner? ==>
              s.owner[i].ctx in s.asNr && s.owner[i].ctx != c && s.refcount[s.owner[i].ctx] == 0)
  {
  }

  lemma RetainRefInv(s: Sched, c: Ctx)
    requires Inv(s) && c in s.refcount && s.refcount[c] > 0
    ensures Inv(s.(refcount := s.refcount[c := s.refcount[c] + 1]))
  {
  }

  /** A context that gets its space back. */
  lemma RegainInv(s: Sched, c: Ctx)
    requires Inv(s) && c in s.asNr && s.refcount[c] == 0 && s.asNr[c] != AS_NR_INVALID
    ensures Inv(s.(refcount := s.refcount[c := 1], free := s.free[s.asNr[c] := false]))
  {
  }

  lemma RetainInv(s: Sched, c: Ctx)
    requires Inv(s) && c in s.asNr
    ensures Inv(Retain(s, c))
  {
    hide Give, Inverse, FreeRight;
    FoundSpace(s, c);
    var i := Find(s, c);
    if s.refcount[c] > 0 {
      RetainRefInv(s, c);
    } else if i != AS_NR_INVALID {
      if i == s.asNr[c] {
        RegainInv(s, c);
      } else {
        TakenInv(s, c);
      }
    }
  }

  lemma TakenInv(s: Sched, c: Ctx)
    requires Inv(s) && c in s.asNr && s.refcount[c] == 0 && Find(s, c) != AS_NR_INVALID && Find(s, c) != s.asNr[c]
    ensures Inv(Retain(s, c))
  {
    hide Give;
    var i := Find(s, c);
    GiveInverse(s.(refcount := s.refcount[c := 1], free := s.free[i := false]), c, i);
    GiveFree(s, c, i);
  }

  lemma ReleaseInv(s: Sched, c: Ctx)
    requires Inv(s) && c in s.asNr && s.refcount[c] > 0
    ensures Inv(Release(s, c))
  {
  }

  lemma RemoveInv(s: Sched, c: Ctx, powered: bool)
    requires Inv(s) && c in s.asNr && s.refcount[c] == 0
    ensures Inv(Remove(s, c, powered))
  {
  }

  // -------------------------------------------------- what the steps promise

  /** Retaining fails exactly when every space belongs to a context that holds a reference;
      otherwise the context has a space that nobody else holds, and a context that had one
      before gets the same one back without programming the MMU. */
  lemma RetainPromise(s: Sched, c: Ctx)
    requires Inv(s) && c in s.asNr
    ensures Retain(s, c).asNr[c] == AS_NR_INVALID <==>
              s.refcount[c] == 0 && forall i :: 0 <= i < |s.owner| ==> s.owner[i].Owner? && s.refcount[s.owner[i].ctx] > 0
    ensures Retain(s, c).asNr[c] == AS_NR_INVALID ==> Retain(s, c) == s
    ensures s.asNr[c] != AS_NR_INVALID ==>
              Retain(s, c).asNr == s.asNr && Retain(s, c).owner == s.owner && Retain(s, c).updates == s.updates
    ensures forall x :: x in s.refcount && s.refcount[x] > 0 ==> Retain(s, c).asNr[x] == s.asNr[x]
    ensures Retain(s, c).refcount ==
              if Retain(s, c).asNr[c] == AS_NR_INVALID then s.refcount else s.refcount[c := s.refcount[c] + 1]
  {
    if s.refcount[c] == 0 && Find(s, c) == AS_NR_INVALID {
      assert s.asNr[c] == AS_NR_INVALID;
    }
  }

  /** The context that had space i when it was taken for c. */
  ghost predicate TakenFrom(s: Sched, i: nat, x: Ctx)
    requires Shape(s) && i < |s.owner|
  {
    s.owner[i] == Owner(x)
  }

  /** A context that gets a new space gets the lowest one that is free. That space is not free any
      more, is owned by the context and programmed for it, once; the context that had it last has
      none now, and nothing else has changed. */
  lemma NewSpacePromise(s: Sched, c: Ctx)
    requires Inv(s) && c in s.asNr && s.refcount[c] == 0 && s.asNr[c] == AS_NR_INVALID
    requires Retain(s, c).asNr[c] != AS_NR_INVALID
    ensures var t := Retain(s, c);
      && 0 <= t.asNr[c] < |s.owner|
      && var i := t.asNr[c];
         && s.free[i] && (forall j :: 0 <= j < i ==> !s.free[j])
         && |t.free| == |t.owner| == |t.mmu| == |s.owner| && t.updates == s.updates + 1
         && !t.free[i] && t.owner[i] == Owner(c) && t.mmu[i] == Owner(c)
         && (forall j :: 0 <= j < |s.owner| && j != i ==>
               t.free[j] == s.free[j] && t.owner[j] == s.owner[j] && t.mmu[j] == s.mmu[j])
         && t.asNr.Keys == s.asNr.Keys
         && (forall x :: x in s.asNr && x != c ==>
               t.asNr[x] == if TakenFrom(s, i, x) then AS_NR_INVALID else s.asNr[x])
  {
    hide FreeRight;
    FoundSpace(s, c);
  }

  /** A context that is referenced already, or whose last space is still its own, is given one more
      reference, and a space of its own is not free any more; nothing else changes. */
  lemma OldSpacePromise(s: Sched, c: Ctx)
    requires Inv(s) && c in s.asNr && s.asNr[c] != AS_NR_INVALID
    ensures 0 <= s.asNr[c] < |s.free| && s.refcount[c] >= 0
    ensures Retain(s, c) == s.(refcount := s.refcount[c := s.refcount[c] + 1], free := s.free[s.asNr[c] := false])
  {
    FoundSpace(s, c);
    assert s.refcount[c] > 0 ==> s.free == s.free[s.asNr[c] := false];
  }

  /** A release takes one reference, and frees the space with the last one; the space stays
      assigned and programmed. */
  lemma ReleasePromise(s: Sched, c: Ctx)
    requires Inv(s) && c in s.asNr && s.refcount[c] > 0
    ensures var t := Release(s, c);
      && t.refcount == s.refcount[c := s.refcount[c] - 1]
      && t.owner == s.owner && t.asNr == s.asNr && t.mmu == s.mmu && t.updates == s.updates
      && |t.free| == |s.free| && 0 <= s.asNr[c] < |s.free|
      && (forall i :: 0 <= i < |s.free| ==> (t.free[i] <==> s.free[i] || (i == s.asNr[c] && s.refcount[c] == 1)))
  {
  }

  /** A new context holds no reference and owns no space. */
  lemma CreatePromise(s: Sched, c: Ctx)
    requires Inv(s) && c !in s.asNr
    ensures var t := Create(s, c);
      && t.refcount == s.refcount[c := 0] && t.asNr.Keys == s.asNr.Keys + {c} && t.asNr[c] == -1
      && (forall i :: 0 <= i < |s.owner| ==> t.owner[i] == s.owner[i] && t.owner[i] != Owner(c))
      && (forall x :: x in s.asNr ==> t.asNr[x] == s.asNr[x])
      && t.free == s.free && t.mmu == s.mmu && t.updates == s.updates
  {
  }

  /** A removed context owns no space. The space it had belongs to nobody and, if the GPU is
      powered, is programmed for nobody; every other space and every other context is as before. */
  lemma RemovePromise(s: Sched, c: Ctx, powered: bool)
    requires Inv(s) && c in s.asNr && s.refcount[c] == 0
    ensures var t := Remove(s, c, powered);
      && t.asNr.Keys == s.asNr.Keys && t.asNr[c] == -1 && (forall x :: x in s.asNr && x != c ==> t.asNr[x] == s.asNr[x])
      && |t.owner| == |t.mmu| == |s.owner| && t.free == s.free && t.refcount == s.refcount && t.updates == s.updates
      && (forall i :: 0 <= i < |s.owner| ==>
            if i == s.asNr[c] then t.owner[i] == Nobody && t.mmu[i] == (if powered then Nobody else s.mmu[i])
            else t.owner[i] == s.owner[i] && t.mmu[i] == s.mmu[i])
  {
  }

  /** Two contexts that hold references never share a space. */
  lemma NoSharing(s: Sched, c: Ctx, x: Ctx)
    requires Inv(s) && c in s.asNr && x in s.asNr && s.refcount[c] > 0 && s.refcount[x] > 0
    ensures s.asNr[c] == s.asNr[x] <==> c == x
  {
  }

  // ----------------------------------------------------------- after a reset

  /** One turn of the restoring loop touches one space only, and keeps or clears it. */
  lemma RestoreOneTouches(s: Sched, i: nat)
    requires Inv(s) && i < |s.owner|
    ensures var t := RestoreOne(s, i);
      && Inv(t) && |t.owner| == |s.owner| && t.refcount == s.refcount && t.free == s.free
      && (forall j :: 0 <= j < |s.owner| && j != i ==> t.owner[j] == s.owner[j] && t.mmu[j] == s.mmu[j])
      && t.owner[i] == Restored(s, i) && t.mmu[i] == RestoredMmu(s, i)
  {
    hide FreeRight, Inverse;
    RestoreOneInv(s, i);
  }

  /** The owner of space i after a reset. */
  ghost function Restored(s: Sched, i: nat): Owner
    requires Inv(s) && i < |s.owner|
  {
    if s.owner[i].Owner? && s.refcount[s.owner[i].ctx] > 0 then s.owner[i] else Nobody
  }

  /** The context that space i is programmed for after a reset: the owner that keeps it, or nobody
      if it had no owner; a space whose owner gives it up is not touched. */
  ghost function RestoredMmu(s: Sched, i: nat): Owner
    requires Inv(s) && i < |s.owner|
  {
    if s.owner[i].Nobody? then Nobody
    else if s.refcount[s.owner[i].ctx] > 0 then s.owner[i]
    else s.mmu[i]
  }

  /** Restoring after a reset programs every referenced context into its space again, leaves
      references and spaces of those alone, makes the others give up theirs, and programs the
      spaces that had no owner for nobody. */
  lemma {:induction false} RestorePromise(s: Sched, i: nat)
    requires Inv(s) && i <= |s.owner|
    ensures var t := Restore(s, i);
      && Inv(t) && |t.owner| == |s.owner| && t.refcount == s.refcount && t.free == s.free
      && (forall j :: 0 <= j < i ==> t.owner[j] == s.owner[j] && t.mmu[j] == s.mmu[j])
      && (forall j :: i <= j < |s.owner| ==> t.owner[j] == Restored(s, j) && t.mmu[j] == RestoredMmu(s, j))
    decreases |s.owner| - i
  {
    hide FreeRight, Inverse, RestoreOne;
    if i < |s.owner| {
      var u := RestoreOne(s, i);
      RestoreOneTouches(s, i);
      RestorePromise(u, i + 1);
      forall j | i < j < |s.owner|
        ensures Restored(u, j) == Restored(s, j) && RestoredMmu(u, j) == RestoredMmu(s, j)
      {
        assert u.owner[j] == s.owner[j] && u.mmu[j] == s.mmu[j];
      }
    }
  }

  // ------------------------------------------------------------------- runs

  datatype Op = CreateCtx(c: Ctx) | RetainCtx(c: Ctx) | RetainRef(c: Ctx) | ReleaseCtx(c: Ctx) | RemoveCtx(c: Ctx, powered: bool)
              | RestoreAll

  /** What each operation demands of its caller. */
  ghost predicate Allowed(s: Sched, op: Op) {
    match op
    case CreateCtx(c) => c !in s.asNr
    case RetainCtx(c) => c in s.asNr
    case RetainRef(c) => c in s.refcount && s.refcount[c] > 0
    case ReleaseCtx(c) => c in s.refcount && s.refcount[c] > 0
    case RemoveCtx(c, _) => c in s.refcount && s.refcount[c] == 0
    case RestoreAll => true
  }

  ghost function Step(s: Sched, op: Op): Sched
    requires Inv(s) && Allowed(s, op)
  {
    match op
    case CreateCtx(c) => Create(s, c)
    case RetainCtx(c) => Retain(s, c)
    case RetainRef(c) => s.(refcount := s.refcount[c := s.refcount[c] + 1])
    case ReleaseCtx(c) => Release(s, c)
    case RemoveCtx(c, powered) => Remove(s, c, powered)
    case RestoreAll => Restore(s, 0)
  }

  lemma CreateInv(s: Sched, c: Ctx)
    requires Inv(s) && c !in s.asNr
    ensures Inv(Create(s, c))
  {
  }

  lemma StepInv(s: Sched, op: Op)
    requires Inv(s) && Allowed(s, op)
    ensures Inv(Step(s, op)) && |Step(s, op).owner| == |s.owner|
  {
    hide Inverse, FreeRight, Restore, Retain;
    match op
    case CreateCtx(c) => CreateInv(s, c);
    case RetainCtx(c) =>
      RetainInv(s, c);
      RetainKeys(s, c);
    case RetainRef(c) => RetainRefInv(s, c);
    case ReleaseCtx(c) => ReleaseInv(s, c);
    case RemoveCtx(c, powered) => RemoveInv(s, c, powered);
    case RestoreAll => RestorePromise(s, 0);
  }

  ghost predicate Follows(s: Sched, op: Op, t: Sched) {
    Inv(s) ==> Allowed(s, op) && t == Step(s, op)
  }

  /** The states of a run that starts in order. */
  ghost predicate Run(states: seq<Sched>, ops: seq<Op>) {
    && |states| == |ops| + 1 && Inv(states[0])
    && (forall k :: 0 <= k < |ops| ==> Follows(states[k], ops[k], states[k + 1]))
  }

  /** They are all in order. */
  lemma {:induction false} RunInv(states: seq<Sched>, ops: seq<Op>, n: nat)
    requires Run(states, ops) && n <= |ops|
    ensures Inv(states[n])
  {
    if n > 0 {
      RunInv(states, ops, n - 1);
      assert Follows(states[n - 1], ops[n - 1], states[n]);
      StepInv(states[n - 1], ops[n - 1]);
    }
  }

  /** The operation takes away the space that c was last given: it removes c, or clears the spaces
      of the unreferenced contexts after a reset, or gives that space to another context. */
  ghost predicate Takes(s: Sched, op: Op, c: Ctx) {
    Inv(s) && Allowed(s, op) && c in s.asNr &&
    match op
    case RemoveCtx(x, _) => x == c
    case RestoreAll => s.refcount[c] == 0
    case RetainCtx(x) => x != c && s.refcount[c] == 0 && Retain(s, x).asNr[x] == s.asNr[c]
    case _ => false
  }

  /** A referenced context keeps its space when all are restored. */
  lemma RestoreKeepsSpace(s: Sched, c: Ctx)
    requires Inv(s) && c in s.asNr && s.asNr[c] != AS_NR_INVALID && s.refcount[c] > 0
    ensures c in Restore(s, 0).asNr && Restore(s, 0).asNr[c] == s.asNr[c]
  {
    hide Restore, FreeRight;
    RestorePromise(s, 0);
    assert Restored(s, s.asNr[c]) == Owner(c);
  }

  /** Giving a space away leaves the spaces of the others alone. */
  lemma RetainKeepsSpace(s: Sched, x: Ctx, c: Ctx)
    requires Inv(s) && x in s.asNr && c in s.asNr && s.asNr[c] != AS_NR_INVALID
    requires x == c || s.refcount[c] > 0 || Retain(s, x).asNr[x] != s.asNr[c]
    ensures Retain(s, x).asNr[c] == s.asNr[c]
  {
    hide Restore;
    FoundSpace(s, x);
  }

  lemma StepKeepsSpace(s: Sched, op: Op, c: Ctx)
    requires Inv(s) && Allowed(s, op) && c in s.asNr && s.asNr[c] != AS_NR_INVALID && !Takes(s, op, c)
    ensures c in Step(s, op).asNr && Step(s, op).asNr[c] == s.asNr[c]
  {
    hide Restore, Retain, Inverse;
    match op
    case RetainCtx(x) =>
      RetainKeepsSpace(s, x, c);
      RetainKeys(s, x);
    case RestoreAll =>
      NonNegative(s, c);
      RestoreKeepsSpace(s, c);
    case _ =>
  }

  lemma RetainKeys(s: Sched, c: Ctx)
    requires Inv(s) && c in s.asNr
    ensures Retain(s, c).asNr.Keys == s.asNr.Keys && |Retain(s, c).owner| == |s.owner|
  {
    hide FreeRight;
    FoundSpace(s, c);
  }

  lemma NonNegative(s: Sched, c: Ctx)
    requires Inv(s) && c in s.refcount
    ensures s.refcount[c] >= 0
  {
  }

  /** A context keeps the space it was last given through any run in which nobody takes it,
      whether it is referenced meanwhile or not ... */
  lemma {:induction false} KeepsSpace(states: seq<Sched>, ops: seq<Op>, c: Ctx, n: nat)
    requires Run(states, ops) && n <= |ops| && c in states[0].asNr && states[0].asNr[c] != AS_NR_INVALID
    requires forall k :: 0 <= k < n ==> !Takes(states[k], ops[k], c)
    ensures c in states[n].asNr && states[n].asNr[c] == states[0].asNr[c]
  {
    if n > 0 {
      KeepsSpace(states, ops, c, n - 1);
      RunInv(states, ops, n - 1);
      assert Follows(states[n - 1], ops[n - 1], states[n]);
      StepKeepsSpace(states[n - 1], ops[n - 1], c);
    }
  }

  /** ... and retaining it again then costs no programming of the MMU. */
  lemma RetainedAgain(states: seq<Sched>, ops: seq<Op>, c: Ctx)
    requires Run(states, ops) && c in states[0].asNr && states[0].asNr[c] != AS_NR_INVALID
    requires forall k :: 0 <= k < |ops| ==> !Takes(states[k], ops[k], c)
    ensures var t := states[|ops|];
            && Inv(t) && c in t.asNr
            && Retain(t, c).asNr[c] == states[0].asNr[c]
            && Retain(t, c).updates == t.updates && Retain(t, c).mmu == t.mmu
  {
    RunInv(states, ops, |ops|);
    KeepsSpace(states, ops, c, |ops|);
    RetainPromise(states[|ops|], c);
  }

  // --------------------------------------------------------------- the MMU

  lemma StepProgrammed(s: Sched, op: Op)
    requires Inv(s) && Allowed(s, op) && Programmed(s) && !op.RestoreAll?
    ensures Shape(Step(s, op)) && Programmed(Step(s, op))
  {
    StepInv(s, op);
  }

  // ------------------------------------------------------------ the device

  class Device {
    var free: seq<bool>
    var owner: seq<Owner>
    var asNr: map<Ctx, int>
    var refcount: map<Ctx, int>
    ghost var mmu: seq<Owner>
    ghost var updates: nat

    ghost function View(): Sched
      reads this
    {
      Sched(free, owner, asNr, refcount, mmu, updates)
    }

    ghost predicate Valid()
      reads this
    {
      Inv(View())
    }

    /** kbase_ctx_sched_init */
    constructor (nrAs: nat)
      requires nrAs <= MAX_NR_AS
      ensures Valid() && |owner| == nrAs && asNr == map[] && Programmed(View())
    {
      free, owner, asNr, refcount := seq(nrAs, i => true), seq(nrAs, i => Nobody), map[], map[];
      mmu, updates := seq(nrAs, i => Nobody), 0;
    }

    method CreateContext(c: Ctx)
      requires Valid() && c !in asNr
      modifies this
      ensures Valid() && View() == Create(old(View()), c)
    {
      asNr, refcount := asNr[c := AS_NR_INVALID], refcount[c := 0];
    }

    method MmuUpdate(c: Ctx)
      requires |mmu| == |owner| && c in asNr && 0 <= asNr[c] < |owner|
      modifies this`mmu, this`updates
      ensures mmu == old(mmu)[asNr[c] := Owner(c)] && updates == old(updates) + 1
    {
      mmu := mmu[asNr[c] := Owner(c)];
      updates := updates + 1;
    }

    /** ffs(as_free) - 1 */
    method FindFirstSet() returns (r: int)
      ensures r == LowestFree(free)
    {
      r := 0;
      while r < |free| && !free[r]
        invariant 0 <= r <= |free| && forall i :: 0 <= i < r ==> !free[i]
      {
        r := r + 1;
      }
      if r == |free| {
        r := AS_NR_INVALID;
      }
    }

    /** kbasep_ctx_sched_find_as_for_ctx */
    method FindAsForCtx(c: Ctx) returns (r: int)
      requires Shape(View()) && c in asNr && (asNr[c] != AS_NR_INVALID ==> 0 <= asNr[c] < |free|)
      ensures r == Find(View(), c)
    {
      if asNr[c] != AS_NR_INVALID && free[asNr[c]] {
        return asNr[c];
      }
      var lowest := FindFirstSet();
      if lowest >= 0 && lowest < |owner| {
        return lowest;
      }
      return AS_NR_INVALID;
    }

    /** The space i, whose owner holds no reference, is programmed for c. */
    method AssignSpace(c: Ctx, i: nat)
      requires Shape(View()) && c in asNr && i < |owner|
      requires owner[i].Owner? ==> owner[i].ctx in asNr && owner[i].ctx != c && refcount[owner[i].ctx] == 0
      modifies this`owner, this`asNr, this`mmu, this`updates
      ensures View() == Give(old(View()), c, i)
    {
      var prev := owner[i];
      if prev.Owner? {
        assert refcount[prev.ctx] == 0;
        mmu := mmu[i := Nobody];
        asNr := asNr[prev.ctx := AS_NR_INVALID];
      }
      asNr := asNr[c := i];
      owner := owner[i := Owner(c)];
      MmuUpdate(c);
    }

    /** kbase_ctx_sched_retain_ctx. The assertions, here and in AssignSpace, are its
        warnings, which never fire. */
    method RetainContext(c: Ctx) returns (r: int)
      requires Valid() && c in asNr
      modifies this
      ensures Valid() && View() == Retain(old(View()), c) && r == asNr[c]
    {
      hide Inverse, FreeRight, Give, Find;
      ghost var s := View();
      RetainInv(s, c);
      FoundSpace(s, c);
      refcount := refcount[c := refcount[c] + 1];
      if refcount[c] == 1 {
        var freeAs := FindAsForCtx(c);
        assert freeAs == Find(View(), c) == Find(s, c) by {
          FindKept(s, View(), c);
        }
        if freeAs != AS_NR_INVALID {
          free := free[freeAs := false];
          if freeAs != asNr[c] {
            AssignSpace(c, freeAs);
          }
        } else {
          refcount := refcount[c := refcount[c] - 1];
          assert refcount == s.refcount;
          assert asNr[c] == AS_NR_INVALID;
        }
      }
      r := asNr[c];
    }

    /** kbase_ctx_sched_retain_ctx_refcount; the assertions are its warnings. */
    method RetainReference(c: Ctx)
      requires Valid() && c in refcount && refcount[c] > 0
      modifies this`refcount
      ensures Valid() && View() == Step(old(View()), RetainRef(c))
    {
      assert asNr[c] != AS_NR_INVALID && owner[asNr[c]] == Owner(c);
      refcount := refcount[c := refcount[c] + 1];
    }

    /** kbase_ctx_sched_release_ctx */
    method ReleaseContext(c: Ctx)
      requires Valid() && c in refcount && refcount[c] > 0
      modifies this`refcount, this`free
      ensures Valid() && View() == Release(old(View()), c)
    {
      ReleaseInv(View(), c);
      refcount := refcount[c := refcount[c] - 1];
      if refcount[c] == 0 {
        free := free[asNr[c] := true];
      }
    }

    /** kbase_ctx_sched_remove_ctx */
    method RemoveContext(c: Ctx, powered: bool)
      requires Valid() && c in refcount && refcount[c] == 0
      modifies this
      ensures Valid() && View() == Remove(old(View()), c, powered)
    {
      RemoveInv(View(), c, powered);
      if asNr[c] != AS_NR_INVALID {
        if powered {
          mmu := mmu[asNr[c] := Nobody];
        }
        owner := owner[asNr[c] := Nobody];
        asNr := asNr[c := AS_NR_INVALID];
      }
    }

    /** One turn of the loop of kbase_ctx_sched_restore_all_as; the assertion is its warning. */
    method RestoreAs(i: nat)
      requires Valid() && i < |owner|
      modifies this
      ensures Valid() && View() == RestoreOne(old(View()), i) && |owner| == |old(owner)|
    {
      hide FreeRight;
      RestoreOneInv(View(), i);
      if owner[i].Owner? {
        var c := owner[i].ctx;
        NonNegative(View(), c);
        if refcount[c] != 0 {
          assert asNr[c] == i;
          MmuUpdate(c);
        } else {
          owner := owner[asNr[c] := Nobody];
          asNr := asNr[c := AS_NR_INVALID];
        }
      } else {
        mmu := mmu[i := Nobody];
      }
    }

    method RestoreAllAs()
      requires Valid()
      modifies this
      ensures Valid() && View() == Restore(old(View()), 0) && Programmed(View())
    {
      hide Inverse, FreeRight, RestoreOne;
      RestorePromise(View(), 0);
      ghost var all := Restore(View(), 0);
      for i := 0 to |owner|
        invariant Valid() && |owner| == |old(owner)| && Restore(View(), i) == all
      {
        RestoreAs(i);
      }
    }
  }
}
