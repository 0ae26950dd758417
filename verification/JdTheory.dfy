/** What the dispatcher's contracts amount to: progress, exactly-once completion, what a call
    leaves behind, early submission, and the three submissions that break the invariant. */
module JdTheory {
  import opened Sequences
  import opened JdState
  import opened JdSteps
  import opened JdOutcome
  import opened JdOffers
  import opened JdSettle
  import opened JdSubmit

  // -------------------------------------------------------------- progress

  /** Somebody outside the dispatcher will report on this atom: the scheduler or the hardware
      has it, its soft-job event is awaited, or its fence. */
  ghost predicate Elsewhere(s: Jd, a: Id)
    requires Shape(s)
  {
    s.status[a] == InJs || s.status[a] == HwCompleted || a in s.started || s.fenced[a]
  }

  /** Following the links of an unfinished atom leads to one that is waited for elsewhere. */
  lemma {:induction false} WaitsForElsewhere(s: Jd, a: Id) returns (b: Id)
    requires Inv(s) && Live(s.status[a])
    ensures Live(s.status[b]) && Elsewhere(s, b) && s.age[b] <= s.age[a]
    decreases s.age[a]
  {
    if Elsewhere(s, a) {
      b := a;
    } else {
      assert !Unlinked(s, a);
      var d: Side := if s.dep[0][a].Link? then 0 else 1;
      b := WaitsForElsewhere(s, s.dep[d][a].atom);
    }
  }

  /** As long as the job counter is positive, something that is not stuck in the dispatcher
      will come back to it. */
  lemma Progress(s: Jd)
    requires Inv(s)
    ensures s.jobNr >= 0
    ensures s.jobNr > 0 ==> exists a: Id :: Live(s.status[a]) && Elsewhere(s, a)
  {
    if s.jobNr > 0 {
      assert LiveSet(s) != {};
      var a :| a in LiveSet(s);
      var b := WaitsForElsewhere(s, a);
    }
  }

  // ---------------------------------------------------------- exactly once

  ghost function LiveBelow(s: Jd, n: nat): set<int>
    requires Shape(s) && n <= ATOM_COUNT
  {
    set a: int | 0 <= a < n && Live(s.status[a])
  }

  /** Some unfinished atom among the first n has submission number g. */
  ghost predicate HasAge(s: Jd, n: nat, g: nat)
    requires Shape(s) && n <= ATOM_COUNT
  {
    exists a: Id :: a < n && Live(s.status[a]) && s.age[a] == g
  }

  lemma HasAgeStep(s: Jd, n: nat, g: nat)
    requires Shape(s) && 0 < n <= ATOM_COUNT
    ensures HasAge(s, n, g) <==> HasAge(s, n - 1, g) || (Live(s.status[n - 1]) && s.age[n - 1] == g)
    ensures !HasAge(s, 0, g)
  {
  }

  lemma LiveBelowStep(s: Jd, n: nat)
    requires Shape(s) && 0 < n <= ATOM_COUNT
    ensures |LiveBelow(s, n)| == |LiveBelow(s, n - 1)| + if Live(s.status[n - 1]) then 1 else 0
  {
    if Live(s.status[n - 1]) {
      assert LiveBelow(s, n) == LiveBelow(s, n - 1) + {n - 1};
    } else {
      assert LiveBelow(s, n) == LiveBelow(s, n - 1);
    }
  }

  ghost predicate AgesDistinct(s: Jd)
    requires Shape(s)
  {
    forall a: Id, b: Id :: a != b && Live(s.status[a]) && Live(s.status[b]) ==> s.age[a] != s.age[b]
  }

  lemma AgeFresh(s: Jd, n: nat)
    requires Shape(s) && AgesDistinct(s) && 0 < n <= ATOM_COUNT && Live(s.status[n - 1])
    ensures !HasAge(s, n - 1, s.age[n - 1])
  {
  }

  lemma NoneBelow(s: Jd)
    requires Shape(s)
    ensures LiveBelow(s, 0) == {} && forall g :: !HasAge(s, 0, g)
  {
  }

  /** There are as many submission numbers as unfinished atoms. */
  lemma {:induction false} LiveAges(s: Jd, n: nat) returns (ages: set<nat>)
    requires Shape(s) && n <= ATOM_COUNT && AgesDistinct(s)
    ensures forall g :: g in ages <==> HasAge(s, n, g)
    ensures |ages| == |LiveBelow(s, n)|
  {
    hide HasAge, LiveBelow, AgesDistinct;
    if n == 0 {
      ages := {};
      NoneBelow(s);
    } else {
      ages := LiveAges(s, n - 1);
      LiveBelowStep(s, n);
      forall g: nat
        ensures HasAge(s, n, g) <==> HasAge(s, n - 1, g) || (Live(s.status[n - 1]) && s.age[n - 1] == g)
      {
        HasAgeStep(s, n, g);
      }
      if Live(s.status[n - 1]) {
        AgeFresh(s, n);
        ages := ages + {s.age[n - 1]};
      }
    }
  }

  /** Every atom ever submitted, told apart by its submission number, is either still
      unfinished or has been finalised, and then exactly once. */
  lemma ExactlyOnce(s: Jd, g: nat)
    requires Inv(s)
    ensures g < s.nextAge <==> g in s.log || exists a: Id :: Live(s.status[a]) && s.age[a] == g
    ensures forall a: Id :: Live(s.status[a]) ==> s.age[a] !in s.log
    ensures NoDup(s.log)
  {
    hide Graph, Lists, Pinned, Upto, NoDup;
    assert forall a: Id :: Live(s.status[a]) ==> Counted(s, {}, a);
    var live := LiveAges(s, ATOM_COUNT);
    ElementsSize(s.log);
    assert LiveBelow(s, ATOM_COUNT) == LiveSet(s);
    assert forall h :: HasAge(s, ATOM_COUNT, h) <==> exists a: Id :: Live(s.status[a]) && s.age[a] == h;
    assert live !! Elements(s.log);
    FullSubset(live + Elements(s.log), Upto(s.nextAge));
    assert g in Upto(s.nextAge) <==> g in live || g in Elements(s.log);
  }

  // ------------------------------------------------------- a dying context

  /** In a dying context every atom the call finalises takes the code of the completed one,
      even an atom that another predecessor has marked to fail. */
  lemma DyingTakesCode(s: Jd, t: Jd, a: Id, soft: seq<SoftStep>, b: Id)
    requires Completable(s, a) && StepsOk(soft) && s.dying && Completion(s, t, a, soft)
    requires b in Ended(s, a, soft)
    ensures t.code[b] == s.code[a]
  {
    hide HeadsMatch, Count, Ages, Lists, ListsBut, Logged, OthersKept, LinksLost, TaintRight, WaitRight;
    StartKeepsCore(s, a);
    StartFrame(s, a);
  }

  // ------------------------------------------------- what a call leaves

  /** An atom whose predecessors have all been finalised does not stay behind: it is finalised
      too, or it is a GPU atom in the scheduler, or a soft job that has been started. */
  lemma ResolvedMovesOn(s: Jd, t: Jd, a: Id, soft: seq<SoftStep>, b: Id)
    requires Completable(s, a) && StepsOk(soft) && Completion(s, t, a, soft) && b != a
    requires s.status[b] == Queued && !s.fenced[b] && forall d: Side :: s.dep[d][b].Link? ==> s.dep[d][b].atom in Ended(s, a, soft)
    ensures b in Ended(s, a, soft) || (t.status[b] == InJs && s.req[b].kind == Gpu) || b in t.started
  {
    hide HeadsMatch, Count, Ages, Runnable, Codes, ListsBut, Logged, TaintRight, WaitRight;
    StartKeepsCore(s, a);
    var s0 := Start(s, a);
    UnlinkBothGraph(s, a, Pre(s, a));
    StartFrame(s, a);
    assert forall d: Side :: s0.dep[d][b] == s.dep[d][b];
    if b !in Ended(s, a, soft) && t.status[b] == Queued {
      NothingLeft(s0, t, a, Outcomes(s0, a, soft), Ended(s, a, soft), b);
    }
  }

  /** b has a DATA link to an atom that the call has finalised without success. */
  ghost predicate TaintedBy(s: Jd, t: Jd, E: set<Id>, d: Side, b: Id)
    requires Shape(s) && Shape(t)
  {
    s.dep[d][b].Link? && s.dep[d][b].typ != Order && s.dep[d][b].atom in E && t.code[s.dep[d][b].atom] != DONE
  }

  /** s is the state in which the worklist starts. */
  lemma LostLinks(s: Jd, t: Jd, a: Id, o: seq<Verdict>, d: Side, b: Id)
    requires Core(s, {a}, []) && Core(t, {}, []) && |o| == ATOM_COUNT && Tracks(s, t, a, o, EndSet(o), [])
    requires b != a && t.status[b] == Queued
    ensures s.status[b] == Queued
    ensures t.dep[d][b] == if s.dep[d][b].Link? && s.dep[d][b].atom in EndSet(o) then NoLink else s.dep[d][b]
    ensures Hit(s, t, o, d, b) <==> TaintedBy(s, t, EndSet(o), d, b)
  {
    hide HeadsMatch, Count, Ages, Lists, WaitRight, TaintRight;
  }

  /** An atom that stays queued has lost exactly its links to finalised atoms, and is marked to
      fail if and only if it was before or one of those links was DATA and its atom failed. */
  lemma LeftBehind(s: Jd, t: Jd, a: Id, soft: seq<SoftStep>, b: Id)
    requires Completable(s, a) && StepsOk(soft) && Completion(s, t, a, soft) && b != a
    requires t.status[b] == Queued && b !in t.started
    ensures s.status[b] == Queued
    ensures var E := Ended(s, a, soft);
      && (forall d: Side :: t.dep[d][b] == if s.dep[d][b].Link? && s.dep[d][b].atom in E then NoLink else s.dep[d][b])
      && (t.willFail[b] != 0 <==> s.willFail[b] != 0 || TaintedBy(s, t, E, 0, b) || TaintedBy(s, t, E, 1, b))
  {
    hide HeadsMatch, Count, Ages, Lists, ListsBut, Logged, WaitRight, EndedRight, OthersKept, LinksLost, Hit, Outcomes, UnlinkBoth;
    StartKeepsCore(s, a);
    var s0 := Start(s, a);
    var o := Outcomes(s0, a, soft);
    UnlinkBothGraph(s, a, Pre(s, a));
    StartFrame(s, a);
    assert s0.dep[0][b] == s.dep[0][b] && s0.dep[1][b] == s.dep[1][b];
    LostLinks(s0, t, a, o, 0, b);
    LostLinks(s0, t, a, o, 1, b);
  }

  /** A dependency-only atom that the call finalises, unless the context is dying, ends with the
      code it had or with that of a DATA predecessor that the call has finalised. */
  lemma InheritsCode(s: Jd, t: Jd, a: Id, soft: seq<SoftStep>, b: Id)
    requires Completable(s, a) && StepsOk(soft) && Completion(s, t, a, soft) && b != a && !s.dying
    requires b in Ended(s, a, soft) && s.req[b].kind == DepOnly
    ensures t.code[b] == s.code[b] || exists d: Side ::
              && s.dep[d][b].Link? && s.dep[d][b].typ != Order && s.dep[d][b].atom in Ended(s, a, soft)
              && t.code[b] == t.code[s.dep[d][b].atom]
  {
    hide HeadsMatch, Count, Ages, Lists, ListsBut, Logged, WaitRight, EndedRight, OthersKept, LinksLost, TaintRight, Outcomes, UnlinkBoth;
    StartKeepsCore(s, a);
    var s0 := Start(s, a);
    UnlinkBothGraph(s, a, Pre(s, a));
    StartFrame(s, a);
    var E := Ended(s, a, soft);
    assert forall d: Side :: s0.dep[d][b] == s.dep[d][b];
    assert CodeOf(s0, t, E, 0, b) ==> s.dep[0][b].atom in E;
    assert CodeOf(s0, t, E, 1, b) ==> s.dep[1][b].atom in E;
  }

  // ------------------------------------------------------ early submission

  /** Atom k has a failure to pass on, now that it is finalised or when it will be. */
  ghost predicate HasFailed(s: Jd, k: Id)
    requires Shape(s)
  {
    s.code[k] != DONE || s.willFail[k] != 0
  }

  /** is_dep_valid, seen from an atom that is linked to k while the worklist runs: its link is
      valid if and only if k waits for nothing in the dispatcher any more and, unless the
      scheduler has it, has no failure to pass on. Resolving a valid link to a completed atom
      does not fail the dependent, and it would if the link were an invalid DATA link to one
      that has completed with a failure code. */
  lemma ValidLink(s: Jd, P: set<Id>, R: seq<Id>, d: Side, b: Id)
    requires Core(s, P, R) && s.dep[d][b].Link?
    ensures var k := s.dep[d][b].atom;
      && (DepValid(s, s.dep[d][b]) ==> Unlinked(s, k) && k !in R && k !in s.started)
      && (DepValid(s, s.dep[d][b]) <==> s.status[k] != Queued && (s.status[k] != InJs ==> !HasFailed(s, k)))
      && (k in P && DepValid(s, s.dep[d][b]) ==>
            Shape(Resolve(s, k, d, b)) && Resolve(s, k, d, b).willFail == s.willFail && Resolve(s, k, d, b).code == s.code)
      && (k in P && s.code[k] != DONE && s.dep[d][b].typ != Order ==>
            !DepValid(s, s.dep[d][b]) && Shape(Resolve(s, k, d, b)) && Resolve(s, k, d, b).willFail[b] != 0)
  {
    hide HeadsMatch, Ages, LiveSet;
    UnlinkShape(s, d, b);
  }

  /** A GPU atom that is offered early is unfinished, younger than its predecessors, and waits for
      nothing in the dispatcher: each predecessor is with the scheduler or the hardware, or is
      completed without a failure to pass on. */
  lemma OfferedIsReady(s: Jd, P: set<Id>, R: seq<Id>, node: Id, d: Side, b: Id)
    requires Core(s, P, R) && Offerable(s, node, d, b)
    ensures s.status[b] == Queued && !s.fenced[b]
    ensures forall e: Side :: s.dep[e][b].Link? ==>
      var k := s.dep[e][b].atom;
      && s.age[k] < s.age[b] && Unlinked(s, k) && s.status[k] != Queued && (s.status[k] != InJs ==> !HasFailed(s, k))
  {
    hide HeadsMatch, Count, Ages, Lists, DepValid;
    forall e: Side | s.dep[e][b].Link?
      ensures var k := s.dep[e][b].atom;
        Unlinked(s, k) && s.status[k] != Queued && (s.status[k] != InJs ==> !HasFailed(s, k))
    {
      assert DepValid(s, s.dep[e][b]);
      ValidLink(s, P, R, e, b);
    }
  }

  lemma EndedAreOver(s: Jd, t: Jd, a: Id, soft: seq<SoftStep>)
    requires Completable(s, a) && StepsOk(soft) && Completion(s, t, a, soft)
    ensures forall b :: b in Ended(s, a, soft) ==> !Live(t.status[b])
    ensures a in Ended(s, a, soft)
  {
    hide HeadsMatch, Count, Ages, Lists, ListsBut, OthersKept, LinksLost, TaintRight, WaitRight, CodesRight, UnlinkBoth;
    StartKeepsCore(s, a);
  }

  /** A GPU atom that stays queued has been offered to the scheduler if a predecessor of it was
      finalised and nothing stands in the way: no fence, no mark to fail, and none on the predecessor
      that is left. */
  lemma OfferedIfReleased(s: Jd, t: Jd, a: Id, soft: seq<SoftStep>, offers: seq<Id>, b: Id, d: Side)
    requires Completable(s, a) && StepsOk(soft) && Completion(s, t, a, soft) && Offered(s, t, a, offers) && b != a
    requires t.status[b] == Queued && b !in t.started && s.req[b].kind == Gpu && !s.fenced[b] && !s.dying
    requires s.dep[d][b].Link? && s.dep[d][b].atom in Ended(s, a, soft)
    requires t.willFail[b] == 0 && forall e: Side :: t.dep[e][b].Link? ==> t.willFail[t.dep[e][b].atom] == 0
    ensures b in offers
  {
    hide HeadsMatch, Count, Ages, Lists, ListsBut, Logged, WaitRight, EndedRight, OthersKept, LinksLost, TaintRight, Hit, Outcomes,
      UnlinkBoth, CodesRight, Succeeds;
    StartKeepsCore(s, a);
    UnlinkBothGraph(s, a, Pre(s, a));
    StartFrame(s, a);
    LeftBehind(s, t, a, soft, b);
    assert Lost(Start(s, a), t, d, b);
    assert d == 0 || d == 1;
    assert Pending(t, b) && Released(Start(s, a), t, b);
  }

  /** So has one that follows an atom which the scheduler took in this call, if both its predecessors
      are with the scheduler, unmarked, or have been completed by the hardware without a failure. */
  lemma OfferedIfFollows(s: Jd, t: Jd, a: Id, soft: seq<SoftStep>, offers: seq<Id>, b: Id, d: Side)
    requires Completable(s, a) && StepsOk(soft) && Completion(s, t, a, soft) && Offered(s, t, a, offers) && b != a
    requires t.status[b] == Queued && b !in t.started && s.req[b].kind == Gpu && !s.fenced[b] && !s.dying
    requires s.dep[d][b].Link? && s.status[s.dep[d][b].atom] == Queued && t.status[s.dep[d][b].atom] == InJs
    requires forall e: Side :: s.dep[e][b].Link? ==>
      var k := s.dep[e][b].atom;
      (t.status[k] == InJs || (t.status[k] == HwCompleted && t.code[k] == DONE)) && t.willFail[k] == 0
    ensures b in offers
  {
    hide HeadsMatch, Count, Ages, Lists, ListsBut, Logged, WaitRight, EndedRight, OthersKept, LinksLost, TaintRight, Hit, Outcomes,
      UnlinkBoth, CodesRight, Released;
    StartKeepsCore(s, a);
    UnlinkBothGraph(s, a, Pre(s, a));
    StartFrame(s, a);
    LeftBehind(s, t, a, soft, b);
    EndedAreOver(s, t, a, soft);
    assert forall e: Side :: t.dep[e][b] == s.dep[e][b];
    assert d == 0 || d == 1;
    assert Pending(t, b) && Succeeds(Start(s, a), t, b);
  }

  /** Only GPU atoms that were queued without a fence, in a context that is not dying, are offered, and
      only because a predecessor was finalised or taken by the scheduler; every atom that the
      scheduler has taken was offered. */
  lemma OffersAreQueued(s: Jd, t: Jd, a: Id, soft: seq<SoftStep>, offers: seq<Id>, b: Id)
    requires Completable(s, a) && StepsOk(soft) && Completion(s, t, a, soft) && Offered(s, t, a, offers)
    ensures b in offers ==>
      && b != a && s.status[b] == Queued && s.req[b].kind == Gpu && !s.fenced[b] && !s.dying
      && exists d: Side ::
           && s.dep[d][b].Link?
           && var k := s.dep[d][b].atom;
              k in Ended(s, a, soft) || (s.status[k] == Queued && t.status[k] == InJs)
    ensures b != a && s.status[b] == Queued && t.status[b] == InJs ==> b in offers
  {
    hide HeadsMatch, Count, Ages, Lists, ListsBut, Logged, UnlinkBoth, LinksLost, TaintRight, WaitRight, CodesRight, EndedRight,
      OffersDue;
    StartKeepsCore(s, a);
    UnlinkBothGraph(s, a, Pre(s, a));
    StartFrame(s, a);
    EndedAreOver(s, t, a, soft);
    OffersWereQueued(Start(s, a), t, offers);
    if b in offers {
      var s0 := Start(s, a);
      assert s0.dep[0][b] == s.dep[0][b] && s0.dep[1][b] == s.dep[1][b];
      var d: Side :| s0.dep[d][b].Link? && (!Live(t.status[s0.dep[d][b].atom]) || JustTaken(s0, t, s0.dep[d][b].atom));
      assert d == 0 || d == 1;
      assert Counted(s0, {a}, s0.dep[d][b].atom);
    }
  }

  // ------------------------------------- submissions that break the invariant

  /** In w, atom a has been counted off and logged twice since it was submitted, so that the job
      counter falls short of the unfinished atoms. */
  ghost predicate FinalisedTwice(w: Jd, a: Id) {
    && Shape(w) && w.jobNr == |LiveSet(w)| - 1
    && exists i, j :: 0 <= i < j < |w.log| && w.log[i] == w.age[a] == w.log[j]
  }

  lemma AgainIsTwice(s: Jd, a: Id)
    requires Core(s, {}, []) && !Live(s.status[a]) && s.age[a] in s.log
    ensures FinalisedTwice(DoneAgain(s, a), a)
  {
    hide Graph, Count, Ages, Lists;
    CountedTwice(s, a);
    var w := DoneAgain(s, a);
    var i :| 0 <= i < |s.log| && w.log[..|s.log|][i] == s.age[a];
    assert w.log[i] == w.age[a] == w.log[|s.log|];
  }

  /** An atom that is refused although a fence is pending is over, but its fence is still on. */
  lemma FencedRefusalBreaks(s: Jd, t: Jd, a: Id, u: UserAtom, ans: Answers, soft: seq<SoftStep>)
    requires Inv(s) && StepsOk(soft) && s.status[a] == Unused
    requires FencedRefusal(s, a, u, ans) && Submitted(s, t, a, u, ans, soft)
    ensures !Inv(t) && OverPinned(t, a) && t.fenced[a] && t.status[a] == Completed && a !in t.cancelling
  {
    hide Graph, Count, Ages, Lists, ListsBut, Completable, Completion, Aftermath, AddDeps, EarlyTaint;
    QueueFacts(s, a, u, JOB_INVALID);
    PinnedEndBreaks(WithFence(Queue(s, a, u, JOB_INVALID), a, true), t, a, soft);
  }

  /** The fence worker finalises it a second time; cancelling the wait does no harm. */
  lemma FencedTwice(t: Jd, a: Id)
    requires OverPinned(t, a) && t.fenced[a] && a !in t.cancelling
    ensures var q := t.(fenced := t.fenced[a := false]); Inv(q) && FinalisedTwice(DoneAgain(q, a), a)
  {
    hide Graph, Count, Ages, Lists, DoneAgain, FinalisedTwice;
    CompletedFence(t, a);
    AgainIsTwice(t.(fenced := t.fenced[a := false]), a);
  }

  /** An atom that is killed while it is submitted is over, but its cancel worker is still to come. */
  lemma KilledOnEntryBreaks(s: Jd, t: Jd, a: Id, u: UserAtom, ans: Answers, soft: seq<SoftStep>)
    requires Inv(s) && StepsOk(soft) && s.status[a] == Unused
    requires KilledOnEntry(s, a, u, ans) && Submitted(s, t, a, u, ans, soft)
    ensures !Inv(t) && OverPinned(t, a) && a in t.cancelling && !t.fenced[a]
  {
    hide Graph, Count, Ages, Lists, ListsBut, Completable, Completion, Aftermath, AddDeps, EarlyTaint;
    var q := Queue(s, a, u, DONE);
    QueueFacts(s, a, u, DONE);
    UnlinkShape(SetStatus(q, a, InJs), 0, a);
    UnlinkShape(Unlink(SetStatus(q, a, InJs), 0, a), 1, a);
    PinnedEndBreaks(Kill(UnlinkBoth(SetStatus(q, a, InJs), a), a), t, a, soft);
  }

  /** The cancel worker finalises it a second time. */
  lemma CancelledTwice(t: Jd, a: Id)
    requires OverPinned(t, a) && a in t.cancelling
    ensures FinalisedTwice(DoneAgain(t.(cancelling := t.cancelling - {a}), a), a)
  {
    hide Graph, Count, Ages, Lists, DoneAgain, FinalisedTwice;
    CancelledFrame(t, a);
    AgainIsTwice(t.(cancelling := t.cancelling - {a}), a);
  }

  /** In a new context: the first atom names a number that was never used, and then itself. */
  lemma SelfLinkExample(ans: Answers)
    ensures Inv(Initial())
    ensures SelfLink(Initial(), 1, UserAtom(0, PreDep(2, DEP_TYPE_DATA), PreDep(1, DEP_TYPE_DATA), 0, 0))
  {
    InitialInv();
  }

  /** In a new context: an atom that asks for a fragment and a compute job at once, with an external
      resource whose fence is pending. */
  lemma FencedRefusalExample(ans: Answers)
    requires ans.resourcesOk && ans.fencePending
    ensures FencedRefusal(Initial(), 1, UserAtom(0x103, PreDep(0, 0), PreDep(0, 0), 1, 0), ans)
  {
  }

  /** In a context that is being torn down and scheduled out: any GPU atom without predecessors. */
  lemma KilledExample(ans: Answers)
    requires ans.scheduledOut
    ensures Inv(Initial().(dying := true))
    ensures KilledOnEntry(Initial().(dying := true), 1, UserAtom(0x2, PreDep(0, 0), PreDep(0, 0), 1, 0), ans)
  {
    InitialInv();
    DyingKeepsInv(Initial());
  }
}
