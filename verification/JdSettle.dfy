/** From an atom that is being dealt with back to the invariant between two calls. */
module JdSettle {
  import opened JdState
  import opened JdSteps
  import opened JdOutcome
  import opened JdOffers

  /** An unfinished atom can be completed, with any code. */
  lemma LiveCompletable(s: Jd, a: Id, code: nat)
    requires Inv(s) && Live(s.status[a]) && code != NOT_STARTED
    ensures var t := s.(code := s.code[a := code], fenced := s.fenced[a := false], cancelling := s.cancelling - {a});
            Completable(t, a) && PinnedBut(t, a)
  {
    hide Graph, Ages;
    var t := s.(code := s.code[a := code], fenced := s.fenced[a := false], cancelling := s.cancelling - {a});
    LiveStays(s, t);
    GraphKept(s, {}, t, {});
    AgesKept(s, {}, t, {});
  }

  /** An atom that waits for a link or a fence may be left queued. */
  lemma QueuedSettles(s: Jd, a: Id)
    requires Completable(s, a) && PinnedBut(s, a) && a !in s.cancelling
    requires s.status[a] == Queued && (s.fenced[a] || !Unlinked(s, a)) && a !in s.started
    requires s.code[a] == DONE <==> s.willFail[a] == 0
    ensures Inv(s)
  {
    hide Graph, Count, Ages;
  }

  lemma CompletedLists(s: Jd, a: Id, code: nat)
    requires Shape(s) && ListsBut(s, a) && code != NOT_STARTED
    ensures ListsBut(SetStatus(s, a, Completed).(code := s.code[a := code]), a)
  {
  }

  lemma CompletedCompletable(s: Jd, a: Id, code: nat)
    requires Completable(s, a) && s.status[a] == Queued && Unlinked(s, a) && code != NOT_STARTED
    ensures Completable(SetStatus(s, a, Completed).(code := s.code[a := code]), a)
  {
    hide Graph, Ages, ListsBut;
    var t := SetStatus(s, a, Completed).(code := s.code[a := code]);
    LiveDrops(s, t, a);
    GraphKept(s, {}, t, {a});
    AgesKept(s, {}, t, {a});
    CompletedLists(s, a, code);
  }

  lemma RanCompletes(s: Jd, a: Id, step: SoftStep)
    requires Completable(s, a) && s.status[a] == Queued && Unlinked(s, a)
    requires step.code != NOT_STARTED && Ran(s, a, step, false).status[a] == Completed
    ensures Completable(Ran(s, a, step, false), a)
  {
    hide Graph, Count, Ages;
    assert s.code == s.code[a := s.code[a]];
    CompletedCompletable(s, a, s.code[a]);
    CompletedCompletable(s, a, step.code);
  }

  lemma RanWaits(s: Jd, a: Id, code: nat)
    requires Completable(s, a) && s.status[a] == Queued && Unlinked(s, a) && !s.fenced[a]
    requires s.req[a].kind == Soft && code != NOT_STARTED
    ensures Core(s.(started := s.started + {a}, code := s.code[a := code]), {}, [])
  {
    hide Graph, Ages;
    var t := s.(started := s.started + {a}, code := s.code[a := code]);
    LiveStays(s, t);
    GraphKept(s, {}, t, {});
    AgesKept(s, {}, t, {});
  }

  lemma RanAccepted(s: Jd, a: Id)
    requires Completable(s, a) && s.status[a] == Queued && s.req[a].kind == Gpu && a !in s.started
    ensures Shape(UnlinkBoth(SetStatus(s, a, InJs), a))
    ensures Core(UnlinkBoth(SetStatus(s, a, InJs), a), {}, [])
  {
    hide Graph, Ages, ListsBut, Lists;
    var t := UnlinkBoth(SetStatus(s, a, InJs), a);
    UnlinkBothGraph(s, a, {});
    assert t == SetStatus(UnlinkBoth(s, a), a, InJs);
    GraphKept(UnlinkBoth(s, a), {}, t, {});
    AgesKept(s, {}, t, {});
    LiveStays(s, t);
    AcceptedLists(s, a, t);
  }

  lemma AcceptedLists(s: Jd, a: Id, t: Jd)
    requires Shape(s) && Shape(t) && ListsBut(s, a) && a !in s.started
    requires t.status == s.status[a := InJs] && t.code == s.code && t.willFail == s.willFail && t.req == s.req
    requires t.inJdList == s.inJdList && t.fenced == s.fenced && t.dying == s.dying && t.started == s.started
    requires forall d: Side, b: Id :: b != a ==> t.dep[d][b] == s.dep[d][b]
    ensures Lists(t, [])
  {
    assert forall b: Id :: b != a ==> Unlinked(s, b) == Unlinked(t, b);
  }

  lemma RanDeclined(s: Jd, a: Id)
    requires Completable(s, a) && s.status[a] == Queued && !Unlinked(s, a) && a !in s.started
    requires s.code[a] == DONE <==> s.willFail[a] == 0
    ensures Core(s, {}, [])
  {
    hide Graph, Count, Ages;
  }

  /** Running an atom that waits for nothing, or that the scheduler may order by itself,
      leaves it completed or leaves the tables in order. */
  lemma RanSettles(s: Jd, a: Id, step: SoftStep, accepted: bool)
    requires Completable(s, a) && s.status[a] == Queued && !s.fenced[a] && a !in s.started
    requires (s.code[a] == DONE <==> s.willFail[a] == 0) && step.code != NOT_STARTED
    requires s.req[a].kind != Gpu ==> Unlinked(s, a)
    requires s.req[a].kind == Gpu && !accepted ==> !Unlinked(s, a)
    ensures var t := Ran(s, a, step, accepted);
            if t.status[a] == Completed then Completable(t, a) else Core(t, {}, [])
  {
    hide Graph, Count, Ages, ListsBut, Lists;
    if s.req[a].kind == Gpu {
      if accepted { RanAccepted(s, a); } else { RanDeclined(s, a); }
    } else if Ran(s, a, step, accepted).status[a] == Completed {
      RanCompletes(s, a, step);
    } else {
      RanWaits(s, a, step.code);
    }
  }

  /** An atom that waits for a fence neither ends nor goes to the scheduler, and one that the
      scheduler has stays there. */
  lemma FencedStays(s0: Jd, t: Jd, a: Id, soft: seq<SoftStep>, o: seq<Verdict>, b: Id)
    requires Shape(s0) && Shape(t) && StepsOk(soft) && Judged(s0, a, soft, o) && OthersKept(s0, t, EndSet(o))
    requires (s0.fenced[b] || s0.status[b] == InJs) && b != a
    ensures t.status[b] == s0.status[b]
  {
  }

  /** Completing an atom that no fence holds keeps the invariant. */
  lemma CompletionKeepsInv(s: Jd, t: Jd, a: Id, soft: seq<SoftStep>)
    requires Completable(s, a) && StepsOk(soft) && PinnedBut(s, a) && !s.fenced[a] && a !in s.cancelling
    requires Completion(s, t, a, soft)
    ensures Inv(t)
  {
    hide HeadsMatch, Count, Ages, ListsBut, Lists, Logged, LinksLost, TaintRight, WaitRight, EndedRight, Judged;
    StartKeepsCore(s, a);
    var s0 := Start(s, a);
    OutcomesJudged(s0, a, soft);
    UnlinkShape(s, 0, a);
    UnlinkShape(Unlink(s, 0, a), 1, a);
    forall b: Id | t.fenced[b] || b in t.cancelling
      ensures t.status[b] == if t.fenced[b] then Queued else InJs
    {
      FencedStays(s0, t, a, soft, Outcomes(s0, a, soft), b);
    }
  }

  /** Clearing the fence of an atom keeps what the invariant says of its code and of the others. */
  lemma FenceCleared(s: Jd, a: Id)
    requires Inv(s) && s.fenced[a]
    ensures var q := s.(fenced := s.fenced[a := false]);
      && PinnedBut(q, a) && q.status[a] == Queued && a !in q.started && a !in q.cancelling
      && (q.code[a] == DONE <==> q.willFail[a] == 0)
      && Completable(q, a) && !q.fenced[a]
  {
    hide Graph, Count, Ages, ListsBut;
    LiveCompletable(s, a, s.code[a]);
    assert s.code[a := s.code[a]] == s.code && s.cancelling - {a} == s.cancelling;
    InvFacts(s, a);
  }

  lemma InvShape(s: Jd)
    requires Inv(s)
    ensures Shape(s)
  {
  }

  lemma InvFacts(s: Jd, a: Id)
    requires Inv(s)
    ensures s.code[a] != NOT_STARTED
    ensures s.fenced[a] || a in s.started ==> s.status[a] == Queued
    ensures a in s.started ==> !s.fenced[a]
    ensures a in s.cancelling ==> s.status[a] == InJs
    ensures s.status[a] == Unused ==> Unlinked(s, a) && a !in s.started && !s.fenced[a]
  {
  }

  /** An atom is run, and completed at once if that is what running it comes to. */
  ghost predicate RanTo(q: Jd, t: Jd, a: Id, soft: seq<SoftStep>, accepted: bool) {
    && Shape(q) && StepsOk(soft) && Shape(Ran(q, a, soft[a], accepted))
    && var r := Ran(q, a, soft[a], accepted);
       if r.status[a] == Completed then Completable(r, a) && Completion(r, t, a, soft) && Aftermath(r, t, a, soft, false) else t == r
  }

  // ------------------------------------------------------ completed again

  /** What jd_done_nolock does to an atom that is over already. */
  function DoneAgain(s: Jd, a: Id): Jd
    requires Shape(s)
  {
    Finalise(SetStatus(s, a, Completed), a, false)
  }

  /** Nothing is left to unlink or to resolve for an atom that is over. */
  lemma OverDetached(s: Jd, a: Id)
    requires Core(s, {}, []) && !Live(s.status[a])
    ensures Unlinked(s, a) && a !in s.started && HeadsMatch(s)
    ensures forall d: Side :: s.head[d][a] == []
    ensures forall d: Side, c: Id :: a !in s.head[d][c]
  {
    forall d: Side, c: Id
      ensures a !in s.head[d][c] && s.head[d][a] == []
    {
      assert a in s.head[d][c] <==> LinksTo(s, d, a, c);
      assert s.head[d][a] != [] ==> LinksTo(s, d, s.head[d][a][0], a);
    }
  }

  /** Completing an atom that is over counts it off and logs it a second time: the job counter
      falls short of the unfinished atoms by one. */
  lemma CountedTwice(s: Jd, a: Id)
    requires Core(s, {}, []) && !Live(s.status[a]) && s.age[a] in s.log
    ensures var t := DoneAgain(s, a);
      && Shape(t) && t.jobNr == |LiveSet(t)| - 1
      && |t.log| == |s.log| + 1 && t.log[|s.log|] == s.age[a] && s.age[a] in t.log[..|s.log|] && !Inv(t)
  {
    var t := DoneAgain(s, a);
    LiveStays(s, t);
    assert t.log[..|s.log|] == s.log;
  }

  // ----------------------------------------- steps of the rest of the driver

  lemma DyingKeepsInv(s: Jd)
    requires Inv(s)
    ensures Inv(s.(dying := true))
  {
    hide HeadsMatch, Ages;
    var t := s.(dying := true);
    LiveStays(s, t);
    GraphKept(s, {}, t, {});
    AgesKept(s, {}, t, {});
  }

  /** The scheduler cancels an atom that it holds. */
  lemma KillKeepsInv(s: Jd, a: Id)
    requires Inv(s) && s.status[a] == InJs
    ensures Inv(Kill(s, a))
  {
    hide HeadsMatch, Ages;
    var t := Kill(s, a);
    LiveStays(s, t);
    GraphKept(s, {}, t, {});
    AgesKept(s, {}, t, {});
  }

  /** A change of the status of one atom that is neither queued before nor after, and stays
      unfinished or stays over, keeps the invariant. */
  lemma OtherStatusKeepsInv(s: Jd, a: Id, st: Status, code: nat)
    requires Inv(s) && code != NOT_STARTED && s.status[a] != Queued && st != Queued && Live(st) == Live(s.status[a])
    requires a !in s.cancelling
    ensures Inv(SetStatus(s, a, st).(code := s.code[a := code]))
  {
    hide HeadsMatch, Ages;
    var t := SetStatus(s, a, st).(code := s.code[a := code]);
    LiveStays(s, t);
    GraphKept(s, {}, t, {});
    AgesKept(s, {}, t, {});
  }
}
