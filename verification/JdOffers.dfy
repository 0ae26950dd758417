/** Which GPU atoms one completion offers to the job scheduler, and which atoms it leaves alone. The
    scheduler may decline an offer, which then leaves no trace in the tables. */
module JdOffers {
  import opened Sequences
  import opened JdState
  import opened JdSteps
  import opened JdOutcome

  /** b is a GPU atom that is still queued, and neither a fence nor the end of the context keeps it
      from the scheduler. */
  ghost predicate Pending(s: Jd, b: Id)
    requires Shape(s)
  {
    s.status[b] == Queued && s.req[b].kind == Gpu && !s.fenced[b] && !s.dying
  }

  ghost predicate Lost(s0: Jd, s: Jd, d: Side, b: Id)
    requires Shape(s0) && Shape(s)
  {
    s0.dep[d][b].Link? && s.dep[d][b].NoLink?
  }

  ghost predicate Unmarked(s: Jd, d: Side, b: Id)
    requires Shape(s)
  {
    s.dep[d][b].Link? ==> s.willFail[s.dep[d][b].atom] == 0
  }

  /** b has lost a link, and neither it nor a predecessor it still waits for is marked to fail. */
  ghost predicate Released(s0: Jd, s: Jd, b: Id)
    requires Shape(s0) && Shape(s)
  {
    (Lost(s0, s, 0, b) || Lost(s0, s, 1, b)) && s.willFail[b] == 0 && Unmarked(s, 0, b) && Unmarked(s, 1, b)
  }

  ghost predicate JustTaken(s0: Jd, s: Jd, k: Id)
    requires Shape(s0) && Shape(s)
  {
    s0.status[k] == Queued && s.status[k] == InJs
  }

  /** The predecessor is with the scheduler, not marked to fail if it has only come there now, or
      the hardware has completed it without a failure. */
  ghost predicate LinkReady(s0: Jd, s: Jd, d: Side, b: Id)
    requires Shape(s0) && Shape(s)
  {
    && s.dep[d][b] == s0.dep[d][b]
    && (s.dep[d][b].Link? ==>
          var k := s.dep[d][b].atom;
          || (s.status[k] == InJs && (s0.status[k] == Queued ==> s.willFail[k] == 0))
          || (s.status[k] == HwCompleted && s.code[k] == DONE && s.willFail[k] == 0))
  }

  /** The scheduler has taken a predecessor of b, and the others do not stand in the way. */
  ghost predicate Succeeds(s0: Jd, s: Jd, b: Id)
    requires Shape(s0) && Shape(s)
  {
    && LinkReady(s0, s, 0, b) && LinkReady(s0, s, 1, b)
    && ((s.dep[0][b].Link? && JustTaken(s0, s, s.dep[0][b].atom)) || (s.dep[1][b].Link? && JustTaken(s0, s, s.dep[1][b].atom)))
  }

  /** A predecessor of b is over, or the scheduler has taken it. */
  ghost predicate Caused(s0: Jd, s: Jd, b: Id)
    requires Shape(s0) && Shape(s)
  {
    exists d: Side :: s0.dep[d][b].Link? && (!Live(s.status[s0.dep[d][b].atom]) || JustTaken(s0, s, s0.dep[d][b].atom))
  }

  /** Every pending atom that has been released, or follows one that was taken, has been offered, or
      is on the list of runnable atoms; and only GPU atoms that were queued with a link, without a
      fence and in a context that is not dying have been offered. Atoms that follow k are still
      to be looked at. */
  ghost predicate OffersDueBut(s0: Jd, s: Jd, R: seq<Id>, offers: seq<Id>, k: Id) {
    && Shape(s0) && Shape(s)
    && (forall b: Id :: Pending(s, b) && Released(s0, s, b) ==> b in R || b in offers)
    && (forall b: Id :: Pending(s, b) && Succeeds(s0, s, b) && !LinksTo(s, 0, b, k) && !LinksTo(s, 1, b, k) ==>
          b in R || b in offers)
    && (forall b: Id :: JustTaken(s0, s, b) ==> b in offers)
    && (forall b :: b in offers ==> Pending(s0, b) && !Unlinked(s0, b))
  }

  ghost predicate OffersDue(s0: Jd, s: Jd, R: seq<Id>, offers: seq<Id>) {
    && Shape(s0) && Shape(s)
    && (forall b: Id :: Pending(s, b) && Released(s0, s, b) ==> b in R || b in offers)
    && (forall b: Id :: Pending(s, b) && Succeeds(s0, s, b) ==> b in R || b in offers)
    && (forall b: Id :: JustTaken(s0, s, b) ==> b in offers)
    && (forall b :: b in offers ==> Pending(s0, b) && !Unlinked(s0, b))
  }

  lemma DueStart(s: Jd)
    requires Shape(s)
    ensures OffersDue(s, s, [], [])
  {
  }

  /** What b is told about its links by the one that it has just lost. */
  lemma ResolvedOne(s0: Jd, s: Jd, R: seq<Id>, P: set<Id>, k: Id, d: Side, t: Jd, R': seq<Id>, offers: seq<Id>)
    requires Shape(s0) && Core(s, P, R) && k in P && Resolved(s, k, d, R, t, R') && OffersDue(s0, s, R, offers)
    requires s.dep[d][s.head[d][k][0]] == s0.dep[d][s.head[d][k][0]]
    ensures Shape(t)
    ensures var b := s.head[d][k][0]; Pending(t, b) && (Released(s0, t, b) || Succeeds(s0, t, b)) ==> b in R' || b in offers
  {
    hide HeadsMatch, Count, Ages, NotStranded, Codes, OffersDue;
    var b := s.head[d][k][0];
    FirstDependent(s, P, R, k, d);
    UnlinkShape(s, d, b);
    assert d == 0 || d == 1;
  }

  /** Only the resolved link and the code and mark of queued atom f have changed, the mark not to zero. */
  ghost predicate OnlyResolved(s: Jd, t: Jd, d: Side, f: Id)
    requires Shape(s) && Shape(t)
  {
    && s.status[f] == Queued && t.status == s.status && t.req == s.req && t.fenced == s.fenced && t.dying == s.dying
    && (forall e: Side, c: Id :: e != d || c != f ==> t.dep[e][c] == s.dep[e][c])
    && (forall c: Id :: c != f ==> t.code[c] == s.code[c] && t.willFail[c] == s.willFail[c])
    && (t.willFail[f] == 0 ==> s.willFail[f] == 0)
  }

  lemma ResolvedFrame(s: Jd, R: seq<Id>, P: set<Id>, k: Id, d: Side, t: Jd, R': seq<Id>)
    requires Core(s, P, R) && k in P && Resolved(s, k, d, R, t, R')
    ensures Shape(t) && OnlyResolved(s, t, d, s.head[d][k][0])
  {
    hide HeadsMatch, Count, Ages, Runnable, NotStranded;
    FirstDependent(s, P, R, k, d);
    UnlinkShape(s, d, s.head[d][k][0]);
    ResolvedKeeps(s, k, d, R, t, R');
  }

  lemma ResolvedKeeps(s: Jd, k: Id, d: Side, R: seq<Id>, t: Jd, R': seq<Id>)
    requires Resolved(s, k, d, R, t, R') && s.code[k] != NOT_STARTED
    ensures Shape(s) && Shape(t) && s.head[d][k] != []
    ensures var f := s.head[d][k][0];
      && t.status == s.status && t.req == s.req && t.fenced == s.fenced && t.dying == s.dying
      && (forall c: Id :: c != f ==> t.code[c] == s.code[c] && t.willFail[c] == s.willFail[c])
      && (t.willFail[f] == 0 ==> s.willFail[f] == 0)
      && t.dep == Unlink(s, d, f).dep
  {
  }

  lemma ResolvedOther(s0: Jd, s: Jd, t: Jd, d: Side, f: Id, b: Id)
    requires Shape(s0) && Shape(s) && Shape(t) && OnlyResolved(s, t, d, f) && b != f
    ensures (Pending(t, b) <==> Pending(s, b)) && (Released(s0, t, b) ==> Released(s0, s, b))
    ensures Succeeds(s0, t, b) ==> Succeeds(s0, s, b)
  {
    assert t.dep[0][b] == s.dep[0][b] && t.dep[1][b] == s.dep[1][b];
  }

  lemma DueResolve(s0: Jd, s: Jd, R: seq<Id>, P: set<Id>, k: Id, d: Side, t: Jd, R': seq<Id>, offers: seq<Id>)
    requires Shape(s0) && Core(s, P, R) && k in P && Resolved(s, k, d, R, t, R') && OffersDue(s0, s, R, offers)
    requires s.dep[d][s.head[d][k][0]] == s0.dep[d][s.head[d][k][0]]
    ensures Shape(t) && OffersDue(s0, t, R', offers)
  {
    hide Core, Resolved, Pending, Released, Succeeds;
    ResolvedShape(s, k, d, R, t, R');
    ResolvedFrame(s, R, P, k, d, t, R');
    ResolvedOne(s0, s, R, P, k, d, t, R', offers);
    forall b: Id | b != s.head[d][k][0]
      ensures (Pending(t, b) <==> Pending(s, b)) && (Released(s0, t, b) ==> Released(s0, s, b))
      ensures Succeeds(s0, t, b) ==> Succeeds(s0, s, b)
    {
      ResolvedOther(s0, s, t, d, s.head[d][k][0], b);
    }
  }

  lemma ResolvedShape(s: Jd, k: Id, d: Side, R: seq<Id>, t: Jd, R': seq<Id>)
    requires Resolved(s, k, d, R, t, R')
    ensures Shape(s) && Shape(t) && s.head[d][k] != [] && t.status == s.status
    ensures forall b :: b in R' <==> b in R || (b == s.head[d][k][0] && b in R')
  {
    UnlinkShape(s, d, s.head[d][k][0]);
  }

  /** One turn of the drain loop, before the dependents of a taken atom are looked at. */
  lemma DueDrain(s0: Jd, s: Jd, k: Id, R: seq<Id>, step: SoftStep, accepted: bool, offers: seq<Id>)
    requires Shape(s0) && Shape(s) && OffersDue(s0, s, R, offers) && R != [] && NoDup(R) && s.status[R[0]] == Queued
    requires s0.status[R[0]] == Queued && !Unlinked(s0, R[0]) && !s.fenced[R[0]]
    requires s.req == s0.req && s.fenced == s0.fenced && s.dying == s0.dying
    ensures var t := Drained(s, k, R[0], step, accepted);
            var more := if !s.dying && s.req[R[0]].kind == Gpu then offers + [R[0]] else offers;
            && Shape(t) && OffersDueBut(s0, t, R[1..], more, R[0])
            && (t.status[R[0]] != InJs || t.willFail[R[0]] != 0 ==> OffersDue(s0, t, R[1..], more))
  {
    var n := R[0];
    var t := Drained(s, k, n, step, accepted);
    var more := if !s.dying && s.req[n].kind == Gpu then offers + [n] else offers;
    DrainTables(s, k, n, step, accepted);
    forall b: Id | b != n
      ensures (Pending(t, b) <==> Pending(s, b)) && (Released(s0, t, b) <==> Released(s0, s, b))
      ensures JustTaken(s0, t, b) == JustTaken(s0, s, b)
      ensures !LinksTo(s, 0, b, n) && !LinksTo(s, 1, b, n) ==> (Succeeds(s0, t, b) <==> Succeeds(s0, s, b))
      ensures t.status[n] != InJs || t.willFail[n] != 0 ==> (Succeeds(s0, t, b) ==> Succeeds(s0, s, b))
    {
      DrainOther(s0, s, t, n, b);
    }
    assert Pending(t, n) ==> n in more;
  }

  lemma DrainTables(s: Jd, k: Id, b: Id, step: SoftStep, accepted: bool)
    requires Shape(s)
    ensures var t := Drained(s, k, b, step, accepted);
      && Shape(t) && t.status == s.status[b := t.status[b]] && t.willFail == s.willFail && t.req == s.req
      && t.fenced == s.fenced && t.dying == s.dying && (forall c: Id :: c != b ==> t.code[c] == s.code[c])
      && (forall d: Side, c: Id :: c != b ==> t.dep[d][c] == s.dep[d][c])
  {
    hide Unlink;
    DrainStatus(s, k, b, step, accepted);
    DrainOthers(s, k, b, step, accepted);
    var u := SetStatus(SetListed(s, b, false), b, InJs);
    UnlinkShape(u, 0, b);
    UnlinkRest(u, 0, b);
    UnlinkShape(Unlink(u, 0, b), 1, b);
    UnlinkRest(Unlink(u, 0, b), 1, b);
  }

  lemma UnlinkRest(s: Jd, d: Side, b: Id)
    requires Shape(s)
    ensures var t := Unlink(s, d, b); t.willFail == s.willFail && t.fenced == s.fenced && t.dying == s.dying && t.req == s.req
  {
  }

  /** What becomes of node n matters to other atoms only if they are linked to it. */
  lemma DrainOther(s0: Jd, s: Jd, t: Jd, n: Id, b: Id)
    requires Shape(s0) && Shape(s) && Shape(t) && b != n && s.status[n] == Queued && s0.status[n] == Queued
    requires t.status == s.status[n := t.status[n]] && t.willFail == s.willFail && t.req == s.req
    requires t.fenced == s.fenced && t.dying == s.dying && (forall c: Id :: c != n ==> t.code[c] == s.code[c])
    requires forall d: Side, c: Id :: c != n ==> t.dep[d][c] == s.dep[d][c]
    requires t.status[n] != HwCompleted
    ensures (Pending(t, b) <==> Pending(s, b)) && (Released(s0, t, b) <==> Released(s0, s, b))
    ensures JustTaken(s0, t, b) == JustTaken(s0, s, b)
    ensures !LinksTo(s, 0, b, n) && !LinksTo(s, 1, b, n) ==> (Succeeds(s0, t, b) <==> Succeeds(s0, s, b))
    ensures t.status[n] != InJs || t.willFail[n] != 0 ==> (Succeeds(s0, t, b) ==> Succeeds(s0, s, b))
  {
  }

  /** The dependents of a taken atom are looked at. */
  lemma DueTry(s0: Jd, s: Jd, node: Id, R: seq<Id>, t: Jd, R': seq<Id>, offers: seq<Id>)
    requires Shape(s0) && Shape(s) && Shape(t) && OffersDueBut(s0, s, R, offers, node) && s.dying == s0.dying
    requires t == s.(inJdList := t.inJdList) && Runnable(s, R) && Runnable(t, R')
    requires forall b: Id :: t.inJdList[b] <==> s.inJdList[b] || Offerable(s, node, 0, b) || Offerable(s, node, 1, b)
    ensures OffersDue(s0, t, R', offers)
  {
    forall b: Id | Pending(t, b) && Succeeds(s0, t, b)
      ensures b in R' || b in offers
    {
      assert Succeeds(s0, s, b) && Pending(s, b);
      assert DepValid(s, s.dep[0][b]) && DepValid(s, s.dep[1][b]);
    }
    assert forall b: Id :: b in R ==> b in R';
    assert forall b: Id :: Released(s0, t, b) == Released(s0, s, b);
  }

  lemma DueFinalise(s0: Jd, s: Jd, k: Id, deferred: bool, offers: seq<Id>)
    requires OffersDue(s0, s, [], offers) && s.status[k] == Completed
    ensures OffersDue(s0, Finalise(s, k, deferred), [], offers)
  {
    var t := Finalise(s, k, deferred);
    assert forall b: Id :: Pending(t, b) == Pending(s, b) && Released(s0, t, b) == Released(s0, s, b);
    assert forall b: Id :: Succeeds(s0, t, b) == Succeeds(s0, s, b);
  }

  // ----------------------------------------------------------------- causes

  /** Every atom that is runnable or has been offered is so because of a predecessor. */
  ghost predicate AllCaused(s0: Jd, s: Jd, R: seq<Id>, offers: seq<Id>) {
    Shape(s0) && Shape(s) && forall b :: b in R || b in offers ==> Caused(s0, s, b)
  }

  lemma CausedKept(s0: Jd, s: Jd, t: Jd, R: seq<Id>, offers: seq<Id>)
    requires AllCaused(s0, s, R, offers) && Shape(t)
    requires forall c: Id :: (s.status[c] == InJs ==> t.status[c] == InJs) && (!Live(s.status[c]) ==> !Live(t.status[c]))
    ensures AllCaused(s0, t, R, offers)
  {
    forall b | b in R || b in offers
      ensures Caused(s0, t, b)
    {
      var d: Side :| s0.dep[d][b].Link? && (!Live(s.status[s0.dep[d][b].atom]) || JustTaken(s0, s, s0.dep[d][b].atom));
      assert !Live(t.status[s0.dep[d][b].atom]) || JustTaken(s0, t, s0.dep[d][b].atom);
    }
  }

  lemma CausedMore(s0: Jd, s: Jd, R: seq<Id>, R': seq<Id>, offers: seq<Id>, offers': seq<Id>)
    requires AllCaused(s0, s, R, offers)
    requires forall b :: b in R' || b in offers' ==> b in R || b in offers || Caused(s0, s, b)
    ensures AllCaused(s0, s, R', offers')
  {
  }

  // ------------------------------------------------- inside the worklist

  /** The scheduler is offered what it should be, and nothing else; ... */
  ghost predicate OffersRight(s0: Jd, s: Jd, R: seq<Id>, offers: seq<Id>) {
    OffersDue(s0, s, R, offers) && AllCaused(s0, s, R, offers)
  }

  /** ... atoms that follow k are still to be looked at. */
  ghost predicate OffersBut(s0: Jd, s: Jd, R: seq<Id>, offers: seq<Id>, k: Id) {
    OffersDueBut(s0, s, R, offers, k) && AllCaused(s0, s, R, offers)
  }

  lemma OffersStart(s: Jd)
    requires Shape(s)
    ensures OffersRight(s, s, [], [])
  {
    DueStart(s);
  }

  lemma OffersFinalise(s0: Jd, s: Jd, k: Id, deferred: bool, offers: seq<Id>)
    requires Shape(s) && OffersRight(s0, s, [], offers) && s.status[k] == Completed
    ensures OffersRight(s0, Finalise(s, k, deferred), [], offers)
  {
    hide OffersDue, AllCaused;
    DueFinalise(s0, s, k, deferred, offers);
    CausedKept(s0, s, Finalise(s, k, deferred), [], offers);
  }

  lemma PendingIsCompleted(s: Jd, P: set<Id>, R: seq<Id>, k: Id)
    requires Core(s, P, R) && k in P
    ensures s.status[k] == Completed
  {
  }

  lemma WorkingOffersResolve(s0: Jd, s: Jd, a: Id, o: seq<Verdict>, E: set<Id>, P: set<Id>, R: seq<Id>, k: Id, d: Side,
                             t: Jd, R': seq<Id>, offers: seq<Id>)
    requires Working(s0, s, a, o, E, P, R) && k in P && Resolved(s, k, d, R, t, R') && OffersRight(s0, s, R, offers)
    ensures Shape(t) && OffersRight(s0, t, R', offers)
  {
    hide HeadsMatch, Count, Ages, Lists, OffersDue, AllCaused, TaintRight, CodesRight, EndedRight, OthersKept, Resolved;
    ResolvedShape(s, k, d, R, t, R');
    FirstDependent(s, P, R, k, d);
    var b := s.head[d][k][0];
    assert s.dep[d][b] == s0.dep[d][b];
    DueResolve(s0, s, R, P, k, d, t, R', offers);
    assert Caused(s0, s, b) by { PendingIsCompleted(s, P, R, k); }
    CausedMore(s0, s, R, R', offers, offers);
    CausedKept(s0, s, t, R', offers);
  }

  lemma WorkingOffersDrain(s0: Jd, s: Jd, a: Id, o: seq<Verdict>, E: set<Id>, P: set<Id>, R: seq<Id>,
                           k: Id, step: SoftStep, accepted: bool, offers: seq<Id>)
    requires Working(s0, s, a, o, E, P, R) && R != [] && OffersRight(s0, s, R, offers)
    ensures var t := Drained(s, k, R[0], step, accepted);
            var more := if !s.dying && s.req[R[0]].kind == Gpu then offers + [R[0]] else offers;
            && Shape(s0) && Shape(t) && OffersBut(s0, t, R[1..], more, R[0]) && (t.status[R[0]] == InJs ==> JustTaken(s0, t, R[0]))
            && (t.status[R[0]] != InJs || t.willFail[R[0]] != 0 ==> OffersRight(s0, t, R[1..], more))
  {
    hide HeadsMatch, Count, Ages, OffersDue, OffersDueBut, AllCaused, TaintRight, CodesRight, Drained, Codes, NotStranded;
    FirstRunnable(s0, s, a, o, E, P, R);
    DueDrain(s0, s, k, R, step, accepted, offers);
    DrainStatus(s, k, R[0], step, accepted);
    CausedMore(s0, s, R, R[1..], offers, offers + [R[0]]);
    CausedMore(s0, s, R, R[1..], offers, offers);
    var more := if !s.dying && s.req[R[0]].kind == Gpu then offers + [R[0]] else offers;
    CausedKept(s0, s, Drained(s, k, R[0], step, accepted), R[1..], more);
  }

  lemma WorkingOffersTry(s0: Jd, s: Jd, a: Id, o: seq<Verdict>, E: set<Id>, P: set<Id>, node: Id, R: seq<Id>,
                         t: Jd, R': seq<Id>, offers: seq<Id>)
    requires Working(s0, s, a, o, E, P, R) && Working(s0, t, a, o, E, P, R') && OffersBut(s0, s, R, offers, node)
    requires t == s.(inJdList := t.inJdList) && JustTaken(s0, s, node)
    requires forall b: Id :: t.inJdList[b] <==> s.inJdList[b] || Offerable(s, node, 0, b) || Offerable(s, node, 1, b)
    ensures OffersRight(s0, t, R', offers)
  {
    hide HeadsMatch, Count, Ages, OffersDue, OffersDueBut, AllCaused, TaintRight, CodesRight, Codes, NotStranded, DepValid;
    DueTry(s0, s, node, R, t, R', offers);
    forall b | b in R' && b !in R
      ensures Caused(s0, s, b)
    {
      var d: Side := if LinksTo(s, 0, b, node) then 0 else 1;
      assert LinksTo(s, d, b, node) && s.dep[d][b] == s0.dep[d][b];
    }
    CausedMore(s0, s, R, R', offers, offers);
    CausedKept(s0, s, t, R', offers);
  }

  /** What one completion of a has offered, seen from before the call. */
  ghost predicate Offered(s: Jd, t: Jd, a: Id, offers: seq<Id>) {
    Completable(s, a) && OffersRight(Start(s, a), t, [], offers)
  }

  /** k, whose lists are empty, may be posted. */
  lemma WorkingPost(s0: Jd, s: Jd, a: Id, o: seq<Verdict>, E: set<Id>, P: set<Id>, k: Id, deferred: bool, offers: seq<Id>)
    requires Working(s0, s, a, o, E, P, []) && k in P && forall d: Side :: Shape(s) && s.head[d][k] == []
    requires FreedSoFar(s, E, P, deferred) && OffersRight(s0, s, [], offers)
    ensures Shape(s) && HeadsMatch(s) && forall d: Side, c: Id :: k !in s.head[d][c]
    ensures Working(s0, Finalise(s, k, deferred), a, o, E, P - {k}, [])
    ensures FreedSoFar(Finalise(s, k, deferred), E, P - {k}, deferred)
    ensures OffersRight(s0, Finalise(s, k, deferred), [], offers)
  {
    hide Graph, Count, Ages, Lists, Tracks, Logged, Finalise, FreedSoFar, OffersRight;
    WorkingFinalise(s0, s, a, o, E, P, k, deferred);
    Detached(s0, s, a, o, E, P, k);
    FreedFinalise(s, E, P, k, deferred);
    OffersFinalise(s0, s, k, deferred, offers);
  }

  // ------------------------------------------------- what is left alone

  /** A chain of links leads from b to a. */
  ghost predicate DependsOn(s: Jd, a: Id, b: Id)
    requires Shape(s) && LinksOk(s, {a})
    decreases s.age[b]
  {
    exists d: Side :: s.dep[d][b].Link? && (s.dep[d][b].atom == a || DependsOn(s, a, s.dep[d][b].atom))
  }

  lemma OffersWereQueued(s0: Jd, t: Jd, offers: seq<Id>)
    requires OffersRight(s0, t, [], offers)
    ensures forall b: Id :: JustTaken(s0, t, b) ==> b in offers
    ensures forall b :: b in offers ==> Pending(s0, b)
  {
  }

  lemma {:induction false} NotMoved(s0: Jd, t: Jd, a: Id, soft: seq<SoftStep>, o: seq<Verdict>, offers: seq<Id>, b: Id)
    requires Core(s0, {a}, []) && Shape(t) && StepsOk(soft) && Judged(s0, a, soft, o) && OthersKept(s0, t, EndSet(o))
    requires OffersRight(s0, t, [], offers) && b != a && !DependsOn(s0, a, b) && s0.status[a] == Completed
    ensures o[b] == Stays && t.status[b] == s0.status[b]
    ensures forall d: Side :: s0.dep[d][b].Link? ==> o[s0.dep[d][b].atom] == Stays
    decreases s0.age[b]
  {
    hide Count, Ages, Lists, HeadsMatch, OffersDue, OthersKept;
    forall d: Side | s0.dep[d][b].Link?
      ensures o[s0.dep[d][b].atom] == Stays && t.status[s0.dep[d][b].atom] == s0.status[s0.dep[d][b].atom]
      ensures Live(s0.status[s0.dep[d][b].atom])
    {
      assert Counted(s0, {a}, s0.dep[d][b].atom);
      NotMoved(s0, t, a, soft, o, offers, s0.dep[d][b].atom);
    }
    EndsIff(s0, a, soft, o, b);
    assert o[b] == Stays;
    assert !Caused(s0, t, b);
    OffersWereQueued(s0, t, offers);
    KeptOrTaken(s0, t, EndSet(o), b);
  }

  lemma KeptOrTaken(s0: Jd, t: Jd, E: set<Id>, b: Id)
    requires Shape(s0) && Shape(t) && OthersKept(s0, t, E) && b !in E
    ensures t.status[b] == s0.status[b] || JustTaken(s0, t, b)
  {
  }

  lemma NotTouched(s0: Jd, t: Jd, a: Id, o: seq<Verdict>, b: Id)
    requires Core(s0, {a}, []) && Core(t, {}, []) && |o| == ATOM_COUNT && Tracks(s0, t, a, o, EndSet(o), [])
    requires o[b] == Stays && t.status[b] == s0.status[b] && b != a
    requires forall d: Side :: s0.dep[d][b].Link? ==> o[s0.dep[d][b].atom] == Stays
    ensures t.code[b] == s0.code[b]
    ensures t.status[b] == Queued ==>
      t.dep[0][b] == s0.dep[0][b] && t.dep[1][b] == s0.dep[1][b] && (t.willFail[b] != 0 <==> s0.willFail[b] != 0)
    ensures t.status[b] != Queued ==> t.willFail[b] == s0.willFail[b]
  {
    hide HeadsMatch, Count, Ages, Runnable, Codes, EndedRight, WaitRight;
  }

  /** A completion of a leaves alone every atom from which no chain of links leads to a: its status, its
      code, its links, and whether it is marked to fail. */
  ghost predicate LeftAlone(s: Jd, t: Jd, a: Id) {
    && Completable(s, a) && Shape(t) && Core(Start(s, a), {a}, [])
    && forall b: Id :: b != a && !DependsOn(Start(s, a), a, b) ==> Untouched(s, t, b)
  }

  ghost predicate Untouched(s: Jd, t: Jd, b: Id)
    requires Shape(s) && Shape(t)
  {
    && t.status[b] == s.status[b] && t.code[b] == s.code[b]
    && (t.status[b] != Queued ==> t.willFail[b] == s.willFail[b])
    && (t.status[b] == Queued ==>
          t.dep[0][b] == s.dep[0][b] && t.dep[1][b] == s.dep[1][b] && (t.willFail[b] != 0 <==> s.willFail[b] != 0))
  }

  lemma LeavesAlone(s: Jd, t: Jd, a: Id, soft: seq<SoftStep>, offers: seq<Id>)
    requires Completable(s, a) && StepsOk(soft) && Completion(s, t, a, soft) && Offered(s, t, a, offers)
    ensures LeftAlone(s, t, a)
  {
    hide HeadsMatch, LinksOk, Count, Ages, Lists, ListsBut, Tracks, Logged, DependsOn, OffersRight, Untouched;
    StartKeepsCore(s, a);
    forall b: Id | b != a && !DependsOn(Start(s, a), a, b)
      ensures Untouched(s, t, b)
    {
      LeavesOneAlone(s, t, a, soft, offers, b);
    }
  }

  lemma LeavesOneAlone(s: Jd, t: Jd, a: Id, soft: seq<SoftStep>, offers: seq<Id>, b: Id)
    requires Completable(s, a) && StepsOk(soft) && Completion(s, t, a, soft) && Offered(s, t, a, offers) && b != a
    requires Core(Start(s, a), {a}, []) && !DependsOn(Start(s, a), a, b)
    ensures Shape(t) && Untouched(s, t, b)
  {
    hide HeadsMatch, Count, Ages, Lists, ListsBut, Logged, WaitRight, EndedRight, UnlinkBoth, LinksLost, TaintRight, CodesRight,
      OthersKept, DependsOn, OffersRight, Judged;
    var s0, o := Start(s, a), Outcomes(Start(s, a), a, soft);
    UnlinkBothGraph(s, a, Pre(s, a));
    StartFrame(s, a);
    OutcomesJudged(s0, a, soft);
    NotMoved(s0, t, a, soft, o, offers, b);
    NotTouched(s0, t, a, o, b);
    assert s0.dep[0][b] == s.dep[0][b] && s0.dep[1][b] == s.dep[1][b];
  }

  /** What a completion does beside `Completion`: the numbers of the atoms that have ended are free or
      wait for user space, and atoms that do not depend on a are as before. */
  ghost predicate Aftermath(s: Jd, t: Jd, a: Id, soft: seq<SoftStep>, deferred: bool) {
    StepsOk(soft) && LeftAlone(s, t, a) && Freed(s, t, a, soft, deferred)
  }

  lemma OfferedFrom(s: Jd, t: Jd, a: Id, offers: seq<Id>)
    requires Completable(s, a) && OffersRight(Start(s, a), t, [], offers)
    ensures Offered(s, t, a, offers)
  {
  }

  lemma Afterwards(s: Jd, t: Jd, a: Id, soft: seq<SoftStep>, deferred: bool)
    requires Completable(s, a) && StepsOk(soft) && LeftAlone(s, t, a) && Freed(s, t, a, soft, deferred)
    ensures Aftermath(s, t, a, soft, deferred)
  {
  }
}
