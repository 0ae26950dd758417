/** What a submission comes to, told from the user's atom, the answers and the tables before the call. */
module JdEntry {
  import opened CoreReqs
  import opened JdState
  import opened JdSteps
  import opened JdOutcome
  import opened JdOffers
  import opened JdSettle
  import opened JdSubmit

  // ---------------------------------------------------------- the question

  predicate BadType(p: PreDep) {
    p.id != 0 && p.typ != 1 && p.typ != 2
  }

  /** The predecessor is over, with a code that fails the new atom: any but 1 (DONE), and if the
      dependency is of type 2 (ORDER) any but 1 up to 8 (ACTIVE). */
  predicate Failed(s: Jd, p: PreDep)
    requires Shape(s)
  {
    && p.id != 0 && (s.status[p.id] == Unused || s.status[p.id] == Completed)
    && s.code[p.id] != 1 && (p.typ == 2 ==> s.code[p.id] <= 8)
  }

  predicate InProgress(s: Jd, p: PreDep)
    requires Shape(s)
  {
    p.id != 0 && (s.status[p.id] == Queued || s.status[p.id] == InJs || s.status[p.id] == HwCompleted)
  }

  /** None of the bits for fragment, compute, tiling, cache flush, value writeback, soft job and compute only. */
  predicate DependencyOnly(r: CoreReq) {
    !Bit(r, 0) && !Bit(r, 1) && !Bit(r, 2) && !Bit(r, 3) && !Bit(r, 4) && !Bit(r, 9) && !Bit(r, 10)
  }

  /** A job chain unless it is dependency-only; an existing core group if it asks for a specific one
      (bit 11); and with external resources (bit 8) no coalescing (bit 5), no fence-wait soft job (bits
      9, 1 and 0 of the soft-job type), and resources that can be set up. */
  predicate WellFormed(u: UserAtom, ans: Answers) {
    && (u.jc == 0 ==> DependencyOnly(u.coreReq))
    && (Bit(u.coreReq, 11) ==> u.deviceNr < ans.coreGroups)
    && (Bit(u.coreReq, 8) ==>
          && !Bit(u.coreReq, 5) && ans.resourcesOk
          && !(Bit(u.coreReq, 9) && Bit(u.coreReq, 0) && Bit(u.coreReq, 1)
               && !Bit(u.coreReq, 2) && !Bit(u.coreReq, 3) && !Bit(u.coreReq, 4)))
  }

  /** A soft job (bit 9) can be prepared; any other atom does not ask for a fragment job (bit 0) and a
      compute or tiling job (bits 1, 10, 2) at once, nor, on hardware with issue 8987, for compute only
      (bit 10) and bit 1 or 2. */
  predicate ValidAtom(u: UserAtom, ans: Answers) {
    if Bit(u.coreReq, 9) then ans.prepared
    else
      && !(Bit(u.coreReq, 0) && (Bit(u.coreReq, 1) || Bit(u.coreReq, 2) || Bit(u.coreReq, 10)))
      && !(ans.issue8987 && Bit(u.coreReq, 10) && (Bit(u.coreReq, 1) || Bit(u.coreReq, 2)))
  }

  // ------------------------------------------------------------ the answer

  /** The atom is over with this code, and logged. Its number is free at once if it has no external
      resources and is never reported (bit 14), or only when it fails (bit 12) and it has not. */
  ghost predicate OverWith(s: Jd, t: Jd, a: Id, r: CoreReq, code: nat)
    requires Shape(s) && Shape(t)
  {
    && t.code[a] == code && t.age[a] == s.nextAge && s.nextAge in t.log
    && t.status[a] == if !Bit(r, 8) && (Bit(r, 14) || (Bit(r, 12) && code == 1)) then Unused else Completed
  }

  /** The atom waits for exactly the predecessors in progress. */
  ghost predicate WaitsFor(s: Jd, t: Jd, a: Id, u: UserAtom)
    requires Shape(s) && Shape(t)
  {
    forall d: Side :: t.dep[d][a] ==
      if InProgress(s, u.Pre(d)) then Link(u.Pre(d).id, if u.Pre(d).typ == 2 then Order else Data) else NoLink
  }

  ghost predicate QueuedWith(s: Jd, t: Jd, a: Id, u: UserAtom, code: nat, mark: nat, fenced: bool)
    requires Shape(s) && Shape(t)
  {
    && t.status[a] == Queued && t.code[a] == code && t.willFail[a] == mark && t.fenced[a] == fenced && a !in t.started
    && t.age[a] == s.nextAge && WaitsFor(s, t, a, u)
  }

  predicate LinksToItself(s: Jd, a: Id, u: UserAtom)
    requires Shape(s)
  {
    !BadType(u.pre0) && !BadType(u.pre1) && Failed(s, u.pre0) && u.pre1.id == a && a != 0
  }

  /** What a submission leaves behind. */
  ghost predicate Entered(s: Jd, t: Jd, a: Id, u: UserAtom, ans: Answers, soft: seq<SoftStep>)
    requires Shape(s) && Shape(t) && StepsOk(soft)
  {
    var r := u.coreReq;
    var links := InProgress(s, u.pre0) || InProgress(s, u.pre1);
    var fence := Bit(r, 8) && ans.fencePending;
    if BadType(u.pre0) || BadType(u.pre1) then OverWith(s, t, a, r, 0x40)
    else if LinksToItself(s, a, u) then
      t.status[a] == Queued && t.dep[1][a].Link? && t.dep[1][a].atom == a
    else if Failed(s, u.pre0) || Failed(s, u.pre1) then
      var code := s.code[if Failed(s, u.pre1) then u.pre1.id else u.pre0.id];
      if links then QueuedWith(s, t, a, u, code, code, false) else OverWith(s, t, a, r, code)
    else if !WellFormed(u, ans) || !ValidAtom(u, ans) then OverWith(s, t, a, r, 0x4003)
    else if fence || (links && (DependencyOnly(r) || Bit(r, 9))) then QueuedWith(s, t, a, u, 1, 0, fence)
    else if DependencyOnly(r) then OverWith(s, t, a, r, 1)
    else if Bit(r, 9) then
      if soft[a].finished then OverWith(s, t, a, r, soft[a].code)
      else t.status[a] == Queued && t.code[a] == soft[a].code && a in t.started && WaitsFor(s, t, a, u)
    else if links && !ans.accepts then QueuedWith(s, t, a, u, 1, 0, false)
    else if s.dying && ans.scheduledOut then OverWith(s, t, a, r, 0x4002)
    else
      && t.status[a] == InJs && t.code[a] == 1 && t.willFail[a] == 0 && !t.fenced[a] && t.age[a] == s.nextAge
      && t.dep[0][a].NoLink? && t.dep[1][a].NoLink?
  }

  // ------------------------------------------------------------- the terms

  /** By the numbers of the bits: what the dispatcher reads out of the core requirements. */
  lemma ReqBits(r: CoreReq)
    ensures ReqOf(r).kind == DepOnly <==> DependencyOnly(r)
    ensures ReqOf(r).kind == Soft <==> Bit(r, 9)
    ensures ReqOf(r).report == Never <==> Bit(r, 14)
    ensures ReqOf(r).report == OnFailure <==> Bit(r, 12) && !Bit(r, 14)
    ensures ReqOf(r).extRes <==> Bit(r, 8)
  {
  }

  lemma MaskBits(r: CoreReq)
    ensures r & REQ_SPECIFIC_COHERENT_GROUP != 0 <==> Bit(r, 11)
    ensures r & REQ_EXTERNAL_RESOURCES != 0 <==> Bit(r, 8)
    ensures r & REQ_EVENT_COALESCE != 0 <==> Bit(r, 5)
    ensures r & REQ_SOFT_JOB != 0 <==> Bit(r, 9)
    ensures r & REQ_SOFT_JOB_TYPE == REQ_SOFT_FENCE_WAIT <==>
      Bit(r, 9) && Bit(r, 0) && Bit(r, 1) && !Bit(r, 2) && !Bit(r, 3) && !Bit(r, 4)
  {
  }

  lemma ValidBits(r: CoreReq, issue8987: bool)
    ensures AtomValid(r, issue8987) <==>
      && !(Bit(r, 0) && (Bit(r, 1) || Bit(r, 2) || Bit(r, 10)))
      && !(issue8987 && Bit(r, 10) && (Bit(r, 1) || Bit(r, 2)))
  {
  }

  lemma ChecksAre(u: UserAtom, ans: Answers)
    ensures Malformed(u, ans) <==> !WellFormed(u, ans)
    ensures PassesValidation(u, ans) <==> ValidAtom(u, ans)
    ensures FencePending(u, ans) <==> Bit(u.coreReq, 8) && ans.fencePending
  {
    hide ReqOf, Bit, AtomValid;
    ReqBits(u.coreReq);
    MaskBits(u.coreReq);
    ValidBits(u.coreReq, ans.issue8987);
  }

  lemma TermsAre(s: Jd, u: UserAtom)
    requires Shape(s)
    ensures forall d: Side :: TypeOk(u.Pre(d)) == !BadType(u.Pre(d))
    ensures forall d: Side :: EarlyTaint(s, u.Pre(d)) == Failed(s, u.Pre(d)) && WillLink(s, u.Pre(d)) == InProgress(s, u.Pre(d))
  {
  }

  // -------------------------------------------------------- the completions

  ghost predicate NobodyLinks(s: Jd, a: Id)
    requires Shape(s)
  {
    forall d: Side, c: Id :: c != a && s.dep[d][c].Link? ==> s.dep[d][c].atom != a
  }

  lemma {:induction false} NobodyDepends(s: Jd, a: Id, b: Id)
    requires Shape(s) && LinksOk(s, {a}) && b != a && NobodyLinks(s, a)
    ensures !DependsOn(s, a, b)
    decreases s.age[b]
  {
    forall d: Side | s.dep[d][b].Link?
      ensures s.dep[d][b].atom != a && !DependsOn(s, a, s.dep[d][b].atom)
    {
      NobodyDepends(s, a, s.dep[d][b].atom);
    }
  }

  /** Every atom but a is as before. */
  ghost predicate OnlyTouches(s: Jd, t: Jd, a: Id) {
    Shape(s) && Shape(t) && forall b: Id :: b != a ==> Untouched(s, t, b)
  }

  /** Completing an atom that nobody is linked to ends that atom only. */
  lemma AloneEnds(q: Jd, t: Jd, a: Id, soft: seq<SoftStep>)
    requires Shape(q) && Finalised(q, t, a, soft) && NobodyLinks(q, a)
    ensures OnlyTouches(q, t, a)
  {
    hide HeadsMatch, Count, Ages, Lists, ListsBut, Completion, Freed, DependsOn, Untouched;
    var s0 := Start(q, a);
    StartKeepsCore(q, a);
    StartLinks(q, a);
    forall b: Id | b != a
      ensures Untouched(q, t, b)
    {
      NobodyDepends(s0, a, b);
    }
  }

  lemma StartLinks(q: Jd, a: Id)
    requires Shape(q) && NobodyLinks(q, a)
    ensures Shape(Start(q, a)) && NobodyLinks(Start(q, a), a)
  {
    UnlinkShape(q, 0, a);
    UnlinkShape(Unlink(q, 0, a), 1, a);
  }

  lemma ItsEnd(q: Jd, t: Jd, a: Id, soft: seq<SoftStep>)
    requires Shape(q) && Finalised(q, t, a, soft)
    ensures Shape(t) && t.code[a] == q.code[a] && t.age == q.age && t.req == q.req && q.age[a] in t.log
    ensures t.status[a] == RestingStatus(t, a, false)
  {
    hide HeadsMatch, Count, Ages, Lists, ListsBut, OthersKept, LinksLost, TaintRight, WaitRight, CodesRight, UnlinkBoth, LeftAlone,
      RestingStatus;
    StartKeepsCore(q, a);
    StartFrame(q, a);
    var s0 := Start(q, a);
    OutcomesJudged(s0, a, soft);
    EndsIff(s0, a, soft, Outcomes(s0, a, soft), a);
  }

  /** The new atom is finalised from state q. */
  lemma EndedOverWith(s: Jd, q: Jd, t: Jd, a: Id, r: CoreReq, soft: seq<SoftStep>)
    requires Shape(s) && Shape(q) && Finalised(q, t, a, soft) && NobodyLinks(q, a) && OnlyTouches(s, q, a)
    requires q.age[a] == s.nextAge && q.req[a] == ReqOf(r)
    ensures Shape(t) && OverWith(s, t, a, r, q.code[a]) && OnlyTouches(s, t, a)
  {
    hide Finalised, Shape, ReqOf, NobodyLinks;
    AloneEnds(q, t, a, soft);
    ItsEnd(q, t, a, soft);
    ReqBits(r);
    UntouchedTrans(s, q, t, a);
  }

  /** A step that changes fields of atom a only. */
  lemma TouchesMore(s: Jd, q: Jd, t: Jd, a: Id)
    requires OnlyTouches(s, q, a) && Shape(t)
    requires forall b: Id :: b != a ==> t.status[b] == q.status[b] && t.code[b] == q.code[b] && t.willFail[b] == q.willFail[b]
    requires forall d: Side, b: Id :: b != a ==> t.dep[d][b] == q.dep[d][b]
    ensures OnlyTouches(s, t, a)
  {
    forall b: Id | b != a
      ensures Untouched(s, t, b)
    {
      assert Untouched(s, q, b);
    }
  }

  lemma UntouchedTrans(s: Jd, q: Jd, t: Jd, a: Id)
    requires OnlyTouches(s, q, a) && OnlyTouches(q, t, a)
    ensures OnlyTouches(s, t, a)
  {
    forall b: Id | b != a
      ensures Untouched(s, t, b)
    {
      assert Untouched(s, q, b) && Untouched(q, t, b);
    }
  }

  // --------------------------------------------------------- the new atom

  lemma NobodyNamesUnused(s: Jd, a: Id)
    requires Inv(s) && s.status[a] == Unused
    ensures NobodyLinks(s, a)
  {
  }

  /** The new atom after the dependency loop. */
  lemma QueueIs(s: Jd, a: Id, u: UserAtom, code: nat)
    requires Inv(s) && s.status[a] == Unused && !SelfLink(s, a, u) && TypeOk(u.pre0) && TypeOk(u.pre1)
    ensures var q := Queue(s, a, u, code);
      && OnlyTouches(s, q, a) && NobodyLinks(q, a) && QueuedWith(s, q, a, u, code, 0, false)
      && q.dying == s.dying && q.req[a] == ReqOf(u.coreReq) && q.started == s.started
      && (Unlinked(q, a) <==> !InProgress(s, u.pre0) && !InProgress(s, u.pre1))
  {
    hide Graph, Count, Ages, AddDeps, EarlyTaint, Lists, WillLink, InProgress, SelfLink;
    InvHeads(s);
    InvFacts(s, a);
    NobodyNamesUnused(s, a);
    QueueShape(s, a, u);
    AddDepsHeads(s, a, u);
    AddDepsStatus(s, a, u);
    AddDepsFrame(s, a, u);
    TermsAre(s, u);
    var q := Queue(s, a, u, code);
    assert forall d: Side, c: Id :: c != a ==> q.dep[d][c] == s.dep[d][c];
    assert WaitsFor(s, q, a, u);
  }

  lemma BadEntryIs(s: Jd, a: Id, u: UserAtom)
    requires Inv(s) && s.status[a] == Unused
    ensures var q := BadEntry(s, a, u);
      && OnlyTouches(s, q, a) && NobodyLinks(q, a) && q.age[a] == s.nextAge && q.req[a] == ReqOf(u.coreReq) && q.code[a] == 0x40
  {
    hide Graph, Count, Ages, Lists, ReqOf;
    NobodyNamesUnused(s, a);
  }

  // -------------------------------------------------------- the submission

  /** The literal conditions decide what the dispatcher's own terms decide. */
  lemma FateIs(s: Jd, a: Id, u: UserAtom, ans: Answers)
    requires Shape(s)
    ensures FateOf(s, a, u, ans) ==
      if BadType(u.pre0) || BadType(u.pre1) then BadDependency
      else if LinksToItself(s, a, u) then FailsLater
      else if Failed(s, u.pre0) || Failed(s, u.pre1) then
        if InProgress(s, u.pre0) || InProgress(s, u.pre1) then FailsLater else FailsNow
      else if !WellFormed(u, ans) then Refused
      else if !ValidAtom(u, ans) then Invalid
      else if (Bit(u.coreReq, 8) && ans.fencePending)
              || ((InProgress(s, u.pre0) || InProgress(s, u.pre1)) && (DependencyOnly(u.coreReq) || Bit(u.coreReq, 9))) then Waits
      else Runs
    ensures SelfLink(s, a, u) <==> LinksToItself(s, a, u)
  {
    hide TypeOk, BadType, EarlyTaint, Failed, WillLink, InProgress, Malformed, WellFormed, PassesValidation, ValidAtom, FencePending,
      ReqOf, DependencyOnly, Bit;
    TermsAre(s, u);
    assert u.Pre(0) == u.pre0 && u.Pre(1) == u.pre1;
    ChecksAre(u, ans);
    ReqBits(u.coreReq);
  }

  lemma SelfLinked(s: Jd, t: Jd, a: Id, u: UserAtom, ans: Answers, soft: seq<SoftStep>)
    requires Inv(s) && StepsOk(soft) && s.status[a] == Unused && Submitted(s, t, a, u, ans, soft) && SelfLink(s, a, u)
    ensures Shape(t) && t.status[a] == Queued && t.dep[1][a].Link? && t.dep[1][a].atom == a
  {
    hide Graph, Count, Ages, Lists, EarlyTaint, AddDeps;
    SelfLinkBreaks(s, a, u);
    EarlyFate(s, a, u, ans);
  }

  lemma PassedOnIs(s: Jd, a: Id, u: UserAtom)
    requires Inv(s) && s.status[a] == Unused && !SelfLink(s, a, u) && TypeOk(u.pre0) && TypeOk(u.pre1)
    requires Failed(s, u.pre0) || Failed(s, u.pre1)
    ensures PassedOn(s, a, u) == s.code[if Failed(s, u.pre1) then u.pre1.id else u.pre0.id]
  {
    hide Graph, Count, Ages, Lists, AddDeps, EarlyTaint, Failed;
    TermsAre(s, u);
    assert u.Pre(0) == u.pre0 && u.Pre(1) == u.pre1;
    AddDepsStatus(s, a, u);
  }

  /** Submissions that are over before the atom is checked, or that fail. */
  lemma EnteredFailing(s: Jd, t: Jd, a: Id, u: UserAtom, ans: Answers, soft: seq<SoftStep>)
    requires Inv(s) && StepsOk(soft) && s.status[a] == Unused && Submitted(s, t, a, u, ans, soft) && !SelfLink(s, a, u)
    requires FateOf(s, a, u, ans) in {BadDependency, FailsNow, FailsLater}
    ensures Shape(t) && OnlyTouches(s, t, a) && Entered(s, t, a, u, ans, soft)
  {
    hide Inv, Queue, BadEntry, Finalised, FateOf, SelfLink, Failed, InProgress, BadType, WellFormed, ValidAtom, NobodyLinks, WaitsFor,
      ReqOf, Untouched, OverWith, Bit, PassedOn;
    InvShape(s);
    FateIs(s, a, u, ans);
    if FateOf(s, a, u, ans) == BadDependency {
      BadEntryIs(s, a, u);
      EndedOverWith(s, BadEntry(s, a, u), t, a, u.coreReq, soft);
    } else {
      TermsAre(s, u);
      assert u.Pre(0) == u.pre0 && u.Pre(1) == u.pre1;
      PassedOnIs(s, a, u);
      var code := PassedOn(s, a, u);
      QueueIs(s, a, u, code);
      if FateOf(s, a, u, ans) == FailsNow {
        EndedOverWith(s, Queue(s, a, u, code), t, a, u.coreReq, soft);
      } else {
        MarkIs(s, Queue(s, a, u, code), t, a, u, code);
      }
    }
  }

  lemma MarkIs(s: Jd, q: Jd, t: Jd, a: Id, u: UserAtom, code: nat)
    requires Shape(s) && OnlyTouches(s, q, a) && QueuedWith(s, q, a, u, code, 0, false)
    requires t == q.(willFail := q.willFail[a := code])
    ensures Shape(t) && OnlyTouches(s, t, a) && QueuedWith(s, t, a, u, code, code, false)
  {
    TouchesMore(s, q, t, a);
  }

  lemma FenceIs(s: Jd, q: Jd, a: Id, u: UserAtom, code: nat, pending: bool)
    requires Shape(s) && OnlyTouches(s, q, a) && QueuedWith(s, q, a, u, code, 0, false)
    ensures var t := WithFence(q, a, pending);
      && Shape(t) && OnlyTouches(s, t, a) && QueuedWith(s, t, a, u, code, 0, pending) && t.req == q.req
      && (NobodyLinks(q, a) ==> NobodyLinks(t, a))
  {
    TouchesMore(s, q, WithFence(q, a, pending), a);
  }

  /** Submissions that are refused, or that wait. */
  lemma EnteredChecked(s: Jd, t: Jd, a: Id, u: UserAtom, ans: Answers, soft: seq<SoftStep>)
    requires Inv(s) && StepsOk(soft) && s.status[a] == Unused && Submitted(s, t, a, u, ans, soft) && !SelfLink(s, a, u)
    requires FateOf(s, a, u, ans) in {Refused, Invalid, Waits}
    ensures Shape(t) && OnlyTouches(s, t, a) && Entered(s, t, a, u, ans, soft)
  {
    hide Inv, Queue, Finalised, FateOf, SelfLink, Failed, InProgress, BadType, WellFormed, ValidAtom, NobodyLinks, WaitsFor,
      ReqOf, Untouched, OverWith, Bit, FencePending, WithFence, DependencyOnly;
    InvShape(s);
    FateIs(s, a, u, ans);
    TermsAre(s, u);
    assert u.Pre(0) == u.pre0 && u.Pre(1) == u.pre1;
    ChecksAre(u, ans);
    var code := if FateOf(s, a, u, ans) == Waits then DONE else JOB_INVALID;
    QueueIs(s, a, u, code);
    FenceIs(s, Queue(s, a, u, code), a, u, code, FencePending(u, ans));
    if FateOf(s, a, u, ans) == Refused {
      EndedOverWith(s, Queue(s, a, u, code), t, a, u.coreReq, soft);
    } else if FateOf(s, a, u, ans) == Invalid {
      EndedOverWith(s, WithFence(Queue(s, a, u, code), a, FencePending(u, ans)), t, a, u.coreReq, soft);
    }
  }

  lemma SoftIs(s: Jd, q: Jd, a: Id, u: UserAtom, code: nat)
    requires Shape(s) && OnlyTouches(s, q, a) && QueuedWith(s, q, a, u, DONE, 0, false) && NobodyLinks(q, a)
    ensures var r := q.(code := q.code[a := code]);
      && Shape(r) && OnlyTouches(s, r, a) && NobodyLinks(r, a) && r.age == q.age && r.req == q.req && WaitsFor(s, r, a, u)
      && r.status[a] == Queued
      && var w := r.(started := r.started + {a}); OnlyTouches(s, w, a) && WaitsFor(s, w, a, u)
  {
    var r := q.(code := q.code[a := code]);
    TouchesMore(s, q, r, a);
    TouchesMore(s, q, r.(started := r.started + {a}), a);
  }

  lemma AcceptIs(s: Jd, q: Jd, a: Id, u: UserAtom)
    requires Shape(s) && OnlyTouches(s, q, a) && QueuedWith(s, q, a, u, DONE, 0, false) && NobodyLinks(q, a)
    ensures var r := UnlinkBoth(SetStatus(q, a, InJs), a);
      && Shape(r) && OnlyTouches(s, r, a) && OnlyTouches(s, Kill(r, a), a) && NobodyLinks(Kill(r, a), a)
      && r.req == q.req && r.age == q.age
      && r.status[a] == InJs && r.code[a] == 1 && r.willFail[a] == 0 && !r.fenced[a] && Unlinked(r, a)
  {
    hide WaitsFor;
    var v := SetStatus(q, a, InJs);
    UnlinkShape(v, 0, a);
    UnlinkShape(Unlink(v, 0, a), 1, a);
    var r := UnlinkBoth(v, a);
    TouchesMore(s, q, r, a);
    TouchesMore(s, q, Kill(r, a), a);
  }

  lemma EnteredRuns(s: Jd, t: Jd, a: Id, u: UserAtom, ans: Answers, soft: seq<SoftStep>)
    requires Inv(s) && StepsOk(soft) && s.status[a] == Unused && Submitted(s, t, a, u, ans, soft) && !SelfLink(s, a, u)
    requires FateOf(s, a, u, ans) == Runs
    ensures Shape(t) && OnlyTouches(s, t, a) && Entered(s, t, a, u, ans, soft)
  {
    hide Inv, Queue, Finalised, FateOf, SelfLink, Failed, InProgress, BadType, WellFormed, ValidAtom, NobodyLinks, WaitsFor,
      ReqOf, Untouched, OverWith, Bit, DependencyOnly, UnlinkBoth;
    InvShape(s);
    FateIs(s, a, u, ans);
    ReqBits(u.coreReq);
    TermsAre(s, u);
    assert u.Pre(0) == u.pre0 && u.Pre(1) == u.pre1;
    var q := Queue(s, a, u, DONE);
    QueueIs(s, a, u, DONE);
    match q.req[a].kind
    case DepOnly => EndedOverWith(s, q, t, a, u.coreReq, soft);
    case Soft =>
      SoftIs(s, q, a, u, soft[a].code);
      if soft[a].finished {
        EndedOverWith(s, q.(code := q.code[a := soft[a].code]), t, a, u.coreReq, soft);
      }
    case Gpu =>
      AcceptIs(s, q, a, u);
      if (ans.accepts || Unlinked(q, a)) && q.dying && ans.scheduledOut {
        EndedOverWith(s, Kill(UnlinkBoth(SetStatus(q, a, InJs), a), a), t, a, u.coreReq, soft);
      }
  }

  /** What a submission comes to, for every atom, every state of the tables and all answers; and it
      touches no atom but the new one, unless the new one has linked to itself. */
  lemma SubmissionEnds(s: Jd, t: Jd, a: Id, u: UserAtom, ans: Answers, soft: seq<SoftStep>)
    requires Inv(s) && StepsOk(soft) && s.status[a] == Unused && Submitted(s, t, a, u, ans, soft)
    ensures Shape(t) && Entered(s, t, a, u, ans, soft)
    ensures !LinksToItself(s, a, u) ==> OnlyTouches(s, t, a)
  {
    hide Inv, Submitted, FateOf, SelfLink, OnlyTouches, Failed, InProgress, BadType, WellFormed, ValidAtom;
    InvShape(s);
    FateIs(s, a, u, ans);
    if SelfLink(s, a, u) {
      SelfLinked(s, t, a, u, ans, soft);
    } else if FateOf(s, a, u, ans) in {BadDependency, FailsNow, FailsLater} {
      EnteredFailing(s, t, a, u, ans, soft);
    } else if FateOf(s, a, u, ans) == Runs {
      EnteredRuns(s, t, a, u, ans, soft);
    } else {
      EnteredChecked(s, t, a, u, ans, soft);
    }
  }

  /** The three submissions that break the invariant: the atom links to itself, it fails validation while
      a fence is pending, or the scheduler takes it while the context is dying and scheduled out. */
  predicate Breaks(s: Jd, a: Id, u: UserAtom, ans: Answers)
    requires Shape(s)
  {
    var r := u.coreReq;
    var fence := Bit(r, 8) && ans.fencePending;
    && !BadType(u.pre0) && !BadType(u.pre1)
    && if LinksToItself(s, a, u) then true
       else if Failed(s, u.pre0) || Failed(s, u.pre1) || !WellFormed(u, ans) then false
       else if !ValidAtom(u, ans) then fence
       else
         && !fence && !DependencyOnly(r) && !Bit(r, 9) && s.dying && ans.scheduledOut
         && (ans.accepts || (!InProgress(s, u.pre0) && !InProgress(s, u.pre1)))
  }

  lemma BreaksIff(s: Jd, a: Id, u: UserAtom, ans: Answers)
    requires Shape(s)
    ensures Breaks(s, a, u, ans) <==> SelfLink(s, a, u) || FencedRefusal(s, a, u, ans) || KilledOnEntry(s, a, u, ans)
  {
    hide FateOf, SelfLink, Failed, InProgress, BadType, WellFormed, ValidAtom, WillLink, ReqOf, DependencyOnly, Bit, FencePending;
    FateIs(s, a, u, ans);
    TermsAre(s, u);
    assert u.Pre(0) == u.pre0 && u.Pre(1) == u.pre1;
    ReqBits(u.coreReq);
    ChecksAre(u, ans);
  }
}
