/** What one completion does to every other atom, defined from the dependency graph alone,
    and the bookkeeping that ties a run of the worklist to that definition. */
module JdOutcome {
  import opened Sequences
  import opened JdState
  import opened JdSteps

  /** An atom is left unfinished, or is finalised with or without success. */
  datatype Verdict = Stays | Ends(ok: bool)

  /** What processing a soft job does: whether it is finished at once (the step returned
      zero) and the event code it leaves. */
  datatype SoftStep = SoftStep(finished: bool, code: nat)

  ghost predicate StepsOk(soft: seq<SoftStep>) {
    |soft| == ATOM_COUNT && forall b: Id :: soft[b].code != NOT_STARTED
  }

  /** A DATA link to an atom that fails. */
  predicate DataFails(l: Link, v: Verdict) {
    l.Link? && l.typ != Order && v == Ends(false)
  }

  /** The verdict on b from those on its two predecessors, when a completes. */
  ghost function Judge(s: Jd, a: Id, soft: seq<SoftStep>, b: Id, v0: Verdict, v1: Verdict): Verdict
    requires Shape(s) && StepsOk(soft)
  {
    if b == a then Ends(s.code[a] == DONE)
    else if s.status[b] != Queued || Unlinked(s, b) || s.fenced[b] || v0.Stays? || v1.Stays? then Stays
    else if s.dying then Ends(s.code[a] == DONE)
    else
      var doomed := s.willFail[b] != 0 || DataFails(s.dep[0][b], v0) || DataFails(s.dep[1][b], v1);
      match s.req[b].kind
      case Gpu => Stays
      case DepOnly => Ends(!doomed)
      case Soft =>
        if doomed then Ends(false)
        else if soft[b].finished then Ends(soft[b].code == DONE)
        else Stays
  }

  /** What completing a does to b, by recursion over the links. */
  ghost function Outcome(s: Jd, a: Id, soft: seq<SoftStep>, b: Id): Verdict
    requires Shape(s) && StepsOk(soft) && LinksOk(s, {a})
    decreases s.age[b]
  {
    Judge(s, a, soft, b,
          if s.dep[0][b].NoLink? then Ends(true) else Outcome(s, a, soft, s.dep[0][b].atom),
          if s.dep[1][b].NoLink? then Ends(true) else Outcome(s, a, soft, s.dep[1][b].atom))
  }

  ghost function Outcomes(s: Jd, a: Id, soft: seq<SoftStep>): (o: seq<Verdict>)
    requires Shape(s) && StepsOk(soft) && LinksOk(s, {a})
    ensures |o| == ATOM_COUNT && forall b: Id :: o[b] == Outcome(s, a, soft, b)
  {
    seq(ATOM_COUNT, (b: int) requires 0 <= b < ATOM_COUNT => Outcome(s, a, soft, b))
  }

  ghost function LinkVerdict(s: Jd, o: seq<Verdict>, d: Side, b: Id): Verdict
    requires Shape(s) && |o| == ATOM_COUNT
  {
    if s.dep[d][b].NoLink? then Ends(true) else o[s.dep[d][b].atom]
  }

  ghost predicate Judged(s: Jd, a: Id, soft: seq<SoftStep>, o: seq<Verdict>)
    requires Shape(s) && StepsOk(soft)
  {
    && |o| == ATOM_COUNT
    && forall b: Id :: o[b] == Judge(s, a, soft, b, LinkVerdict(s, o, 0, b), LinkVerdict(s, o, 1, b))
  }

  lemma OutcomesJudged(s: Jd, a: Id, soft: seq<SoftStep>)
    requires Shape(s) && StepsOk(soft) && LinksOk(s, {a})
    ensures Judged(s, a, soft, Outcomes(s, a, soft))
  {
  }

  /** jd_run_atom, with the scheduler's answer for a GPU atom. */
  function Ran(s: Jd, b: Id, step: SoftStep, accepted: bool): Jd
    requires Shape(s)
  {
    match s.req[b].kind
    case DepOnly => SetStatus(s, b, Completed)
    case Soft =>
      if s.willFail[b] != 0 then SetStatus(s, b, Completed)
      else if step.finished then SetStatus(s, b, Completed).(code := s.code[b := step.code])
      else s.(started := s.started + {b}, code := s.code[b := step.code])
    case Gpu => if accepted then UnlinkBoth(SetStatus(s, b, InJs), b) else s
  }

  // ------------------------------------------------------- the least set

  /** b is waiting for links only, and once they are resolved it is finalised without
      leaving the dispatcher: the context is dying, b is dependency-only, or b is a soft
      job that is marked to fail or whose step finishes at once. */
  ghost predicate MayEnd(s: Jd, soft: seq<SoftStep>, o: seq<Verdict>, b: Id)
    requires Shape(s) && StepsOk(soft) && |o| == ATOM_COUNT
  {
    && s.status[b] == Queued && !Unlinked(s, b) && !s.fenced[b]
    && (|| s.dying
        || s.req[b].kind == DepOnly
        || (s.req[b].kind == Soft && (soft[b].finished || Doomed(s, o, b))))
  }

  ghost predicate Doomed(s: Jd, o: seq<Verdict>, b: Id)
    requires Shape(s) && |o| == ATOM_COUNT
  {
    || s.willFail[b] != 0
    || DataFails(s.dep[0][b], LinkVerdict(s, o, 0, b))
    || DataFails(s.dep[1][b], LinkVerdict(s, o, 1, b))
  }

  ghost predicate LinksInto(s: Jd, b: Id, X: set<Id>)
    requires Shape(s)
  {
    forall d: Side :: s.dep[d][b].Link? ==> s.dep[d][b].atom in X
  }

  ghost predicate Closed(s: Jd, a: Id, soft: seq<SoftStep>, o: seq<Verdict>, X: set<Id>)
    requires Shape(s) && StepsOk(soft) && |o| == ATOM_COUNT
  {
    a in X && forall b: Id :: MayEnd(s, soft, o, b) && LinksInto(s, b, X) ==> b in X
  }

  ghost function EndSet(o: seq<Verdict>): set<Id>
    requires |o| == ATOM_COUNT
  {
    set b: Id | 0 <= b < ATOM_COUNT && o[b].Ends?
  }

  lemma EndsIff(s: Jd, a: Id, soft: seq<SoftStep>, o: seq<Verdict>, b: Id)
    requires Shape(s) && StepsOk(soft) && Judged(s, a, soft, o)
    ensures o[b].Ends? <==> b == a || (MayEnd(s, soft, o, b) && LinksInto(s, b, EndSet(o)))
  {
    if MayEnd(s, soft, o, b) && LinksInto(s, b, EndSet(o)) {
      assert LinkVerdict(s, o, 0, b).Ends? && LinkVerdict(s, o, 1, b).Ends?;
    }
    if o[b].Ends? && b != a {
      assert LinkVerdict(s, o, 0, b).Ends? && LinkVerdict(s, o, 1, b).Ends?;
    }
  }

  lemma {:induction false} EndsInClosed(s: Jd, a: Id, soft: seq<SoftStep>, o: seq<Verdict>, X: set<Id>, b: Id)
    requires Shape(s) && StepsOk(soft) && LinksOk(s, {a}) && Judged(s, a, soft, o) && Closed(s, a, soft, o, X)
    requires o[b].Ends?
    ensures b in X
    decreases s.age[b]
  {
    EndsIff(s, a, soft, o, b);
    if b != a {
      forall d: Side | s.dep[d][b].Link?
        ensures s.dep[d][b].atom in X
      {
        EndsInClosed(s, a, soft, o, X, s.dep[d][b].atom);
      }
    }
  }

  /** The atoms that end are the least set that contains a and every atom that may end
      and links into the set only. */
  lemma EndSetIsLeast(s: Jd, a: Id, soft: seq<SoftStep>, X: set<Id>)
    requires Shape(s) && StepsOk(soft) && LinksOk(s, {a})
    ensures Closed(s, a, soft, Outcomes(s, a, soft), EndSet(Outcomes(s, a, soft)))
    ensures Closed(s, a, soft, Outcomes(s, a, soft), X) ==> EndSet(Outcomes(s, a, soft)) <= X
  {
    var o := Outcomes(s, a, soft);
    OutcomesJudged(s, a, soft);
    forall b: Id
      ensures o[b].Ends? <==> b == a || (MayEnd(s, soft, o, b) && LinksInto(s, b, EndSet(o)))
    {
      EndsIff(s, a, soft, o, b);
    }
    if Closed(s, a, soft, o, X) {
      forall b | b in EndSet(o)
        ensures b in X
      {
        EndsInClosed(s, a, soft, o, X, b);
      }
    }
  }

  // ------------------------------------------------- a run of the worklist

  /** Atom b lost link d to an atom that has ended without success, and the link is DATA. */
  ghost predicate Hit(s0: Jd, s: Jd, o: seq<Verdict>, d: Side, b: Id)
    requires Shape(s0) && Shape(s) && |o| == ATOM_COUNT
  {
    s.dep[d][b].NoLink? && DataFails(s0.dep[d][b], LinkVerdict(s0, o, d, b))
  }

  /** The fields no step of the worklist changes. */
  ghost predicate SameFrame(s0: Jd, s: Jd) {
    s.req == s0.req && s.fenced == s0.fenced && s.age == s0.age && s.nextAge == s0.nextAge && s.dying == s0.dying
    && s.cancelling == s0.cancelling
  }

  /** Every atom in E has ended as the verdict says; in a dying context with the code of a. */
  ghost predicate EndedRight(s0: Jd, s: Jd, a: Id, o: seq<Verdict>, E: set<Id>)
    requires Shape(s0) && Shape(s) && |o| == ATOM_COUNT
  {
    forall b :: b in E ==>
      && (s.status[b] == Completed || (s.status[b] == Unused && Silent(s, b) && !s.req[b].extRes))
      && o[b] == Ends(s.code[b] == DONE)
      && (s0.dying || b == a ==> s.code[b] == s0.code[a])
  }

  /** Every other atom is as it was, except that a GPU atom that was queued with links and
      without a fence may have gone to the scheduler. An atom that had no links to lose also
      keeps its code and its mark, and does not start. */
  ghost predicate OthersKept(s0: Jd, s: Jd, E: set<Id>)
    requires Shape(s0) && Shape(s)
  {
    forall b: Id :: b !in E ==>
      && (|| s.status[b] == s0.status[b]
          || (&& s0.status[b] == Queued && !Unlinked(s0, b) && !s0.fenced[b]
              && s.status[b] == InJs && s0.req[b].kind == Gpu && !s0.dying))
      && (s0.status[b] != Queued || Unlinked(s0, b) ==>
            s.code[b] == s0.code[b] && s.willFail[b] == s0.willFail[b] && (b in s.started <==> b in s0.started))
  }

  /** A waiting atom has only lost links to atoms in E, ... */
  ghost predicate LinksLost(s0: Jd, s: Jd, E: set<Id>)
    requires Shape(s0) && Shape(s)
  {
    forall d: Side, b: Id :: s.status[b] == Queued ==>
      || s.dep[d][b] == s0.dep[d][b]
      || (s.dep[d][b].NoLink? && s0.dep[d][b].Link? && s0.dep[d][b].atom in E)
  }

  /** ... and it is marked to fail if it was before or one of those links tainted it. */
  ghost predicate TaintRight(s0: Jd, s: Jd, o: seq<Verdict>)
    requires Shape(s0) && Shape(s) && |o| == ATOM_COUNT
  {
    forall b: Id :: s.status[b] == Queued && b !in s.started ==>
      (s.willFail[b] != 0 <==> s0.willFail[b] != 0 || Hit(s0, s, o, 0, b) || Hit(s0, s, o, 1, b))
  }

  /** b has the code of a failed DATA predecessor among the atoms in E. */
  ghost predicate CodeOf(s0: Jd, s: Jd, E: set<Id>, d: Side, b: Id)
    requires Shape(s0) && Shape(s)
  {
    s0.dep[d][b].Link? && s0.dep[d][b].typ != Order && s0.dep[d][b].atom in E && s.code[b] == s.code[s0.dep[d][b].atom]
  }

  /** A waiting atom, and a dependency-only atom that has ended, has the code it had or that of a
      DATA predecessor that has failed it; in a dying context the latter takes another code. */
  ghost predicate CodesRight(s0: Jd, s: Jd, a: Id, E: set<Id>)
    requires Shape(s0) && Shape(s)
  {
    forall b: Id ::
      (s.status[b] == Queued && b !in s.started) || (b in E && b != a && !s0.dying && s0.req[b].kind == DepOnly) ==>
        s.code[b] == s0.code[b] || CodeOf(s0, s, E, 0, b) || CodeOf(s0, s, E, 1, b)
  }

  ghost predicate WaitRight(s0: Jd, s: Jd, o: seq<Verdict>, R: seq<Id>)
    requires Shape(s0) && Shape(s) && |o| == ATOM_COUNT
  {
    && (forall b :: b in s.started ==> o[b] == Stays)
    && (forall b :: b in R ==> !Unlinked(s0, b))
  }

  /** The worklist, started from s0, has so far ended the atoms in E. */
  ghost predicate Tracks(s0: Jd, s: Jd, a: Id, o: seq<Verdict>, E: set<Id>, R: seq<Id>) {
    && Shape(s0) && Shape(s) && |o| == ATOM_COUNT
    && SameFrame(s0, s)
    && EndedRight(s0, s, a, o, E)
    && OthersKept(s0, s, E)
    && LinksLost(s0, s, E)
    && TaintRight(s0, s, o)
    && WaitRight(s0, s, o, R)
    && CodesRight(s0, s, a, E)
  }

  lemma TracksStart(s0: Jd, a: Id, soft: seq<SoftStep>, o: seq<Verdict>)
    requires Core(s0, {a}, []) && StepsOk(soft) && Judged(s0, a, soft, o)
    ensures Tracks(s0, s0, a, o, {a}, [])
  {
  }

  lemma ResolveTaintRight(s0: Jd, s: Jd, u: Jd, o: seq<Verdict>, k: Id, d: Side, b: Id)
    requires Shape(s0) && Shape(s) && |o| == ATOM_COUNT && TaintRight(s0, s, o) && LinksTo(s, d, b, k)
    requires s.dep[d][b] == s0.dep[d][b] && o[k] == Ends(s.code[k] == DONE) && s.code[k] != NOT_STARTED
    requires Shape(Unlink(s, d, b)) && u == Resolve(s, k, d, b)
    requires forall e: Side, c: Id :: u.dep[e][c] == (if e == d && c == b then NoLink else s.dep[e][c])
    ensures TaintRight(s0, u, o)
  {
    var other: Side := 1 - d;
    assert forall c: Id :: c != b ==> u.willFail[c] == s.willFail[c];
    assert Hit(s0, u, o, other, b) == Hit(s0, s, o, other, b);
    assert Hit(s0, u, o, d, b) == Taints(s, k, d, b);
    assert !Hit(s0, s, o, d, b);
  }

  lemma TracksResolve(s0: Jd, s: Jd, a: Id, o: seq<Verdict>, E: set<Id>, R: seq<Id>, k: Id, d: Side, b: Id)
    requires Tracks(s0, s, a, o, E, R) && k in E && LinksTo(s, d, b, k) && s.status[b] == Queued
    requires s.code[k] != NOT_STARTED
    ensures Shape(Resolve(s, k, d, b))
    ensures var u := Resolve(s, k, d, b); Tracks(s0, u, a, o, E, R) && Tracks(s0, SetListed(u, b, true), a, o, E, R + [b])
  {
    hide TaintRight, Hit, CodesRight;
    UnlinkShape(s, d, b);
    var u := Resolve(s, k, d, b);
    ResolveTaintRight(s0, s, u, o, k, d, b);
    ResolveCodesRight(s0, s, u, a, E, k, d, b);
    assert Tracks(s0, u, a, o, E, R);
    TracksListed(s0, u, a, o, E, R, b, true, R + [b]);
  }

  lemma ResolveCodesRight(s0: Jd, s: Jd, u: Jd, a: Id, E: set<Id>, k: Id, d: Side, b: Id)
    requires Shape(s0) && Shape(s) && Shape(u) && CodesRight(s0, s, a, E) && LinksTo(s, d, b, k) && k in E
    requires s.dep[d][b] == s0.dep[d][b] && s.status[b] == Queued && !Live(s.status[k])
    requires forall c :: c in E ==> !Live(s.status[c])
    requires Shape(Unlink(s, d, b)) && u == Resolve(s, k, d, b)
    ensures CodesRight(s0, u, a, E)
  {
    assert d == 0 || d == 1;
    forall c: Id, e: Side | c != b && CodeOf(s0, s, E, e, c)
      ensures CodeOf(s0, u, E, e, c)
    {
    }
    if Taints(s, k, d, b) {
      assert CodeOf(s0, u, E, d, b);
    } else {
      assert forall e: Side :: CodeOf(s0, u, E, e, b) == CodeOf(s0, s, E, e, b);
    }
  }

  /** When an atom without links is taken from the list, the verdict on it can be read off its state. */
  lemma VerdictAtRun(s0: Jd, s: Jd, a: Id, soft: seq<SoftStep>, o: seq<Verdict>, E: set<Id>, R: seq<Id>)
    requires Tracks(s0, s, a, o, E, R) && StepsOk(soft) && Judged(s0, a, soft, o)
    requires R != [] && R[0] != a && !s.fenced[R[0]] && s.status[R[0]] == Queued && R[0] !in s.started && Unlinked(s, R[0])
    requires R[0] !in E && s0.status[R[0]] == Queued
    ensures o[R[0]] ==
      if s.dying then Ends(s0.code[a] == DONE)
      else match s.req[R[0]].kind
        case Gpu => Stays
        case DepOnly => Ends(s.willFail[R[0]] == 0)
        case Soft => if s.willFail[R[0]] != 0 then Ends(false)
                     else if soft[R[0]].finished then Ends(soft[R[0]].code == DONE) else Stays
  {
  }

  lemma TracksFinish(s0: Jd, s: Jd, a: Id, o: seq<Verdict>, E: set<Id>, R: seq<Id>, code: nat)
    requires Tracks(s0, s, a, o, E, R) && R != []
    requires o[R[0]] == Ends(code == DONE) && (s0.dying || R[0] == a ==> code == s0.code[a])
    requires R[0] !in E && s.status[R[0]] == Queued && R[0] !in s.started
    requires !s0.dying && s0.req[R[0]].kind == DepOnly ==> code == s.code[R[0]]
    ensures Tracks(s0, Finish(s, R[0], code), a, o, E + {R[0]}, R[1..])
  {
    hide CodesRight;
    CodesFinish(s0, s, a, E, R[0], code);
  }

  lemma CodesFinish(s0: Jd, s: Jd, a: Id, E: set<Id>, b: Id, code: nat)
    requires Shape(s0) && Shape(s) && CodesRight(s0, s, a, E)
    requires b !in E && s.status[b] == Queued && b !in s.started
    requires !s0.dying && s0.req[b].kind == DepOnly ==> code == s.code[b]
    ensures CodesRight(s0, Finish(s, b, code), a, E + {b})
  {
    var t := Finish(s, b, code);
    forall c: Id, d: Side | CodeOf(s0, s, E, d, c) && t.code[c] == s.code[c]
      ensures CodeOf(s0, t, E + {b}, d, c)
    {
    }
  }

  lemma TracksWait(s0: Jd, s: Jd, a: Id, o: seq<Verdict>, E: set<Id>, R: seq<Id>, code: nat)
    requires Tracks(s0, s, a, o, E, R) && R != [] && o[R[0]] == Stays && s.status[R[0]] == Queued && R[0] !in E
    ensures Tracks(s0, Wait(s, R[0], code), a, o, E, R[1..])
  {
  }

  lemma TracksListed(s0: Jd, s: Jd, a: Id, o: seq<Verdict>, E: set<Id>, R: seq<Id>, b: Id, on: bool, R': seq<Id>)
    requires Tracks(s0, s, a, o, E, R)
    requires forall x :: x in R' ==> x in R || !Unlinked(s0, x)
    ensures Tracks(s0, SetListed(s, b, on), a, o, E, R')
  {
  }

  lemma TracksAccept(s0: Jd, s: Jd, a: Id, o: seq<Verdict>, E: set<Id>, R: seq<Id>)
    requires Tracks(s0, s, a, o, E, R) && R != [] && s.status[R[0]] == Queued && R[0] !in E
    requires s.req[R[0]].kind == Gpu && !s.dying && !s.fenced[R[0]]
    ensures Shape(Accept(s, R[0])) && Tracks(s0, Accept(s, R[0]), a, o, E, R[1..])
  {
    hide TaintRight, CodesRight;
    var v := SetStatus(SetListed(s, R[0], false), R[0], InJs);
    UnlinkShape(v, 0, R[0]);
    UnlinkShape(Unlink(v, 0, R[0]), 1, R[0]);
    TaintAccept(s0, s, Accept(s, R[0]), o, R[0]);
    CodesAccept(s0, s, Accept(s, R[0]), a, E, R[0]);
  }

  lemma TaintAccept(s0: Jd, s: Jd, t: Jd, o: seq<Verdict>, b: Id)
    requires Shape(s0) && Shape(s) && Shape(t) && |o| == ATOM_COUNT && TaintRight(s0, s, o)
    requires t.status == s.status[b := InJs] && t.willFail == s.willFail && t.started == s.started
    requires forall d: Side, c: Id :: c != b ==> t.dep[d][c] == s.dep[d][c]
    ensures TaintRight(s0, t, o)
  {
    assert forall d: Side, c: Id :: c != b ==> Hit(s0, t, o, d, c) == Hit(s0, s, o, d, c);
  }

  lemma CodesAccept(s0: Jd, s: Jd, t: Jd, a: Id, E: set<Id>, b: Id)
    requires Shape(s0) && Shape(s) && Shape(t) && CodesRight(s0, s, a, E)
    requires t.status == s.status[b := InJs] && t.code == s.code && t.started == s.started
    ensures CodesRight(s0, t, a, E)
  {
  }

  lemma TracksFinalise(s0: Jd, s: Jd, a: Id, o: seq<Verdict>, E: set<Id>, R: seq<Id>, k: Id, deferred: bool)
    requires Tracks(s0, s, a, o, E, R) && k in E
    ensures Tracks(s0, Finalise(s, k, deferred), a, o, E, R)
  {
  }

  /** The log has grown by one entry for each atom in E that is no longer in P. */
  ghost predicate Logged(s0: Jd, s: Jd, E: set<Id>, P: set<Id>)
    requires Shape(s0) && Shape(s)
  {
    && P <= E
    && s0.log <= s.log && |s.log| == |s0.log| + |E| - |P|
    && (forall b :: b in E && b !in P ==> s.age[b] in s.log[|s0.log|..])
  }

  lemma LoggedFinish(s0: Jd, s: Jd, t: Jd, E: set<Id>, P: set<Id>, b: Id)
    requires Shape(s0) && Shape(s) && Shape(t) && Logged(s0, s, E, P) && t.log == s.log && t.age == s.age && b !in E
    ensures Logged(s0, t, E + {b}, P + {b})
  {
  }

  lemma LoggedFinalise(s0: Jd, s: Jd, E: set<Id>, P: set<Id>, k: Id, deferred: bool)
    requires Shape(s0) && Shape(s) && Logged(s0, s, E, P) && k in P
    ensures Logged(s0, Finalise(s, k, deferred), E, P - {k})
  {
    var t := Finalise(s, k, deferred);
    assert t.log[|s0.log|..] == s.log[|s0.log|..] + [s.age[k]];
  }

  // --------------------------------------------- the invariants at once

  /** The invariant of the worklist: the atoms in E have ended, those in P of them are
      still to be finalised, and R is the list of runnable atoms. */
  ghost predicate Working(s0: Jd, s: Jd, a: Id, o: seq<Verdict>, E: set<Id>, P: set<Id>, R: seq<Id>) {
    Core(s, P, R) && Tracks(s0, s, a, o, E, R) && Logged(s0, s, E, P) && a in E
  }

  lemma FirstDependent(s: Jd, P: set<Id>, R: seq<Id>, k: Id, d: Side)
    requires Core(s, P, R) && k in P && s.head[d][k] != []
    ensures NoDup(s.head[d][k]) && LinksTo(s, d, s.head[d][k][0], k) && s.head[d][k][0] != k
    ensures s.status[s.head[d][k][0]] == Queued
  {
    assert LinksTo(s, d, s.head[d][k][0], k);
  }

  lemma WorkingResolve(s0: Jd, s: Jd, a: Id, o: seq<Verdict>, E: set<Id>, P: set<Id>, R: seq<Id>, k: Id, d: Side,
                       t: Jd, R': seq<Id>)
    requires Working(s0, s, a, o, E, P, R) && k in P && Resolved(s, k, d, R, t, R')
    ensures Working(s0, t, a, o, E, P, R')
  {
    var b := s.head[d][k][0];
    FirstDependent(s, P, R, k, d);
    ResolveKeepsCore(s, P, R, k, d, b);
    TracksResolve(s0, s, a, o, E, R, k, d, b);
    assert t.log == s.log && t.age == s.age;
  }

  /** One turn of the drain loop: b leaves the list and runs, or, in a dying context,
      completes with the code of k. */
  function Drained(s: Jd, k: Id, b: Id, step: SoftStep, accepted: bool): Jd
    requires Shape(s)
  {
    var t := SetListed(s, b, false);
    if s.dying then SetStatus(t, b, Completed).(code := s.code[b := s.code[k]]) else Ran(t, b, step, accepted)
  }

  lemma WorkingFinish(s0: Jd, s: Jd, a: Id, o: seq<Verdict>, E: set<Id>, P: set<Id>, R: seq<Id>, code: nat)
    requires Working(s0, s, a, o, E, P, R) && R != [] && Unlinked(s, R[0]) && code != NOT_STARTED
    requires o[R[0]] == Ends(code == DONE) && (s0.dying ==> code == s0.code[a])
    requires !s0.dying && s0.req[R[0]].kind == DepOnly ==> code == s.code[R[0]]
    ensures Working(s0, Finish(s, R[0], code), a, o, E + {R[0]}, P + {R[0]}, R[1..])
  {
    FinishKeepsCore(s, P, R, code);
    FirstRunnable(s0, s, a, o, E, P, R);
    TracksFinish(s0, s, a, o, E, R, code);
    LoggedFinish(s0, s, Finish(s, R[0], code), E, P, R[0]);
  }

  lemma WorkingWait(s0: Jd, s: Jd, a: Id, o: seq<Verdict>, E: set<Id>, P: set<Id>, R: seq<Id>, code: nat)
    requires Working(s0, s, a, o, E, P, R) && R != [] && s.req[R[0]].kind == Soft && code != NOT_STARTED
    requires o[R[0]] == Stays
    ensures Working(s0, Wait(s, R[0], code), a, o, E, P, R[1..])
  {
    WaitKeepsCore(s, P, R, code);
    TracksWait(s0, s, a, o, E, R, code);
  }

  lemma WorkingAccept(s0: Jd, s: Jd, a: Id, o: seq<Verdict>, E: set<Id>, P: set<Id>, R: seq<Id>)
    requires Working(s0, s, a, o, E, P, R) && R != [] && s.req[R[0]].kind == Gpu && !s.dying
    ensures Working(s0, Accept(s, R[0]), a, o, E, P, R[1..])
  {
    AcceptKeepsCore(s, P, R);
    TracksAccept(s0, s, a, o, E, R);
    UnlinkShape(SetStatus(SetListed(s, R[0], false), R[0], InJs), 0, R[0]);
  }

  lemma WorkingDecline(s0: Jd, s: Jd, a: Id, o: seq<Verdict>, E: set<Id>, P: set<Id>, R: seq<Id>)
    requires Working(s0, s, a, o, E, P, R) && R != [] && !Unlinked(s, R[0])
    ensures Working(s0, SetListed(s, R[0], false), a, o, E, P, R[1..])
  {
    DeclineKeepsCore(s, P, R);
    TracksListed(s0, s, a, o, E, R, R[0], false, R[1..]);
  }

  lemma WorkingOffer(s0: Jd, s: Jd, a: Id, o: seq<Verdict>, E: set<Id>, P: set<Id>, R: seq<Id>, d: Side, b: Id)
    requires Working(s0, s, a, o, E, P, R) && !s.dying && s.req[b].kind == Gpu
    requires s.dep[d][b].Link? && !s.inJdList[b] && !s.fenced[b]
    ensures Working(s0, SetListed(s, b, true), a, o, E, P, [b] + R)
  {
    OfferKeepsCore(s, P, R, b);
    TracksListed(s0, s, a, o, E, R, b, true, [b] + R);
  }

  lemma WorkingDrain(s0: Jd, s: Jd, a: Id, soft: seq<SoftStep>, o: seq<Verdict>, E: set<Id>, P: set<Id>, R: seq<Id>,
                     k: Id, accepted: bool)
    requires Working(s0, s, a, o, E, P, R) && R != [] && k in P && StepsOk(soft) && Judged(s0, a, soft, o)
    requires s.req[R[0]].kind == Gpu && !accepted ==> s.dying || !Unlinked(s, R[0])
    ensures var t := Drained(s, k, R[0], soft[R[0]], accepted);
            && Shape(t)
            && (if t.status[R[0]] == Completed then Working(s0, t, a, o, E + {R[0]}, P + {R[0]}, R[1..])
                else Working(s0, t, a, o, E, P, R[1..]))
  {
    var b, t := R[0], Drained(s, k, R[0], soft[R[0]], accepted);
    assert s.code[b := s.code[b]] == s.code;
    if Unlinked(s, b) {
      VerdictAtRun(s0, s, a, soft, o, E, R);
    }
    if s.dying {
      WorkingFinish(s0, s, a, o, E, P, R, s.code[k]);
    } else if s.req[b].kind == Gpu {
      if accepted {
        WorkingAccept(s0, s, a, o, E, P, R);
      } else {
        WorkingDecline(s0, s, a, o, E, P, R);
      }
    } else if s.req[b].kind == DepOnly || s.willFail[b] != 0 {
      assert t == Finish(s, b, s.code[b]);
      WorkingFinish(s0, s, a, o, E, P, R, s.code[b]);
    } else if soft[b].finished {
      assert t == Finish(s, b, soft[b].code);
      WorkingFinish(s0, s, a, o, E, P, R, soft[b].code);
    } else {
      assert t == Wait(s, b, soft[b].code);
      WorkingWait(s0, s, a, o, E, P, R, soft[b].code);
    }
  }

  lemma FirstRunnable(s0: Jd, s: Jd, a: Id, o: seq<Verdict>, E: set<Id>, P: set<Id>, R: seq<Id>)
    requires Working(s0, s, a, o, E, P, R) && R != []
    ensures s.status[R[0]] == Queued && R[0] !in E && R[0] !in P && R[0] !in s.started
  {
  }

  lemma DrainKeeps(s: Jd, k: Id, b: Id, step: SoftStep, accepted: bool)
    requires Shape(s)
    ensures var t := Drained(s, k, b, step, accepted);
            && Shape(t) && t.jobNr == s.jobNr && t.dying == s.dying && (s.dying ==> t.status[b] == Completed)
            && (forall d: Side, c: Id :: s.head[d][c] == [] ==> t.head[d][c] == [])
  {
    var u := SetStatus(SetListed(s, b, false), b, InJs);
    UnlinkKeepsEmpty(u, 0, b);
    UnlinkKeepsEmpty(Unlink(u, 0, b), 1, b);
  }

  lemma UnlinkKeepsEmpty(s: Jd, d: Side, b: Id)
    requires Shape(s)
    ensures Shape(Unlink(s, d, b))
    ensures forall e: Side, c: Id :: s.head[e][c] == [] ==> Unlink(s, d, b).head[e][c] == []
  {
    UnlinkShape(s, d, b);
  }

  lemma WorkingFinalise(s0: Jd, s: Jd, a: Id, o: seq<Verdict>, E: set<Id>, P: set<Id>, k: Id, deferred: bool)
    requires Working(s0, s, a, o, E, P, []) && k in P && forall d: Side :: s.head[d][k] == []
    ensures Working(s0, Finalise(s, k, deferred), a, o, E, P - {k}, [])
  {
    FinaliseKeepsCore(s, P, [], k, deferred);
    TracksFinalise(s0, s, a, o, E, [], k, deferred);
    LoggedFinalise(s0, s, E, P, k, deferred);
  }

  lemma DrainStatus(s: Jd, k: Id, b: Id, step: SoftStep, accepted: bool)
    requires Shape(s)
    ensures var t := Drained(s, k, b, step, accepted); Shape(t) && t.status == s.status[b := t.status[b]]
  {
    hide Unlink;
    var u := SetStatus(SetListed(s, b, false), b, InJs);
    UnlinkShape(u, 0, b);
    UnlinkStatus(u, 0, b);
    UnlinkShape(Unlink(u, 0, b), 1, b);
    UnlinkStatus(Unlink(u, 0, b), 1, b);
    assert s.status == s.status[b := s.status[b]];
  }

  lemma UnlinkStatus(s: Jd, d: Side, b: Id)
    requires Shape(s)
    ensures Unlink(s, d, b).status == s.status
  {
  }

  /** The drain loop ends: each turn takes an atom out of the queued state or off the list. */
  lemma DrainDecreases(s: Jd, k: Id, b: Id, step: SoftStep, accepted: bool)
    requires Shape(s) && s.status[b] == Queued
    ensures var t := Drained(s, k, b, step, accepted);
            && Shape(t)
            && |QueuedSet(t)| == if t.status[b] == Queued then |QueuedSet(s)| else |QueuedSet(s)| - 1
  {
    DrainStatus(s, k, b, step, accepted);
    var t := Drained(s, k, b, step, accepted);
    assert QueuedSet(t) == if t.status[b] == Queued then QueuedSet(s) else QueuedSet(s) - {b};
  }

  lemma StartWorking(s0: Jd, a: Id, soft: seq<SoftStep>) returns (o: seq<Verdict>, E: set<Id>, P: set<Id>)
    requires Core(s0, {a}, []) && StepsOk(soft)
    ensures o == Outcomes(s0, a, soft) && E == {a} && P == {a}
    ensures Judged(s0, a, soft, o) && Working(s0, s0, a, o, E, P, [])
  {
    o, E, P := Outcomes(s0, a, soft), {a}, {a};
    OutcomesJudged(s0, a, soft);
    TracksStart(s0, a, soft, o);
  }

  lemma JobCounted(s0: Jd, s: Jd, a: Id, o: seq<Verdict>, E: set<Id>, P: set<Id>, k: Id)
    requires Working(s0, s, a, o, E, P, []) && k in P
    ensures s.jobNr >= 1
  {
  }

  /** An atom whose lists are empty is detached from the graph: it is on no list either. */
  lemma Detached(s0: Jd, s: Jd, a: Id, o: seq<Verdict>, E: set<Id>, P: set<Id>, k: Id)
    requires Working(s0, s, a, o, E, P, []) && k in P
    ensures HeadsMatch(s) && k in E && s.status[k] == Completed && forall d: Side, c: Id :: k !in s.head[d][c]
  {
    forall d: Side, c: Id
      ensures k !in s.head[d][c]
    {
      assert k in s.head[d][c] <==> LinksTo(s, d, k, c);
    }
  }

  /** The job counter has gone down by the number of atoms that ended. */
  lemma WorkingCount(s0: Jd, t: Jd, a: Id, o: seq<Verdict>, E: set<Id>)
    requires Shape(s0) && Count(s0, {a}) && Working(s0, t, a, o, E, {}, [])
    ensures t.jobNr == s0.jobNr - |E|
  {
  }

  lemma WorkingEnds(s0: Jd, t: Jd, a: Id, soft: seq<SoftStep>, o: seq<Verdict>, E: set<Id>)
    requires Core(s0, {a}, []) && StepsOk(soft) && o == Outcomes(s0, a, soft)
    requires Working(s0, t, a, o, E, {}, [])
    ensures E == EndSet(o)
  {
    hide Count, Ages, Runnable, NotStranded, Codes, Logged, OthersKept, LinksLost, TaintRight, WaitRight;
    OutcomesJudged(s0, a, soft);
    EndedIsClosed(s0, t, a, soft, o, E);
    EndSetIsLeast(s0, a, soft, E);
  }

  lemma WorkingEnd(s: Jd, t: Jd, a: Id, soft: seq<SoftStep>, E: set<Id>)
    requires Completable(s, a) && StepsOk(soft) && Core(Start(s, a), {a}, [])
    requires Working(Start(s, a), t, a, Outcomes(Start(s, a), a, soft), E, {}, [])
    ensures Completion(s, t, a, soft)
  {
    hide HeadsMatch, LinksOk, Count, Ages, Lists, ListsBut, Tracks, Logged;
    var s0 := Start(s, a);
    WorkingEnds(s0, t, a, soft, Outcomes(s0, a, soft), E);
    WorkingCount(s0, t, a, Outcomes(s0, a, soft), E);
  }

  // -------------------------------------------------------- early submission

  /** After the first n dependents on node's list d have been looked at, exactly those of them
      that may be offered are flagged beside those flagged before. */
  ghost predicate OfferedUpTo(s: Jd, node: Id, d: Side, flags: seq<bool>, n: nat)
    requires Shape(s)
  {
    && |flags| == ATOM_COUNT && n <= |s.head[d][node]|
    && forall b: Id :: flags[b] <==> s.inJdList[b] || (b in s.head[d][node][..n] && Offerable(s, node, d, b))
  }

  lemma OfferedNext(s: Jd, node: Id, d: Side, flags: seq<bool>, flags': seq<bool>, n: nat)
    requires Shape(s) && n < |s.head[d][node]| && OfferedUpTo(s, node, d, flags, n)
    requires var b := s.head[d][node][n];
             flags' == flags[b := flags[b] || Offerable(s.(inJdList := flags), node, d, b)]
    ensures OfferedUpTo(s, node, d, flags', n + 1)
  {
    hide DepValid;
    var b := s.head[d][node][n];
    assert s.head[d][node][..n + 1] == s.head[d][node][..n] + [b];
    DepValidKept(s, s.(inJdList := flags));
    assert Offerable(s.(inJdList := flags), node, d, b) == Offerable(s, node, d, b);
  }

  lemma AllOffered(s: Jd, P: set<Id>, R: seq<Id>, node: Id, d: Side, flags: seq<bool>)
    requires Shape(s) && OfferedUpTo(s, node, d, flags, |s.head[d][node]|) && Core(s.(inJdList := flags), P, R)
    ensures forall b: Id :: flags[b] <==> s.inJdList[b] || Offerable(s, node, d, b)
  {
    hide Count, Ages, Lists, DepValid, LinksOk;
    assert s.head[d][node][..|s.head[d][node]|] == s.head[d][node];
    assert forall b: Id :: b in s.head[d][node] <==> LinksTo(s.(inJdList := flags), d, b, node);
  }

  // ----------------------------------------------------------- completeness

  /** An atom whose predecessors have all ended is, when the worklist is empty, started or in the scheduler. */
  lemma NothingLeft(s0: Jd, s: Jd, a: Id, o: seq<Verdict>, E: set<Id>, b: Id)
    requires Tracks(s0, s, a, o, E, []) && Graph(s, {}) && NotStranded(s, [])
    requires forall d: Side :: s0.dep[d][b].Link? ==> s0.dep[d][b].atom in E
    requires s.status[b] == Queued && !s.fenced[b]
    ensures b in s.started
  {
    forall d: Side
      ensures s.dep[d][b].NoLink?
    {
      if s.dep[d][b].Link? {
        assert Counted(s, {}, s.dep[d][b].atom);
      }
    }
  }

  /** When the worklist is empty, the atoms in E are all that had to end. */
  lemma EndedIsClosed(s0: Jd, s: Jd, a: Id, soft: seq<SoftStep>, o: seq<Verdict>, E: set<Id>)
    requires Tracks(s0, s, a, o, E, []) && Graph(s, {}) && NotStranded(s, []) && a in E
    requires StepsOk(soft) && Judged(s0, a, soft, o)
    ensures Closed(s0, a, soft, o, E)
  {
    forall b: Id | MayEnd(s0, soft, o, b) && LinksInto(s0, b, E)
      ensures b in E
    {
      if b !in E && b != a && s.status[b] == Queued {
        NothingLeft(s0, s, a, o, E, b);
      }
    }
  }

  /** What jd_done_nolock promises: exactly the atoms of the verdict are finalised, each
      is logged once, and the rest of the tables is in order again. */
  ghost predicate Completion(s: Jd, t: Jd, a: Id, soft: seq<SoftStep>)
    requires Completable(s, a) && StepsOk(soft)
  {
    StartKeepsCore(s, a);
    var s0 := Start(s, a);
    var o := Outcomes(s0, a, soft);
    && Core(t, {}, [])
    && Tracks(s0, t, a, o, EndSet(o), [])
    && Logged(s0, t, EndSet(o), {})
    && t.jobNr == s.jobNr - |EndSet(o)|
  }

  /** The atoms that completing a finalises. */
  ghost function Ended(s: Jd, a: Id, soft: seq<SoftStep>): set<Id>
    requires Completable(s, a) && StepsOk(soft)
  {
    StartKeepsCore(s, a);
    EndSet(Outcomes(Start(s, a), a, soft))
  }

  // ---------------------------------------------------------------- freeing

  /** What becomes of the number of an atom that has ended. It is free at once if the event need not
      be collected for a later post, the atom holds no external resources, and its end is not
      reported: never, or only if it fails and it has not. Otherwise it waits for user space. */
  ghost function RestingStatus(s: Jd, b: Id, deferred: bool): Status
    requires Shape(s)
  {
    if deferred || s.req[b].extRes || s.req[b].report == Always then Completed
    else if s.req[b].report == OnFailure && s.code[b] != DONE then Completed
    else Unused
  }

  /** All atoms that completing a has ended rest in that way. */
  ghost predicate Freed(s: Jd, t: Jd, a: Id, soft: seq<SoftStep>, deferred: bool)
    requires Completable(s, a) && StepsOk(soft)
  {
    Shape(t) && forall b :: b in Ended(s, a, soft) ==> t.status[b] == RestingStatus(t, b, deferred)
  }

  /** Of the atoms in E those in P are still completed, and the others rest. */
  ghost predicate FreedSoFar(s: Jd, E: set<Id>, P: set<Id>, deferred: bool) {
    Shape(s) && forall b :: b in E ==> s.status[b] == if b in P then Completed else RestingStatus(s, b, deferred)
  }

  lemma FreedStart(s: Jd, a: Id, deferred: bool)
    requires Shape(s) && s.status[a] == Completed
    ensures FreedSoFar(s, {a}, {a}, deferred)
  {
  }

  lemma FreedResolve(s: Jd, t: Jd, E: set<Id>, P: set<Id>, deferred: bool)
    requires Shape(s) && Shape(t) && FreedSoFar(s, E, P, deferred) && t.status == s.status && t.req == s.req
    requires forall b: Id :: s.status[b] != Queued ==> t.code[b] == s.code[b]
    ensures FreedSoFar(t, E, P, deferred)
  {
  }

  lemma FreedDrain(s: Jd, k: Id, b: Id, step: SoftStep, accepted: bool, E: set<Id>, P: set<Id>, deferred: bool)
    requires Shape(s) && FreedSoFar(s, E, P, deferred) && s.status[b] == Queued
    ensures var t := Drained(s, k, b, step, accepted);
      && Shape(t)
      && (if t.status[b] == Completed then FreedSoFar(t, E + {b}, P + {b}, deferred) else FreedSoFar(t, E, P, deferred))
  {
    DrainStatus(s, k, b, step, accepted);
    DrainOthers(s, k, b, step, accepted);
  }

  lemma DrainOthers(s: Jd, k: Id, b: Id, step: SoftStep, accepted: bool)
    requires Shape(s)
    ensures var t := Drained(s, k, b, step, accepted);
      && Shape(t) && t.req == s.req && forall c: Id :: c != b ==> t.code[c] == s.code[c]
  {
    hide Unlink;
    var u := SetStatus(SetListed(s, b, false), b, InJs);
    UnlinkShape(u, 0, b);
    UnlinkCodes(u, 0, b);
    UnlinkShape(Unlink(u, 0, b), 1, b);
    UnlinkCodes(Unlink(u, 0, b), 1, b);
  }

  lemma UnlinkCodes(s: Jd, d: Side, b: Id)
    requires Shape(s)
    ensures Unlink(s, d, b).code == s.code && Unlink(s, d, b).req == s.req
  {
  }

  lemma FreedFinalise(s: Jd, E: set<Id>, P: set<Id>, k: Id, deferred: bool)
    requires Shape(s) && FreedSoFar(s, E, P, deferred) && k in P && k in E
    ensures FreedSoFar(Finalise(s, k, deferred), E, P - {k}, deferred)
  {
  }

  lemma FreedEnd(s: Jd, t: Jd, a: Id, soft: seq<SoftStep>, E: set<Id>, deferred: bool)
    requires Completable(s, a) && StepsOk(soft) && Core(Start(s, a), {a}, [])
    requires Working(Start(s, a), t, a, Outcomes(Start(s, a), a, soft), E, {}, []) && FreedSoFar(t, E, {}, deferred)
    ensures Freed(s, t, a, soft, deferred)
  {
    hide HeadsMatch, LinksOk, Count, Ages, Lists, ListsBut, Tracks, Logged, RestingStatus;
    WorkingEnds(Start(s, a), t, a, soft, Outcomes(Start(s, a), a, soft), E);
  }
}
