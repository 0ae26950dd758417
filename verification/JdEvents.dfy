/** Dispatcher and event queue together. The event lists reuse an atom's node of link 0, so an atom
    on one of them must be on no list of dependents, whatever steps the two take in between. */
module JdEvents {
  import opened Sequences
  import opened JdState
  import opened JdSteps
  import opened JdOutcome
  import opened JdOffers
  import opened JdSettle
  import opened JdSubmit
  import opened JdHistory

  /** An atom on an event list is completed, and on one list once. */
  ghost predicate EventsOk(s: Jd, events: seq<Id>)
    requires Shape(s)
  {
    NoDup(events) && forall a :: a in events ==> s.status[a] == Completed
  }

  /** Its nodes are on no list of dependents, and nobody depends on it any more. */
  lemma NodesFree(s: Jd, events: seq<Id>, a: Id)
    requires Inv(s) && EventsOk(s, events) && a in events
    ensures forall d: Side, c: Id :: a !in s.head[d][c]
    ensures forall d: Side :: s.head[d][a] == []
  {
    hide Pinned;
    OverDetached(s, a);
  }

  /** A step of the dispatcher, an event that is posted, as kbase_event_post demands, or an event
      that is taken from the lists, which frees the atom's number. */
  datatype Step = Dispatch(op: Op) | Post(a: Id) | Take(a: Id)

  ghost predicate Steps(s: Jd, events: seq<Id>, step: Step, t: Jd, events': seq<Id>) {
    && Inv(s) && Inv(t)
    && match step
       case Dispatch(op) => Follows(s, op, t) && (op.Release? ==> op.a !in events) && events' == events
       case Post(a) => t == s && s.status[a] == Completed && a !in events && events' == events + [a]
       case Take(a) => Follows(s, Release(a), t) && events' == Without(events, a)
  }

  lemma CompletionKeepsOver(q: Jd, t: Jd, a: Id, soft: seq<SoftStep>, b: Id)
    requires Completes(q, t, a, soft) && b != a
    ensures Shape(q) && Shape(t)
    ensures q.status[b] == Completed ==> t.status[b] == Completed
  {
    hide HeadsMatch, Count, Ages, Lists, ListsBut, Logged, LinksLost, TaintRight, WaitRight, CodesRight, EndedRight;
    StartKeepsCore(q, a);
    var s0 := Start(q, a);
    CoreLinks(s0, a);
    OutcomesJudged(s0, a, soft);
    StartFrame(q, a);
    EndsIff(s0, a, soft, Outcomes(s0, a, soft), b);
  }

  lemma BadEntryOver(s: Jd, op: Op, t: Jd, b: Id)
    requires Follows(s, op, t) && op.Submit? && FateOf(s, op.a, op.u, op.ans) == BadDependency && b != op.a
    ensures Shape(s) && Shape(t) && (s.status[b] == Completed ==> t.status[b] == Completed)
  {
    hide Inv, Completable, Completion, Aftermath;
    InvShape(s);
    InvShape(t);
    CompletionKeepsOver(BadEntry(s, op.a, op.u), t, op.a, op.soft, b);
  }

  lemma RefusedOver(s: Jd, op: Op, t: Jd, b: Id)
    requires Follows(s, op, t) && op.Submit? && FateOf(s, op.a, op.u, op.ans) in {FailsNow, Refused, Invalid} && b != op.a
    ensures Shape(s) && Shape(t) && (s.status[b] == Completed ==> t.status[b] == Completed)
  {
    hide Inv, Completes, Aftermath, Submitted, FateOf, Queue, SelfLink, Tainted, Links, FencedRefusal, KilledOnEntry, RefusalCode;
    InvShape(t);
    RefusedAs(s, op, t);
    QueueEntered(s, op.a, op.u, RefusalCode(s, op.a, op.u, op.ans));
    CompletionKeepsOver(Queue(s, op.a, op.u, RefusalCode(s, op.a, op.u, op.ans)), t, op.a, op.soft, b);
  }

  lemma RunsOver(s: Jd, op: Op, t: Jd, b: Id)
    requires Follows(s, op, t) && op.Submit? && FateOf(s, op.a, op.u, op.ans) == Runs && b != op.a
    ensures Shape(s) && Shape(t) && (s.status[b] == Completed ==> t.status[b] == Completed)
  {
    hide Inv, Completes, Aftermath, Submitted, FateOf, Queue, SelfLink, Tainted, Links, FencedRefusal, KilledOnEntry;
    InvShape(t);
    RunsAs(s, op, t);
    var a, u := op.a, op.u;
    if ReqOf(u.coreReq).kind == DepOnly || (ReqOf(u.coreReq).kind == Soft && op.soft[a].finished) {
      QueueEntered(s, a, u, DONE);
      QueueFacts(s, a, u, DONE);
      var q := Queue(s, a, u, DONE);
      CompletionKeepsOver(if q.req[a].kind == Soft then q.(code := q.code[a := op.soft[a].code]) else q, t, a, op.soft, b);
    } else {
      StaysAs(s, op, t);
    }
  }

  /** No submission touches an atom that is over. */
  lemma SubmitKeepsOver(s: Jd, op: Op, t: Jd, b: Id)
    requires Follows(s, op, t) && op.Submit? && b != op.a
    ensures Shape(s) && Shape(t) && (s.status[b] == Completed ==> t.status[b] == Completed)
  {
    hide Inv, Submitted, FateOf;
    InvShape(s);
    InvShape(t);
    match FateOf(s, op.a, op.u, op.ans)
    case BadDependency => BadEntryOver(s, op, t, b);
    case FailsNow => RefusedOver(s, op, t, b);
    case FailsLater => WaitsAs(s, op, t);
    case Refused => RefusedOver(s, op, t, b);
    case Invalid => RefusedOver(s, op, t, b);
    case Waits => WaitsAs(s, op, t);
    case Runs => RunsOver(s, op, t, b);
  }

  lemma ClearedKeepsOver(q: Jd, t: Jd, a: Id, soft: seq<SoftStep>, scheduledOut: bool, b: Id)
    requires Cleared(q, t, a, soft, scheduledOut) && b != a
    ensures Shape(t) && (q.status[b] == Completed ==> t.status[b] == Completed)
  {
    hide Completable, Completion, Aftermath, UnlinkBoth;
    TakenSame(q, a);
    if RanTo(q, t, a, soft, false) && Ran(q, a, soft[a], false).status[a] == Completed {
      CompletionKeepsOver(Ran(q, a, soft[a], false), t, a, soft, b);
    }
    if RanTo(q, t, a, soft, true) && Ran(q, a, soft[a], true).status[a] == Completed {
      CompletionKeepsOver(Ran(q, a, soft[a], true), t, a, soft, b);
    }
  }

  /** No step of the dispatcher touches an atom that has completed, until its number is freed. */
  lemma CompletedStays(s: Jd, op: Op, t: Jd, b: Id)
    requires Follows(s, op, t) && Shape(s) && s.status[b] == Completed && !(op.Release? && op.a == b)
    ensures Shape(t) && t.status[b] == Completed
  {
    hide Inv, Completable, Completion, Aftermath, Submitted, Cleared;
    if !op.Release? {
      NotTouched(s, op, b);
    }
    match op
    case Submit(_, _, _, _) => SubmitKeepsOver(s, op, t, b);
    case CompleteJob(a, code, soft, _) => CompletionKeepsOver(s.(code := s.code[a := code]), t, a, soft, b);
    case FenceWork(a, soft, out) => ClearedKeepsOver(s.(fenced := s.fenced[a := false]), t, a, soft, out, b);
    case FenceCancel(a, soft) =>
      CompletionKeepsOver(s.(code := s.code[a := JOB_CANCELLED], fenced := s.fenced[a := false]), t, a, soft, b);
    case _ =>
  }

  /** The atom of an operation other than a release has not completed. */
  lemma NotTouched(s: Jd, op: Op, b: Id)
    requires Allowed(s, op) && Shape(s) && s.status[b] == Completed && !op.Release?
    ensures op.a != b
  {
    hide Graph, Count, Ages, Codes, Runnable;
  }

  /** Over all steps of both, the atoms on the event lists stay completed and on no list of
      dependents. */
  lemma StepKeepsEvents(s: Jd, events: seq<Id>, step: Step, t: Jd, events': seq<Id>)
    requires Shape(s) && EventsOk(s, events) && Steps(s, events, step, t, events')
    ensures Shape(t) && EventsOk(t, events')
    ensures forall a :: a in events' ==>
      (forall d: Side, c: Id :: a !in t.head[d][c]) && (forall d: Side :: t.head[d][a] == [])
  {
    hide Inv, Follows;
    InvShape(t);
    match step {
      case Dispatch(op) =>
        forall a | a in events
          ensures t.status[a] == Completed
        {
          CompletedStays(s, op, t, a);
        }
      case Post(a) =>
      case Take(a) =>
        WithoutNoDup(events, a);
        forall b | b in events'
          ensures t.status[b] == Completed
        {
          CompletedStays(s, Release(a), t, b);
        }
    }
    forall a | a in events'
      ensures (forall d: Side, c: Id :: a !in t.head[d][c]) && (forall d: Side :: t.head[d][a] == [])
    {
      NodesFree(t, events', a);
    }
  }
}
