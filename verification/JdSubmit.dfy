/** jd_submit_atom up to the point where the atom is handed on: counting it in and linking
    it to its predecessors. */
module JdSubmit {
  import opened CoreReqs
  import opened JdState
  import opened JdSteps
  import opened JdOutcome
  import opened JdOffers
  import opened JdSettle

  const DEP_TYPE_DATA: nat := 1
  const DEP_TYPE_ORDER: nat := 2

  function ReqOf(r: bv32): Req {
    Req(if r & REQ_ATOM_TYPE == 0 then DepOnly else if r & REQ_SOFT_JOB != 0 then Soft else Gpu,
        if r & REQ_EVENT_NEVER != 0 then Never else if r & REQ_EVENT_ONLY_ON_FAILURE != 0 then OnFailure else Always,
        r & REQ_EXTERNAL_RESOURCES != 0)
  }

  /** A predecessor as user space names it; atom number 0 stands for none. */
  datatype PreDep = PreDep(id: Id, typ: nat)

  datatype UserAtom = UserAtom(coreReq: bv32, pre0: PreDep, pre1: PreDep, jc: nat, deviceNr: nat) {
    function Pre(d: Side): PreDep {
      if d == 0 then pre0 else pre1
    }
  }

  /** What the device is and the rest of the driver answers during one submission: the number
      of core groups, whether hardware issue 8987 is present, whether the external resources
      can be set up and leave a fence to wait for, whether a soft job can be prepared, whether
      the scheduler can order the links by itself, and whether the context is scheduled out. */
  datatype Answers = Answers(coreGroups: nat, issue8987: bool, resourcesOk: bool, fencePending: bool,
                             prepared: bool, accepts: bool, scheduledOut: bool)

  predicate TypeOk(p: PreDep) {
    p.id == 0 || p.typ == DEP_TYPE_ORDER || p.typ == DEP_TYPE_DATA
  }

  function Enter(s: Jd, a: Id, r: Req): Jd
    requires Shape(s)
  {
    s.(jobNr := s.jobNr + 1, req := s.req[a := r], willFail := s.willFail[a := 0],
       age := s.age[a := s.nextAge], nextAge := s.nextAge + 1, fenced := s.fenced[a := false])
  }

  predicate Over(st: Status) {
    st == Unused || st == Completed
  }

  /** A predecessor that is already over fails the new atom, unless it is DONE or it is
      only an ORDER predecessor with a code above ACTIVE. */
  predicate EarlyTaint(s: Jd, p: PreDep)
    requires Shape(s)
  {
    && p.id != 0 && Over(s.status[p.id]) && s.code[p.id] != DONE
    && !(p.typ == DEP_TYPE_ORDER && s.code[p.id] > ACTIVE)
  }

  predicate WillLink(s: Jd, p: PreDep)
    requires Shape(s)
  {
    p.id != 0 && !Over(s.status[p.id])
  }

  function ToLink(p: PreDep): Link {
    Link.Link(p.id, if p.typ == DEP_TYPE_ORDER then Order else Data)
  }

  /** One turn of the loop that adds dependencies. */
  function AddDep(s: Jd, a: Id, d: Side, p: PreDep): Jd
    requires Shape(s)
  {
    if EarlyTaint(s, p) then s.(code := s.code[a := s.code[p.id]], status := s.status[a := Queued])
    else if WillLink(s, p) then
      s.(head := s.head[d := s.head[d][p.id := s.head[d][p.id] + [a]]],
         dep := s.dep[d := s.dep[d][a := ToLink(p)]])
    else s
  }

  lemma AddDepShape(s: Jd, a: Id, d: Side, p: PreDep)
    requires Shape(s)
    ensures Shape(AddDep(s, a, d, p))
  {
  }

  function AddDeps(s: Jd, a: Id, u: UserAtom): Jd
    requires Shape(s)
  {
    AddDepShape(Enter(s, a, ReqOf(u.coreReq)), a, 0, u.pre0);
    AddDep(AddDep(Enter(s, a, ReqOf(u.coreReq)), a, 0, u.pre0), a, 1, u.pre1)
  }

  /** The atom names its own number as second predecessor after the first one has failed it:
      the loop then finds it queued, and links it to itself. */
  predicate SelfLink(s: Jd, a: Id, u: UserAtom)
    requires Shape(s)
  {
    TypeOk(u.pre0) && TypeOk(u.pre1) && EarlyTaint(s, u.pre0) && u.pre1.id == a && a != 0
  }

  predicate Tainted(s: Jd, a: Id, u: UserAtom)
    requires Shape(s)
  {
    EarlyTaint(s, u.pre0) || EarlyTaint(s, u.pre1)
  }

  /** The atom after the dependency loop, as queued with this code. */
  function Queue(s: Jd, a: Id, u: UserAtom, code: nat): Jd
    requires Shape(s)
  {
    var l := AddDeps(s, a, u);
    l.(status := l.status[a := Queued], code := l.code[a := code])
  }

  // ---------------------------------------------------------------- linking

  /** One turn of the loop keeps lists and links matched. */
  lemma AddDepHeads(s: Jd, a: Id, d: Side, p: PreDep)
    requires Shape(s) && HeadsMatch(s) && s.dep[d][a].NoLink?
    ensures Shape(AddDep(s, a, d, p)) && HeadsMatch(AddDep(s, a, d, p))
    ensures forall e: Side, c: Id ::
      AddDep(s, a, d, p).dep[e][c] == if e == d && c == a && WillLink(s, p) then ToLink(p) else s.dep[e][c]
    ensures forall e: Side, c: Id ::
      AddDep(s, a, d, p).head[e][c] == if e == d && c == p.id && WillLink(s, p) then s.head[e][c] + [a] else s.head[e][c]
  {
    assert forall c: Id :: a !in s.head[d][c];
    if EarlyTaint(s, p) {
      assert HeadsMatch(AddDep(s, a, d, p));
    }
  }

  /** The second turn sees what the first one saw, unless the atom has linked to itself. */
  lemma SecondTurn(s: Jd, a: Id, u: UserAtom)
    requires Shape(s) && s.status[a] == Unused && !SelfLink(s, a, u) && TypeOk(u.pre0) && TypeOk(u.pre1)
    ensures var s0 := Enter(s, a, ReqOf(u.coreReq));
      && Shape(s0) && Shape(AddDep(s0, a, 0, u.pre0))
      && WillLink(s0, u.pre0) == WillLink(s, u.pre0) && EarlyTaint(s0, u.pre0) == EarlyTaint(s, u.pre0)
      && WillLink(AddDep(s0, a, 0, u.pre0), u.pre1) == WillLink(s, u.pre1)
      && EarlyTaint(AddDep(s0, a, 0, u.pre0), u.pre1) == EarlyTaint(s, u.pre1)
  {
  }

  /** The links of the new atom go to live atoms other than itself, and it is the last on their lists. */
  lemma AddDepsHeads(s: Jd, a: Id, u: UserAtom)
    requires Shape(s) && HeadsMatch(s) && Unlinked(s, a) && s.status[a] == Unused && !SelfLink(s, a, u)
    requires TypeOk(u.pre0) && TypeOk(u.pre1)
    ensures Shape(AddDeps(s, a, u)) && HeadsMatch(AddDeps(s, a, u))
    ensures forall d: Side, c: Id ::
      AddDeps(s, a, u).dep[d][c] == if c == a && WillLink(s, u.Pre(d)) then ToLink(u.Pre(d)) else s.dep[d][c]
    ensures forall d: Side, c: Id ::
      AddDeps(s, a, u).head[d][c] == if c == u.Pre(d).id && WillLink(s, u.Pre(d)) then s.head[d][c] + [a] else s.head[d][c]
    ensures forall d: Side :: WillLink(s, u.Pre(d)) ==> u.Pre(d).id != a && Live(s.status[u.Pre(d).id])
  {
    hide HeadsMatch, EarlyTaint, AddDep;
    var s0 := Enter(s, a, ReqOf(u.coreReq));
    EnterHeads(s, a, ReqOf(u.coreReq));
    AddDepHeads(s0, a, 0, u.pre0);
    AddDepHeads(AddDep(s0, a, 0, u.pre0), a, 1, u.pre1);
    SecondTurn(s, a, u);
  }

  lemma EnterHeads(s: Jd, a: Id, r: Req)
    requires Shape(s) && HeadsMatch(s)
    ensures Shape(Enter(s, a, r)) && HeadsMatch(Enter(s, a, r))
  {
  }

  /** What the loop leaves of the atom's own status and code. */
  lemma AddDepsStatus(s: Jd, a: Id, u: UserAtom)
    requires Shape(s) && s.status[a] == Unused && !SelfLink(s, a, u) && TypeOk(u.pre0) && TypeOk(u.pre1)
    ensures var t := AddDeps(s, a, u);
      && t.status == (if Tainted(s, a, u) then s.status[a := Queued] else s.status)
      && |t.code| == ATOM_COUNT && t.code == s.code[a := t.code[a]]
      && (t.code[a] == if EarlyTaint(s, u.pre1) then s.code[u.pre1.id] else if EarlyTaint(s, u.pre0) then s.code[u.pre0.id] else s.code[a])
  {
    SecondTurn(s, a, u);
    var s0 := Enter(s, a, ReqOf(u.coreReq));
    var s1 := AddDep(s0, a, 0, u.pre0);
    assert u.pre1.id == a && a != 0 ==> !EarlyTaint(s, u.pre0);
  }

  lemma AddDepsFrame(s: Jd, a: Id, u: UserAtom)
    requires Shape(s)
    ensures var t, e := AddDeps(s, a, u), Enter(s, a, ReqOf(u.coreReq));
      && t.willFail == e.willFail && t.req == e.req && t.inJdList == s.inJdList && t.fenced == e.fenced
      && t.age == e.age && t.nextAge == e.nextAge && t.jobNr == e.jobNr && t.dying == s.dying
      && t.started == s.started && t.cancelling == s.cancelling && t.log == s.log
  {
  }

  // ------------------------------------------------------- the queued atom

  lemma AgesBelow(s: Jd)
    requires Shape(s) && Ages(s, {})
    ensures forall c: Id :: Live(s.status[c]) ==> s.age[c] < s.nextAge
  {
    assert forall c: Id :: Live(s.status[c]) ==> Counted(s, {}, c);
  }

  lemma QueueGraph(s: Jd, a: Id, u: UserAtom, code: nat)
    requires Inv(s) && s.status[a] == Unused && !SelfLink(s, a, u) && TypeOk(u.pre0) && TypeOk(u.pre1)
    ensures Shape(Queue(s, a, u, code)) && Graph(Queue(s, a, u, code), {})
  {
    hide Count, Lists, Pinned, AddDeps, EarlyTaint, Ages;
    AddDepsHeads(s, a, u);
    AddDepsStatus(s, a, u);
    AddDepsFrame(s, a, u);
    AgesBelow(s);
    var q := Queue(s, a, u, code);
    assert forall c: Id :: c != a ==> q.status[c] == s.status[c];
    assert HeadsMatch(q);
  }

  lemma QueueCount(s: Jd, a: Id, u: UserAtom, code: nat)
    requires Inv(s) && s.status[a] == Unused && !SelfLink(s, a, u) && TypeOk(u.pre0) && TypeOk(u.pre1)
    requires Shape(Queue(s, a, u, code))
    ensures Count(Queue(s, a, u, code), {}) && Ages(Queue(s, a, u, code), {})
  {
    hide Graph, Lists, Pinned, AddDeps;
    AddDepsStatus(s, a, u);
    AddDepsFrame(s, a, u);
    var q := Queue(s, a, u, code);
    assert LiveSet(q) == LiveSet(s) + {a};
  }

  lemma QueueLists(s: Jd, a: Id, u: UserAtom, code: nat)
    requires Inv(s) && s.status[a] == Unused && !SelfLink(s, a, u) && TypeOk(u.pre0) && TypeOk(u.pre1)
    requires Shape(Queue(s, a, u, code)) && code != NOT_STARTED
    ensures ListsBut(Queue(s, a, u, code), a)
  {
    hide Count, Ages, AddDeps;
    AddDepsHeads(s, a, u);
    AddDepsStatus(s, a, u);
    AddDepsFrame(s, a, u);
    var q := Queue(s, a, u, code);
    assert forall c: Id :: c != a ==> Unlinked(q, c) == Unlinked(s, c);
  }

  /** The new atom can be completed as soon as its links are set up ... */
  lemma QueueCompletable(s: Jd, a: Id, u: UserAtom, code: nat)
    requires Inv(s) && s.status[a] == Unused && !SelfLink(s, a, u) && TypeOk(u.pre0) && TypeOk(u.pre1)
    requires code != NOT_STARTED
    ensures Completable(Queue(s, a, u, code), a)
  {
    hide Graph, Count, Ages, Lists, ListsBut, Queue;
    QueueGraph(s, a, u, code);
    QueueCount(s, a, u, code);
    QueueLists(s, a, u, code);
    QueueStatus(s, a, u, code);
  }

  lemma QueueStatus(s: Jd, a: Id, u: UserAtom, code: nat)
    requires Shape(s) && Shape(Queue(s, a, u, code)) && code != NOT_STARTED
    ensures Queue(s, a, u, code).status[a] == Queued && Queue(s, a, u, code).code[a] == code
  {
  }

  // ------------------------------------------------------------------ fate

  /** What becomes of a submitted atom. */
  datatype Fate =
    | BadDependency   // finalised: unknown dependency type
    | FailsNow        // finalised: a predecessor has already failed it
    | FailsLater      // marked to fail, but still linked to another predecessor
    | Refused         // finalised: malformed, or its resources cannot be set up
    | Invalid         // finalised: does not pass validation
    | Waits           // queued behind its links or a fence
    | Runs            // handed on at once

  predicate Malformed(u: UserAtom, ans: Answers) {
    || (u.jc == 0 && ReqOf(u.coreReq).kind != DepOnly)
    || (u.coreReq & REQ_SPECIFIC_COHERENT_GROUP != 0 && u.deviceNr >= ans.coreGroups)
    || (u.coreReq & REQ_EXTERNAL_RESOURCES != 0 && u.coreReq & REQ_EVENT_COALESCE != 0)
    || (u.coreReq & REQ_EXTERNAL_RESOURCES != 0 && u.coreReq & REQ_SOFT_JOB_TYPE == REQ_SOFT_FENCE_WAIT)
    || (u.coreReq & REQ_EXTERNAL_RESOURCES != 0 && !ans.resourcesOk)
  }

  /** kbase_js_is_atom_valid: the requirements can be met by one kind of job chain. */
  predicate AtomValid(coreReq: bv32, issue8987: bool) {
    && !(coreReq & REQ_FS != 0 && coreReq & (REQ_CS | REQ_ONLY_COMPUTE | REQ_T) != 0)
    && !(issue8987 && coreReq & REQ_ONLY_COMPUTE != 0 && coreReq & (REQ_CS | REQ_T) != 0)
  }

  predicate PassesValidation(u: UserAtom, ans: Answers) {
    if u.coreReq & REQ_SOFT_JOB == 0 then AtomValid(u.coreReq, ans.issue8987) else ans.prepared
  }

  predicate FencePending(u: UserAtom, ans: Answers) {
    u.coreReq & REQ_EXTERNAL_RESOURCES != 0 && ans.fencePending
  }

  predicate Links(s: Jd, u: UserAtom)
    requires Shape(s)
  {
    WillLink(s, u.pre0) || WillLink(s, u.pre1)
  }

  function FateOf(s: Jd, a: Id, u: UserAtom, ans: Answers): Fate
    requires Shape(s)
  {
    if !TypeOk(u.pre0) || !TypeOk(u.pre1) then BadDependency
    else if SelfLink(s, a, u) then FailsLater
    else if Tainted(s, a, u) then if Links(s, u) then FailsLater else FailsNow
    else if Malformed(u, ans) then Refused
    else if !PassesValidation(u, ans) then Invalid
    else if (Links(s, u) && ReqOf(u.coreReq).kind != Gpu) || FencePending(u, ans) then Waits
    else Runs
  }

  /** The atom waits for a fence and does not pass validation. */
  predicate FencedRefusal(s: Jd, a: Id, u: UserAtom, ans: Answers)
    requires Shape(s)
  {
    FateOf(s, a, u, ans) == Invalid && FencePending(u, ans)
  }

  /** The scheduler takes the atom while the context is being torn down and scheduled out. */
  predicate KilledOnEntry(s: Jd, a: Id, u: UserAtom, ans: Answers)
    requires Shape(s)
  {
    && FateOf(s, a, u, ans) == Runs && ReqOf(u.coreReq).kind == Gpu
    && s.dying && ans.scheduledOut && (ans.accepts || !Links(s, u))
  }

  /** An atom that fails before it is checked is refused or killed by nobody else. */
  lemma EarlyFate(s: Jd, a: Id, u: UserAtom, ans: Answers)
    requires Shape(s) && (!TypeOk(u.pre0) || !TypeOk(u.pre1) || SelfLink(s, a, u) || Tainted(s, a, u))
    ensures FateOf(s, a, u, ans) ==
      if !TypeOk(u.pre0) || !TypeOk(u.pre1) then BadDependency
      else if SelfLink(s, a, u) || Links(s, u) then FailsLater else FailsNow
    ensures !FencedRefusal(s, a, u, ans) && !KilledOnEntry(s, a, u, ans)
  {
  }

  /** The code that the predecessors have passed on. */
  function PassedOn(s: Jd, a: Id, u: UserAtom): nat
    requires Shape(s)
  {
    AddDepShape(Enter(s, a, ReqOf(u.coreReq)), a, 0, u.pre0);
    AddDepShape(AddDep(Enter(s, a, ReqOf(u.coreReq)), a, 0, u.pre0), a, 1, u.pre1);
    AddDeps(s, a, u).code[a]
  }

  function BadEntry(s: Jd, a: Id, u: UserAtom): Jd
    requires Shape(s)
  {
    var e := Enter(s, a, ReqOf(u.coreReq));
    e.(code := e.code[a := JOB_CONFIG_FAULT], status := e.status[a := Completed])
  }

  lemma BadEntryCompletable(s: Jd, a: Id, u: UserAtom)
    requires Inv(s) && s.status[a] == Unused
    ensures Completable(BadEntry(s, a, u), a)
  {
    hide Graph, Ages, ReqOf, NotStranded;
    var t := BadEntry(s, a, u);
    LiveStays(s, t);
    BadEntryGraph(s, a, u);
    BadEntryAges(s, a, u);
    BadEntryLists(s, a, u);
  }

  lemma BadEntryGraph(s: Jd, a: Id, u: UserAtom)
    requires Inv(s) && s.status[a] == Unused
    ensures Graph(BadEntry(s, a, u), {a})
  {
    hide Count, Ages, Lists, ReqOf;
    assert HeadsMatch(BadEntry(s, a, u));
  }

  lemma BadEntryAges(s: Jd, a: Id, u: UserAtom)
    requires Inv(s) && s.status[a] == Unused
    ensures Ages(BadEntry(s, a, u), {a})
  {
    hide Graph, Count, Lists, ReqOf;
  }

  lemma BadEntryLists(s: Jd, a: Id, u: UserAtom)
    requires Inv(s) && s.status[a] == Unused
    ensures ListsBut(BadEntry(s, a, u), a)
  {
    hide Graph, Count, Ages, ReqOf;
    var t := BadEntry(s, a, u);
    assert forall b: Id :: Unlinked(t, b) == Unlinked(s, b);
  }

  function WithFence(q: Jd, a: Id, pending: bool): Jd
    requires Shape(q)
  {
    q.(fenced := q.fenced[a := pending])
  }

  function QueueWithFence(s: Jd, a: Id, u: UserAtom, code: nat, pending: bool): Jd
    requires Shape(s)
  {
    QueueShape(s, a, u);
    WithFence(Queue(s, a, u, code), a, pending)
  }

  /** The new atom is finalised with JOB_INVALID. */
  ghost predicate RefusedFrom(s: Jd, t: Jd, a: Id, u: UserAtom, soft: seq<SoftStep>, pending: bool) {
    Shape(s) && Finalised(QueueWithFence(s, a, u, JOB_INVALID, pending), t, a, soft)
  }

  /** Atom a is completed in state q, which leads to state t. */
  ghost predicate Completes(q: Jd, t: Jd, a: Id, soft: seq<SoftStep>) {
    StepsOk(soft) && Completable(q, a) && Completion(q, t, a, soft)
  }

  /** It is completed, and all atoms that end with it are posted at once. */
  ghost predicate Finalised(q: Jd, t: Jd, a: Id, soft: seq<SoftStep>) {
    Completes(q, t, a, soft) && Aftermath(q, t, a, soft, false)
  }

  /** An atom that waits for nothing in the dispatcher is handed on. */
  ghost predicate HandedOn(q: Jd, t: Jd, a: Id, ans: Answers, soft: seq<SoftStep>)
    requires Shape(q) && StepsOk(soft)
  {
    match q.req[a].kind
    case DepOnly => Finalised(q, t, a, soft)
    case Soft =>
      var r := q.(code := q.code[a := soft[a].code]);
      if soft[a].finished then Finalised(r, t, a, soft) else t == r.(started := r.started + {a})
    case Gpu =>
      if !ans.accepts && !Unlinked(q, a) then t == q
      else
        var r := UnlinkBoth(SetStatus(q, a, InJs), a);
        if q.dying && ans.scheduledOut then Shape(r) && Finalised(Kill(r, a), t, a, soft) else t == r
  }

  /** The state in which a submission leaves the dispatcher. */
  ghost predicate Submitted(s: Jd, t: Jd, a: Id, u: UserAtom, ans: Answers, soft: seq<SoftStep>)
    requires Shape(s) && StepsOk(soft)
  {
    QueueShape(s, a, u);
    match FateOf(s, a, u, ans)
    case BadDependency => Finalised(BadEntry(s, a, u), t, a, soft)
    case FailsNow => Finalised(Queue(s, a, u, PassedOn(s, a, u)), t, a, soft)
    case FailsLater =>
      var q := Queue(s, a, u, PassedOn(s, a, u));
      t == q.(willFail := q.willFail[a := PassedOn(s, a, u)])
    case Refused => Finalised(Queue(s, a, u, JOB_INVALID), t, a, soft)
    case Invalid => Finalised(WithFence(Queue(s, a, u, JOB_INVALID), a, FencePending(u, ans)), t, a, soft)
    case Waits => t == WithFence(Queue(s, a, u, DONE), a, FencePending(u, ans))
    case Runs => HandedOn(Queue(s, a, u, DONE), t, a, ans, soft)
  }

  lemma QueueShape(s: Jd, a: Id, u: UserAtom)
    requires Shape(s)
    ensures Shape(AddDeps(s, a, u)) && forall c: nat :: Shape(Queue(s, a, u, c))
  {
    AddDepShape(Enter(s, a, ReqOf(u.coreReq)), a, 0, u.pre0);
    AddDepShape(AddDep(Enter(s, a, ReqOf(u.coreReq)), a, 0, u.pre0), a, 1, u.pre1);
  }

  /** What is known of a freshly queued atom. */
  lemma QueueFacts(s: Jd, a: Id, u: UserAtom, code: nat)
    requires Inv(s) && s.status[a] == Unused && !SelfLink(s, a, u) && TypeOk(u.pre0) && TypeOk(u.pre1)
    ensures Shape(Queue(s, a, u, code))
    ensures var q := Queue(s, a, u, code);
      && PinnedBut(q, a) && q.status[a] == Queued && q.code[a] == code && q.willFail[a] == 0
      && !q.fenced[a] && a !in q.started && a !in q.cancelling && q.dying == s.dying && q.req[a] == ReqOf(u.coreReq)
      && (Unlinked(q, a) <==> !Links(s, u))
    ensures Tainted(s, a, u) ==> PassedOn(s, a, u) != DONE && PassedOn(s, a, u) != NOT_STARTED
  {
    hide Graph, Count, Ages, AddDeps;
    QueueShape(s, a, u);
    InvFacts(s, a);
    InvFacts(s, u.pre0.id);
    InvFacts(s, u.pre1.id);
    InvHeads(s);
    AddDepsHeads(s, a, u);
    AddDepsStatus(s, a, u);
    AddDepsFrame(s, a, u);
  }

  lemma InvHeads(s: Jd)
    requires Inv(s)
    ensures HeadsMatch(s)
  {
  }

  lemma Unfenced(s: Jd, a: Id, u: UserAtom)
    requires Shape(s)
    ensures forall c: nat :: Shape(Queue(s, a, u, c)) && WithFence(Queue(s, a, u, c), a, false) == Queue(s, a, u, c)
  {
    QueueShape(s, a, u);
    AddDepsFrame(s, a, u);
    forall c: nat
      ensures WithFence(Queue(s, a, u, c), a, false) == Queue(s, a, u, c)
    {
      var f := Queue(s, a, u, c).fenced;
      assert f[a := false] == f;
    }
  }

  /** A pending fence does not matter to the completion of an atom. */
  lemma WithFenceCompletable(q: Jd, a: Id, pending: bool)
    requires Completable(q, a)
    ensures Completable(WithFence(q, a, pending), a)
  {
    hide Graph, Ages;
    var t := WithFence(q, a, pending);
    LiveStays(q, t);
    GraphKept(q, Pre(q, a), t, Pre(t, a));
    AgesKept(q, Pre(q, a), t, Pre(t, a));
  }

  /** An atom that is linked to itself can never be counted on to run: the invariant is gone. */
  lemma SelfLinkBreaks(s: Jd, a: Id, u: UserAtom)
    requires Inv(s) && s.status[a] == Unused && SelfLink(s, a, u)
    ensures Shape(AddDeps(s, a, u)) && LinksTo(AddDeps(s, a, u), 1, a, a)
    ensures forall t: Jd :: Shape(t) && t.dep == AddDeps(s, a, u).dep ==> !Inv(t)
  {
    QueueShape(s, a, u);
    forall t: Jd | Shape(t) && t.dep == AddDeps(s, a, u).dep
      ensures !Inv(t)
    {
      assert LinksTo(t, 1, a, a);
    }
  }

  /** Atom a is over and counted off, but a worker that will complete it is still to come. */
  ghost predicate OverPinned(s: Jd, a: Id) {
    && Core(s, {}, []) && PinnedBut(s, a) && (s.fenced[a] || a in s.cancelling)
    && !Live(s.status[a]) && s.age[a] in s.log
  }

  /** An atom that is finalised while a fence or a cancel worker is pending breaks the invariant. */
  lemma PinnedEndBreaks(q: Jd, t: Jd, a: Id, soft: seq<SoftStep>)
    requires StepsOk(soft) && Completable(q, a) && Completion(q, t, a, soft) && PinnedBut(q, a)
    requires q.fenced[a] || a in q.cancelling
    ensures OverPinned(t, a) && !Inv(t) && t.fenced == q.fenced && t.cancelling == q.cancelling
    ensures q.req[a].extRes ==> t.status[a] == Completed
  {
    hide HeadsMatch, Count, Ages, Lists, ListsBut, LinksLost, TaintRight, WaitRight, Judged;
    StartKeepsCore(q, a);
    var s0 := Start(q, a);
    CoreLinks(s0, a);
    OutcomesJudged(s0, a, soft);
    assert a in EndSet(Outcomes(s0, a, soft)) by {
      EndsIff(s0, a, soft, Outcomes(s0, a, soft), a);
    }
    StartFrame(q, a);
    forall b: Id | b != a && (t.fenced[b] || b in t.cancelling)
      ensures t.fenced[b] ==> t.status[b] == Queued
      ensures b in t.cancelling ==> t.status[b] == InJs
    {
      FencedStays(s0, t, a, soft, Outcomes(s0, a, soft), b);
    }
  }

  lemma CoreLinks(s0: Jd, a: Id)
    requires Core(s0, {a}, [])
    ensures LinksOk(s0, {a})
  {
  }

  /** What the loop tells about failing and linking is what the caller could tell before. */
  lemma LoopFlags(s: Jd, a: Id, u: UserAtom)
    requires Shape(s) && s.status[a] == Unused && TypeOk(u.pre0) && TypeOk(u.pre1)
    ensures var s0 := Enter(s, a, ReqOf(u.coreReq));
      && Shape(AddDep(s0, a, 0, u.pre0))
      && var s1 := AddDep(s0, a, 0, u.pre0);
         && (SelfLink(s, a, u) ==> EarlyTaint(s0, u.pre0) && WillLink(s1, u.pre1))
         && (!SelfLink(s, a, u) ==>
              && (EarlyTaint(s0, u.pre0) || EarlyTaint(s1, u.pre1) <==> Tainted(s, a, u))
              && (WillLink(s0, u.pre0) || WillLink(s1, u.pre1) <==> Links(s, u)))
    ensures EarlyTaint(s, u.pre0) || (!SelfLink(s, a, u) && Tainted(s, a, u)) ==>
      AddDeps(s, a, u) == Queue(s, a, u, PassedOn(s, a, u))
  {
    if !SelfLink(s, a, u) {
      SecondTurn(s, a, u);
    }
  }

  lemma BadEntryFences(s: Jd, a: Id, u: UserAtom)
    requires Inv(s) && s.status[a] == Unused
    ensures PinnedBut(BadEntry(s, a, u), a) && !BadEntry(s, a, u).fenced[a] && a !in BadEntry(s, a, u).cancelling
  {
  }

  /** An atom that is marked to fail waits for its other predecessor. */
  lemma FailsLaterInv(s: Jd, a: Id, u: UserAtom, t: Jd)
    requires Inv(s) && s.status[a] == Unused && TypeOk(u.pre0) && TypeOk(u.pre1)
    requires SelfLink(s, a, u) || (Tainted(s, a, u) && Links(s, u))
    requires Shape(Queue(s, a, u, PassedOn(s, a, u)))
    requires var q := Queue(s, a, u, PassedOn(s, a, u)); t == q.(willFail := q.willFail[a := PassedOn(s, a, u)])
    ensures Inv(t) <==> !SelfLink(s, a, u)
  {
    hide Graph, Count, Ages, Lists, ListsBut;
    if SelfLink(s, a, u) {
      SelfLinkBreaks(s, a, u);
    } else {
      QueueFacts(s, a, u, PassedOn(s, a, u));
      QueueCompletable(s, a, u, PassedOn(s, a, u));
      MarkedCompletable(Queue(s, a, u, PassedOn(s, a, u)), a, PassedOn(s, a, u));
      QueuedSettles(t, a);
    }
  }

  lemma MarkedCompletable(q: Jd, a: Id, code: nat)
    requires Completable(q, a)
    ensures Completable(q.(willFail := q.willFail[a := code]), a)
  {
    hide Graph, Ages;
    var t := q.(willFail := q.willFail[a := code]);
    LiveStays(q, t);
    GraphKept(q, Pre(q, a), t, Pre(t, a));
    AgesKept(q, Pre(q, a), t, Pre(t, a));
  }

  lemma Recoded(q: Jd, a: Id, code: nat)
    requires Completable(q, a) && code != NOT_STARTED
    ensures Completable(q.(code := q.code[a := code]), a)
  {
    hide Graph, Ages;
    var t := q.(code := q.code[a := code]);
    LiveStays(q, t);
    GraphKept(q, Pre(q, a), t, Pre(t, a));
    AgesKept(q, Pre(q, a), t, Pre(t, a));
  }

  lemma CompletableShape(q: Jd, a: Id)
    requires Completable(q, a)
    ensures Shape(q)
  {
  }

  lemma DeclinedInv(q: Jd, a: Id)
    requires Core(q, {}, []) && PinnedBut(q, a) && !q.fenced[a] && a !in q.cancelling
    ensures Inv(q)
  {
    hide Graph, Count, Ages, Lists;
  }

  /** What kbase_jd_dep_clear_locked makes of an atom whose fences have signalled. */
  ghost predicate Cleared(q: Jd, t: Jd, a: Id, soft: seq<SoftStep>, scheduledOut: bool) {
    && Shape(q) && StepsOk(soft)
    && if q.req[a].kind != Gpu && !Unlinked(q, a) then t == q
       else
         || RanTo(q, t, a, soft, false)
         || (if q.dying && scheduledOut && q.req[a].kind == Gpu
             then Shape(Ran(q, a, soft[a], true)) && t == Kill(Ran(q, a, soft[a], true), a)
             else RanTo(q, t, a, soft, true))
  }

  /** Running an atom without completing it restores the invariant. */
  lemma ClearedInv(q: Jd, t: Jd, a: Id, step: SoftStep, scheduledOut: bool)
    requires Shape(q) && PinnedBut(q, a) && !q.fenced[a] && a !in q.cancelling && q.status[a] == Queued
    requires Shape(t) && Shape(Ran(q, a, step, t.status[a] == InJs)) && Core(Ran(q, a, step, t.status[a] == InJs), {}, [])
    requires var r := Ran(q, a, step, t.status[a] == InJs);
             r.status[a] != Completed && t == if r.status[a] == InJs && q.dying && scheduledOut then Kill(r, a) else r
    ensures Inv(t)
  {
    hide Graph, Count, Ages, Lists;
    UnlinkShape(SetStatus(q, a, InJs), 0, a);
    var r := Ran(q, a, step, t.status[a] == InJs);
    assert Inv(r);
    if r.status[a] == InJs {
      KillKeepsInv(r, a);
    }
  }

  /** An atom that is over loses its fence or its cancel worker without harm. */
  lemma CompletedFence(s: Jd, a: Id)
    requires OverPinned(s, a)
    ensures var q := s.(fenced := s.fenced[a := false]);
            Core(q, {}, []) && (a !in s.cancelling ==> Inv(q))
  {
    hide Graph, Count, Ages;
    CoreKeptBy(s, s.(fenced := s.fenced[a := false]), a);
  }

  lemma CancelledFrame(s: Jd, a: Id)
    requires OverPinned(s, a)
    ensures var q := s.(cancelling := s.cancelling - {a});
            Core(q, {}, []) && (!s.fenced[a] ==> Inv(q))
  {
    hide Graph, Count, Ages;
    CoreKeptBy(s, s.(cancelling := s.cancelling - {a}), a);
  }

  lemma CoreKeptBy(s: Jd, q: Jd, a: Id)
    requires Core(s, {}, []) && !Live(s.status[a])
    requires q == s.(fenced := q.fenced, cancelling := q.cancelling) && q.fenced in {s.fenced, s.fenced[a := false]}
    ensures Core(q, {}, [])
  {
    hide HeadsMatch, Ages;
    LiveStays(s, q);
    GraphKept(s, {}, q, {});
    AgesKept(s, {}, q, {});
  }

  /** An atom that the scheduler has cancelled at once can be completed. */
  lemma KilledCompletable(r: Jd, a: Id)
    requires Inv(r) && r.status[a] == InJs && !r.fenced[a]
    ensures Completable(Kill(r, a), a) && PinnedBut(Kill(r, a), a)
  {
    hide Graph, Ages;
    var t := Kill(r, a);
    LiveStays(r, t);
    GraphKept(r, {}, t, {});
    AgesKept(r, {}, t, {});
  }

  lemma AcceptedInv(q: Jd, r: Jd, a: Id)
    requires Shape(q) && PinnedBut(q, a) && !q.fenced[a] && a !in q.cancelling && q.status[a] == Queued
    requires Shape(UnlinkBoth(SetStatus(q, a, InJs), a)) && r == UnlinkBoth(SetStatus(q, a, InJs), a) && Core(r, {}, [])
    ensures Inv(r) && r.status[a] == InJs && !r.fenced[a]
  {
    UnlinkShape(SetStatus(q, a, InJs), 0, a);
  }
}
