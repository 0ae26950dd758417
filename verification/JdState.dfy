/** The job dispatcher's tables as one value, the small updates that
    mali_kbase_jd.c makes to them, and the invariant those updates keep. */
module JdState {
  import opened Sequences

  const ATOM_COUNT: nat := 256

  type Id = i: int | 0 <= i < ATOM_COUNT

  /** Which of an atom's two predecessor links, and which of the two lists an atom heads. */
  type Side = d: int | 0 <= d < 2

  datatype Status = Unused | Queued | InJs | HwCompleted | Completed

  datatype Kind = DepOnly | Soft | Gpu

  datatype DepType = Data | Order

  datatype Link = NoLink | Link(atom: Id, typ: DepType)

  /** When the completion of an atom is reported to user space. */
  datatype Report = Always | OnFailure | Never

  /** What the dispatcher reads out of an atom's core requirements. */
  datatype Req = Req(kind: Kind, report: Report, extRes: bool)

  const NOT_STARTED: nat := 0x00
  const DONE: nat := 0x01
  const ACTIVE: nat := 0x08
  const JOB_CONFIG_FAULT: nat := 0x40
  const JOB_CANCELLED: nat := 0x4002
  const JOB_INVALID: nat := 0x4003

  /** Per-atom fields are sequences indexed by atom number. `dep[d][b]` is b's
      link number d and `head[d][a]` the list of atoms that link to a with it.
      `fenced[b]` says that b's dma-fence count is not -1. `started` holds the
      soft jobs whose step returned non-zero and that wait for their event, and
      `cancelling` the atoms for which a cancel worker is queued.
      `age` is the unbounded submission number and `log` lists the ages of the
      finalised atoms, in order. */
  datatype Jd = Jd(
    status: seq<Status>,
    code: seq<nat>,
    willFail: seq<nat>,
    req: seq<Req>,
    inJdList: seq<bool>,
    fenced: seq<bool>,
    dep: seq<seq<Link>>,
    head: seq<seq<seq<Id>>>,
    age: seq<nat>,
    nextAge: nat,
    jobNr: int,
    dying: bool,
    started: set<Id>,
    cancelling: set<Id>,
    log: seq<nat>)

  // ---------------------------------------------------------------- lists

  /** What list_del leaves of a list that holds x at most once. */
  function Without(xs: seq<Id>, x: Id): (r: seq<Id>)
    ensures forall y :: y in r <==> y in xs && y != x
  {
    if xs == [] then []
    else if xs[0] == x then Without(xs[1..], x)
    else [xs[0]] + Without(xs[1..], x)
  }

  lemma {:induction false} WithoutNoDup(xs: seq<Id>, x: Id)
    requires NoDup(xs)
    ensures NoDup(Without(xs, x))
  {
    if xs != [] {
      WithoutNoDup(xs[1..], x);
      assert xs[0] !in xs[1..];
    }
  }

  lemma {:induction false} WithoutAbsent(xs: seq<Id>, x: Id)
    requires x !in xs
    ensures Without(xs, x) == xs
  {
    if xs != [] {
      WithoutAbsent(xs[1..], x);
    }
  }

  /** Deleting the first node of a duplicate-free list leaves its tail. */
  lemma WithoutFirst(xs: seq<Id>)
    requires xs != [] && NoDup(xs)
    ensures Without(xs, xs[0]) == xs[1..]
  {
    WithoutAbsent(xs[1..], xs[0]);
  }

  // ------------------------------------------------------------ invariant

  predicate Live(st: Status) {
    st == Queued || st == InJs || st == HwCompleted
  }

  ghost predicate Shape(s: Jd) {
    && |s.status| == ATOM_COUNT && |s.code| == ATOM_COUNT && |s.willFail| == ATOM_COUNT
    && |s.req| == ATOM_COUNT && |s.inJdList| == ATOM_COUNT && |s.fenced| == ATOM_COUNT
    && |s.age| == ATOM_COUNT
    && |s.dep| == 2 && |s.head| == 2
    && (forall d: Side :: |s.dep[d]| == ATOM_COUNT)
    && (forall d: Side :: |s.head[d]| == ATOM_COUNT)
  }

  /** a is unfinished, or completed but not yet finalised. */
  ghost predicate Counted(s: Jd, P: set<Id>, a: Id)
    requires Shape(s)
  {
    Live(s.status[a]) || a in P
  }

  ghost predicate LinksTo(s: Jd, d: Side, b: Id, a: Id)
    requires Shape(s)
  {
    s.dep[d][b].Link? && s.dep[d][b].atom == a
  }

  ghost predicate Unlinked(s: Jd, b: Id)
    requires Shape(s)
  {
    s.dep[0][b].NoLink? && s.dep[1][b].NoLink?
  }

  /** b is on a's list number d exactly when b's link number d points to a, and then once. */
  ghost predicate HeadsMatch(s: Jd)
    requires Shape(s)
  {
    && (forall d: Side, a: Id, b: Id :: b in s.head[d][a] <==> LinksTo(s, d, b, a))
    && (forall d: Side, a: Id :: NoDup(s.head[d][a]))
  }

  /** Only queued atoms have links, and a link points to a strictly older atom that is
      unfinished or among P, the atoms completed but not yet finalised. */
  ghost predicate LinksOk(s: Jd, P: set<Id>)
    requires Shape(s)
  {
    forall d: Side, b: Id :: s.dep[d][b].Link? ==>
      && s.status[b] == Queued
      && s.age[s.dep[d][b].atom] < s.age[b]
      && Counted(s, P, s.dep[d][b].atom)
  }

  ghost predicate Graph(s: Jd, P: set<Id>)
    requires Shape(s)
  {
    HeadsMatch(s) && LinksOk(s, P)
  }

  ghost function LiveSet(s: Jd): set<int>
    requires Shape(s)
  {
    set a: int | 0 <= a < ATOM_COUNT && Live(s.status[a])
  }

  ghost function QueuedSet(s: Jd): set<int>
    requires Shape(s)
  {
    set a: int | 0 <= a < ATOM_COUNT && s.status[a] == Queued
  }

  /** The job counter counts the unfinished atoms and those still to be finalised, and
      every submission is either counted by it or logged. */
  ghost predicate Count(s: Jd, P: set<Id>)
    requires Shape(s)
  {
    && s.jobNr == |LiveSet(s)| + |P|
    && s.nextAge == s.jobNr + |s.log|
    && (forall p :: p in P ==> s.status[p] == Completed)
  }

  ghost predicate Ages(s: Jd, P: set<Id>)
    requires Shape(s)
  {
    && (forall a: Id, b: Id :: a != b && Counted(s, P, a) && Counted(s, P, b) ==> s.age[a] != s.age[b])
    && (forall a: Id :: Counted(s, P, a) ==> s.age[a] < s.nextAge && s.age[a] !in s.log)
    && NoDup(s.log)
    && (forall g :: g in s.log ==> g < s.nextAge)
  }

  /** R is the list of runnable atoms; the flag of an atom says that it is on it. */
  ghost predicate Runnable(s: Jd, R: seq<Id>)
    requires Shape(s)
  {
    && NoDup(R)
    && (forall b: Id :: s.inJdList[b] <==> b in R)
    && (forall b: Id :: b in R ==>
          && s.status[b] == Queued && !s.fenced[b]
          && (s.req[b].kind != Gpu || s.dying ==> Unlinked(s, b)))
  }

  /** A queued atom that waits for nothing is runnable or a started soft job. */
  ghost predicate NotStranded(s: Jd, R: seq<Id>)
    requires Shape(s)
  {
    && (forall b: Id :: s.status[b] == Queued && Unlinked(s, b) && !s.fenced[b] ==> b in R || b in s.started)
    && (forall b: Id :: b in s.started ==>
          s.status[b] == Queued && s.req[b].kind == Soft && Unlinked(s, b) && !s.fenced[b] && b !in R)
  }

  /** A queued atom that has not been started carries a failure code exactly when it is
      marked to fail. */
  ghost predicate Codes(s: Jd)
    requires Shape(s)
  {
    && (forall b: Id :: s.code[b] != NOT_STARTED)
    && (forall b: Id :: s.status[b] == Queued && b !in s.started ==>
          (s.code[b] == DONE <==> s.willFail[b] == 0))
  }

  ghost predicate Lists(s: Jd, R: seq<Id>)
    requires Shape(s)
  {
    Runnable(s, R) && NotStranded(s, R) && Codes(s)
  }

  ghost predicate Core(s: Jd, P: set<Id>, R: seq<Id>) {
    Shape(s) && Graph(s, P) && Count(s, P) && Ages(s, P) && Lists(s, R)
  }

  /** An atom that waits for a fence is queued, and one that a cancel worker is queued for
      is with the scheduler. */
  ghost predicate Pinned(s: Jd)
    requires Shape(s)
  {
    && (forall b: Id :: s.fenced[b] ==> s.status[b] == Queued)
    && (forall b: Id :: b in s.cancelling ==> s.status[b] == InJs)
  }

  /** The same of all atoms but a. */
  ghost predicate PinnedBut(s: Jd, a: Id)
    requires Shape(s)
  {
    && (forall b: Id :: b != a && s.fenced[b] ==> s.status[b] == Queued)
    && (forall b: Id :: b != a && b in s.cancelling ==> s.status[b] == InJs)
  }

  ghost function Pre(s: Jd, a: Id): set<Id>
    requires Shape(s)
  {
    if s.status[a] == Completed then {a} else {}
  }

  /** a has been counted in and can be completed: the invariant holds, except that a itself
      may wait for nothing and may carry any code. */
  ghost predicate Completable(s: Jd, a: Id) {
    && Shape(s) && Graph(s, Pre(s, a)) && Count(s, Pre(s, a)) && Ages(s, Pre(s, a))
    && Counted(s, Pre(s, a), a) && ListsBut(s, a)
  }

  ghost predicate ListsBut(s: Jd, a: Id)
    requires Shape(s)
  {
    && Runnable(s, []) && s.code[a] != NOT_STARTED
    && (forall b: Id :: b != a && s.status[b] == Queued && Unlinked(s, b) && !s.fenced[b] ==> b in s.started)
    && (forall b: Id :: b != a && b in s.started ==>
          s.status[b] == Queued && s.req[b].kind == Soft && Unlinked(s, b) && !s.fenced[b])
    && (forall b: Id :: b != a ==> s.code[b] != NOT_STARTED)
    && (forall b: Id :: b != a && s.status[b] == Queued && b !in s.started ==>
          (s.code[b] == DONE <==> s.willFail[b] == 0))
  }

  /** The invariant between two calls of the dispatcher. */
  ghost predicate Inv(s: Jd) {
    Core(s, {}, []) && Pinned(s)
  }

  // -------------------------------------------------------------- updates

  /** list_del of b's link number d, and kbase_jd_katom_dep_clear. */
  function Unlink(s: Jd, d: Side, b: Id): Jd
    requires Shape(s)
  {
    if s.dep[d][b].NoLink? then s
    else
      var a := s.dep[d][b].atom;
      s.(dep := s.dep[d := s.dep[d][b := NoLink]],
         head := s.head[d := s.head[d][a := Without(s.head[d][a], b)]])
  }

  function UnlinkBoth(s: Jd, b: Id): Jd
    requires Shape(s)
  {
    Unlink(Unlink(s, 0, b), 1, b)
  }

  /** b inherits the failure code of a DATA predecessor. */
  function Doom(s: Jd, b: Id, code: nat): Jd
    requires Shape(s)
  {
    s.(code := s.code[b := code], willFail := s.willFail[b := code])
  }

  function SetListed(s: Jd, b: Id, on: bool): Jd
    requires Shape(s)
  {
    s.(inJdList := s.inJdList[b := on])
  }

  function SetStatus(s: Jd, b: Id, st: Status): Jd
    requires Shape(s)
  {
    s.(status := s.status[b := st])
  }

  /** The first steps of jd_done_nolock. */
  function Start(s: Jd, a: Id): Jd
    requires Shape(s)
  {
    SetStatus(UnlinkBoth(s, a), a, Completed).(started := s.started - {a})
  }

  /** b leaves the runnable list and completes with this code. */
  function Finish(s: Jd, b: Id, code: nat): Jd
    requires Shape(s)
  {
    SetStatus(SetListed(s, b, false), b, Completed).(code := s.code[b := code])
  }

  /** b leaves the runnable list as a soft job that waits for its event. */
  function Wait(s: Jd, b: Id, code: nat): Jd
    requires Shape(s)
  {
    SetListed(s, b, false).(started := s.started + {b}, code := s.code[b := code])
  }

  /** b leaves the runnable list and is taken by the job scheduler, links and all. */
  function Accept(s: Jd, b: Id): Jd
    requires Shape(s)
  {
    UnlinkBoth(SetStatus(SetListed(s, b, false), b, InJs), b)
  }

  /** What the scheduler does to an atom it has just taken if the context is being torn down
      and not scheduled in: it is cancelled, and a cancel worker is queued for it. */
  function Kill(s: Jd, b: Id): Jd
    requires Shape(s)
  {
    s.(code := s.code[b := JOB_CANCELLED], cancelling := s.cancelling + {b})
  }

  /** The completed atom a is counted off and handed to the event code. An atom that is
      not reported and holds no external resources becomes free at once. */
  function Finalise(s: Jd, a: Id, deferred: bool): Jd
    requires Shape(s)
  {
    s.(jobNr := s.jobNr - 1, log := s.log + [s.age[a]],
       status := if Silent(s, a) && !deferred && !s.req[a].extRes then s.status[a := Unused] else s.status)
  }

  /** Whether resolving link d of b fails b: its predecessor k failed and the link is DATA. */
  predicate Taints(s: Jd, k: Id, d: Side, b: Id)
    requires Shape(s)
  {
    s.code[k] != DONE && s.dep[d][b].Link? && s.dep[d][b].typ != Order
  }

  /** Whether b, whose other link is `other`, may be put on the runnable list: it waits for
      nothing else, or it is a GPU atom that the scheduler may be able to order by itself. */
  predicate Eligible(s: Jd, b: Id, other: Link)
    requires Shape(s)
  {
    && !s.inJdList[b]
    && (other.NoLink? || (s.req[b].kind == Gpu && !s.dying && s.willFail[b] == 0 && s.willFail[other.atom] == 0))
    && !s.fenced[b]
  }

  /** Link d of b, the first node of k's list, is resolved. */
  function Resolve(s: Jd, k: Id, d: Side, b: Id): Jd
    requires Shape(s)
  {
    var u := Unlink(s, d, b);
    if Taints(s, k, d, b) then Doom(u, b, s.code[k]) else u
  }

  /** One turn of jd_resolve_dep on k's list d: its first node is resolved, and put on the
      runnable list if it is eligible. */
  ghost predicate Resolved(s: Jd, k: Id, d: Side, R: seq<Id>, t: Jd, R': seq<Id>) {
    && Shape(s) && s.head[d][k] != []
    && var b := s.head[d][k][0];
       var u := Resolve(s, k, d, b);
       && Shape(u)
       && (if Eligible(u, b, s.dep[1 - d][b]) then t == SetListed(u, b, true) && R' == R + [b] else t == u && R' == R)
  }

  /** is_dep_valid: a predecessor allows its dependent to be offered to the scheduler early. */
  predicate IsDepValid(status: seq<Status>, code: seq<nat>, willFail: seq<nat>, l: Link)
    requires |status| == ATOM_COUNT && |code| == ATOM_COUNT && |willFail| == ATOM_COUNT
  {
    l.NoLink? ||
    match status[l.atom]
    case Unused | Queued => false
    case InJs => true
    case HwCompleted | Completed => code[l.atom] == DONE && willFail[l.atom] == 0
  }

  predicate DepValid(s: Jd, l: Link)
    requires Shape(s)
  {
    IsDepValid(s.status, s.code, s.willFail, l)
  }

  lemma DepValidKept(s: Jd, t: Jd)
    requires Shape(s) && Shape(t) && t.status == s.status && t.code == s.code && t.willFail == s.willFail
    ensures forall l: Link :: DepValid(t, l) == DepValid(s, l)
  {
  }

  /** b depends on node and may be offered to the scheduler now that node is there. */
  ghost predicate Offerable(s: Jd, node: Id, d: Side, b: Id)
    requires Shape(s)
  {
    LinksTo(s, d, b, node) && s.req[b].kind == Gpu && DepValid(s, s.dep[0][b]) && DepValid(s, s.dep[1][b]) && !s.fenced[b]
  }

  predicate Silent(s: Jd, a: Id)
    requires Shape(s)
  {
    s.req[a].report == Never || (s.req[a].report == OnFailure && s.code[a] == DONE)
  }

  /** The tables of a new context. */
  function Initial(): Jd {
    Jd(seq(ATOM_COUNT, i => Unused), seq(ATOM_COUNT, i => JOB_INVALID), seq(ATOM_COUNT, i => 0),
       seq(ATOM_COUNT, i => Req(DepOnly, Always, false)),
       seq(ATOM_COUNT, i => false), seq(ATOM_COUNT, i => false),
       seq(2, d => seq(ATOM_COUNT, i => NoLink)), seq(2, d => seq(ATOM_COUNT, i => [])),
       seq(ATOM_COUNT, i => 0), 0, 0, false, {}, {}, [])
  }

  lemma InitialInv()
    ensures Inv(Initial())
  {
    assert LiveSet(Initial()) == {};
  }
}
