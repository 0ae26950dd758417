/** Every update of the dispatcher's tables keeps the invariant. */
module JdSteps {
  import opened Sequences
  import opened JdState

  // ------------------------------------------------------------- unlinking

  lemma UnlinkShape(s: Jd, d: Side, b: Id)
    requires Shape(s)
    ensures Shape(Unlink(s, d, b))
    ensures forall d': Side, c: Id :: Unlink(s, d, b).dep[d'][c] == (if d' == d && c == b then NoLink else s.dep[d'][c])
  {
  }

  lemma UnlinkBothShape(s: Jd, b: Id)
    requires Shape(s)
    ensures Shape(Unlink(s, 0, b)) && Shape(UnlinkBoth(s, b))
  {
    UnlinkShape(s, 0, b);
    UnlinkShape(Unlink(s, 0, b), 1, b);
  }

  lemma UnlinkHeads(s: Jd, d: Side, b: Id)
    requires Shape(s) && HeadsMatch(s)
    ensures Shape(Unlink(s, d, b)) && HeadsMatch(Unlink(s, d, b))
  {
    UnlinkShape(s, d, b);
    if s.dep[d][b].Link? {
      WithoutNoDup(s.head[d][s.dep[d][b].atom], b);
    }
  }

  lemma UnlinkGraph(s: Jd, d: Side, b: Id, P: set<Id>)
    requires Shape(s) && Graph(s, P)
    ensures Shape(Unlink(s, d, b)) && Graph(Unlink(s, d, b), P)
  {
    UnlinkShape(s, d, b);
    UnlinkHeads(s, d, b);
  }

  lemma UnlinkBothGraph(s: Jd, b: Id, P: set<Id>)
    requires Shape(s) && Graph(s, P)
    ensures Shape(UnlinkBoth(s, b)) && Graph(UnlinkBoth(s, b), P) && Unlinked(UnlinkBoth(s, b), b)
    ensures forall d: Side, c: Id :: c != b ==> UnlinkBoth(s, b).dep[d][c] == s.dep[d][c]
  {
    UnlinkShape(s, 0, b);
    UnlinkGraph(s, 0, b, P);
    UnlinkShape(Unlink(s, 0, b), 1, b);
    UnlinkGraph(Unlink(s, 0, b), 1, b, P);
  }

  // -------------------------------------------------------------- counting

  /** An atom that stops being unfinished lowers the number of unfinished atoms by one. */
  lemma LiveDrops(s: Jd, t: Jd, b: Id)
    requires Shape(s) && Shape(t)
    requires t.status == s.status[b := t.status[b]] && Live(s.status[b]) && !Live(t.status[b])
    ensures LiveSet(t) == LiveSet(s) - {b} && |LiveSet(t)| == |LiveSet(s)| - 1
  {
    assert LiveSet(t) == LiveSet(s) - {b};
  }

  lemma LiveStays(s: Jd, t: Jd)
    requires Shape(s) && Shape(t)
    requires forall a: Id :: Live(s.status[a]) == Live(t.status[a])
    ensures LiveSet(t) == LiveSet(s)
  {
  }

  /** Ages survive as long as nothing new is counted. */
  lemma AgesKept(s: Jd, P: set<Id>, t: Jd, Q: set<Id>)
    requires Shape(s) && Shape(t) && Ages(s, P)
    requires t.age == s.age && t.nextAge == s.nextAge && t.log == s.log
    requires forall a: Id :: Counted(t, Q, a) ==> Counted(s, P, a)
    ensures Ages(t, Q)
  {
  }

  /** Links survive as long as the atoms they join keep their roles. */
  lemma GraphKept(s: Jd, P: set<Id>, t: Jd, Q: set<Id>)
    requires Shape(s) && Shape(t) && Graph(s, P)
    requires t.dep == s.dep && t.head == s.head && t.age == s.age
    requires forall a: Id :: Counted(s, P, a) ==> Counted(t, Q, a)
    requires forall b: Id :: s.status[b] == Queued && !Unlinked(s, b) ==> t.status[b] == Queued
    ensures Graph(t, Q)
  {
    assert HeadsMatch(t);
  }

  /** The lists do not look at the links of atoms that are not queued. */
  lemma ListsKept(s: Jd, t: Jd, R: seq<Id>)
    requires Shape(s) && Shape(t) && Lists(s, R)
    requires t.status == s.status && t.code == s.code && t.willFail == s.willFail && t.req == s.req
    requires t.inJdList == s.inJdList && t.fenced == s.fenced && t.dying == s.dying && t.started == s.started
    requires forall d: Side, b: Id :: s.status[b] == Queued ==> t.dep[d][b] == s.dep[d][b]
    ensures Lists(t, R)
  {
    assert forall b: Id :: s.status[b] == Queued ==> Unlinked(s, b) == Unlinked(t, b);
  }

  // ----------------------------------------------------------------- steps

  lemma StartKeepsLists(s: Jd, a: Id)
    requires Shape(s) && ListsBut(s, a)
    requires Shape(UnlinkBoth(s, a))
    requires forall d: Side, c: Id :: c != a ==> UnlinkBoth(s, a).dep[d][c] == s.dep[d][c]
    ensures Lists(Start(s, a), [])
  {
    var t := Start(s, a);
    assert forall b: Id :: b != a ==> Unlinked(s, b) == Unlinked(t, b);
  }

  lemma StartKeepsCore(s: Jd, a: Id)
    requires Completable(s, a)
    ensures Core(Start(s, a), {a}, [])
  {
    hide HeadsMatch, LinksOk, Ages, Lists, ListsBut;
    var t := Start(s, a);
    var u := UnlinkBoth(s, a);
    UnlinkBothGraph(s, a, Pre(s, a));
    GraphKept(u, Pre(s, a), t, {a});
    AgesKept(s, Pre(s, a), t, {a});
    StartKeepsLists(s, a);
    if s.status[a] == Completed {
      LiveStays(s, t);
    } else {
      LiveDrops(s, t, a);
    }
  }

  lemma StartFrame(q: Jd, a: Id)
    requires Shape(q)
    ensures var s0 := Start(q, a);
      && s0.fenced == q.fenced && s0.cancelling == q.cancelling && s0.dying == q.dying && s0.req == q.req
      && s0.status == q.status[a := Completed] && s0.code == q.code && s0.willFail == q.willFail && s0.age == q.age
  {
    UnlinkShape(q, 0, a);
  }

  lemma ResolveKeepsRunnable(s: Jd, u: Jd, R: seq<Id>, d: Side, b: Id)
    requires Shape(s) && Shape(u) && Runnable(s, R) && s.status[b] == Queued
    requires u.status == s.status && u.req == s.req && u.inJdList == s.inJdList && u.fenced == s.fenced
    requires u.dying == s.dying
    requires forall d': Side, c: Id :: u.dep[d'][c] == (if d' == d && c == b then NoLink else s.dep[d'][c])
    ensures if Eligible(u, b, s.dep[1 - d][b]) then Runnable(SetListed(u, b, true), R + [b]) else Runnable(u, R)
  {
  }

  lemma ResolveKeepsNotStranded(s: Jd, u: Jd, R: seq<Id>, d: Side, b: Id)
    requires Shape(s) && Shape(u) && NotStranded(s, R) && s.status[b] == Queued && s.dep[d][b].Link?
    requires forall c: Id :: s.inJdList[c] ==> c in R
    requires u.status == s.status && u.req == s.req && u.inJdList == s.inJdList && u.fenced == s.fenced
    requires u.started == s.started
    requires forall d': Side, c: Id :: u.dep[d'][c] == (if d' == d && c == b then NoLink else s.dep[d'][c])
    ensures if Eligible(u, b, s.dep[1 - d][b]) then NotStranded(SetListed(u, b, true), R + [b]) else NotStranded(u, R)
  {
    assert forall c: Id :: c != b ==> Unlinked(s, c) == Unlinked(u, c);
    assert !Unlinked(s, b);
  }

  lemma ResolveKeepsCodes(s: Jd, k: Id, d: Side, b: Id)
    requires Shape(s) && Shape(Resolve(s, k, d, b)) && Codes(s)
    ensures Codes(Resolve(s, k, d, b))
  {
  }

  lemma ResolveKeepsLists(s: Jd, R: seq<Id>, k: Id, d: Side, b: Id)
    requires Shape(s) && Shape(Unlink(s, d, b)) && Lists(s, R) && s.status[b] == Queued && s.dep[d][b].Link?
    requires forall d': Side, c: Id :: Unlink(s, d, b).dep[d'][c] == (if d' == d && c == b then NoLink else s.dep[d'][c])
    ensures var u := Resolve(s, k, d, b);
            if Eligible(u, b, s.dep[1 - d][b]) then Lists(SetListed(u, b, true), R + [b])
            else Lists(u, R)
  {
    var u := Resolve(s, k, d, b);
    ResolveKeepsRunnable(s, u, R, d, b);
    ResolveKeepsNotStranded(s, u, R, d, b);
    ResolveKeepsCodes(s, k, d, b);
  }

  lemma ResolveKeepsCore(s: Jd, P: set<Id>, R: seq<Id>, k: Id, d: Side, b: Id)
    requires Core(s, P, R) && k in P && LinksTo(s, d, b, k)
    ensures Shape(Resolve(s, k, d, b))
    ensures var u := Resolve(s, k, d, b);
            if Eligible(u, b, s.dep[1 - d][b]) then Core(SetListed(u, b, true), P, R + [b])
            else Core(u, P, R)
  {
    UnlinkShape(s, d, b);
    UnlinkGraph(s, d, b, P);
    ResolveKeepsLists(s, R, k, d, b);
    var u := Resolve(s, k, d, b);
    var t := if Eligible(u, b, s.dep[1 - d][b]) then SetListed(u, b, true) else u;
    GraphKept(Unlink(s, d, b), P, t, P);
    AgesKept(s, P, t, P);
    LiveStays(s, t);
  }

  lemma FinishKeepsLists(s: Jd, R: seq<Id>, code: nat)
    requires Shape(s) && Lists(s, R) && R != [] && code != NOT_STARTED
    ensures Lists(Finish(s, R[0], code), R[1..])
  {
  }

  lemma FinishKeepsCore(s: Jd, P: set<Id>, R: seq<Id>, code: nat)
    requires Core(s, P, R) && R != [] && Unlinked(s, R[0]) && code != NOT_STARTED
    ensures Core(Finish(s, R[0], code), P + {R[0]}, R[1..])
  {
    hide HeadsMatch, LinksOk, Ages, NotStranded, Codes;
    var t := Finish(s, R[0], code);
    LiveDrops(s, t, R[0]);
    GraphKept(s, P, t, P + {R[0]});
    AgesKept(s, P, t, P + {R[0]});
    FinishKeepsLists(s, R, code);
  }

  lemma WaitKeepsLists(s: Jd, R: seq<Id>, code: nat)
    requires Shape(s) && Lists(s, R) && R != [] && s.req[R[0]].kind == Soft && code != NOT_STARTED
    ensures Lists(Wait(s, R[0], code), R[1..])
  {
  }

  lemma WaitKeepsCore(s: Jd, P: set<Id>, R: seq<Id>, code: nat)
    requires Core(s, P, R) && R != [] && s.req[R[0]].kind == Soft && code != NOT_STARTED
    ensures Core(Wait(s, R[0], code), P, R[1..])
  {
    var t := Wait(s, R[0], code);
    GraphKept(s, P, t, P);
    AgesKept(s, P, t, P);
    LiveStays(s, t);
    WaitKeepsLists(s, R, code);
  }

  lemma DeclineKeepsCore(s: Jd, P: set<Id>, R: seq<Id>)
    requires Core(s, P, R) && R != [] && !Unlinked(s, R[0])
    ensures Core(SetListed(s, R[0], false), P, R[1..])
  {
    LiveStays(s, SetListed(s, R[0], false));
  }

  lemma LeaveKeepsLists(s: Jd, R: seq<Id>)
    requires Shape(s) && Lists(s, R) && R != []
    ensures Lists(SetStatus(SetListed(s, R[0], false), R[0], InJs), R[1..])
  {
  }

  lemma AcceptKeepsLists(s: Jd, R: seq<Id>, P: set<Id>)
    requires Shape(s) && Graph(s, P) && Lists(s, R) && R != []
    ensures Shape(Accept(s, R[0])) && Lists(Accept(s, R[0]), R[1..])
  {
    hide HeadsMatch, LinksOk, Lists;
    LeaveKeepsLists(s, R);
    var v := SetStatus(SetListed(s, R[0], false), R[0], InJs);
    UnlinkShape(v, 0, R[0]);
    UnlinkShape(Unlink(v, 0, R[0]), 1, R[0]);
    ListsKept(v, Accept(s, R[0]), R[1..]);
  }

  lemma AcceptKeepsCore(s: Jd, P: set<Id>, R: seq<Id>)
    requires Core(s, P, R) && R != []
    ensures Core(Accept(s, R[0]), P, R[1..])
  {
    hide HeadsMatch, LinksOk, Ages, NotStranded, Codes;
    AcceptKeepsLists(s, R, P);
    var t := Accept(s, R[0]);
    UnlinkBothGraph(s, R[0], P);
    GraphKept(UnlinkBoth(s, R[0]), P, t, P);
    AgesKept(s, P, t, P);
    LiveStays(s, t);
  }

  lemma OfferKeepsCore(s: Jd, P: set<Id>, R: seq<Id>, b: Id)
    requires Core(s, P, R) && !s.dying && s.req[b].kind == Gpu && s.status[b] == Queued
    requires !s.inJdList[b] && !s.fenced[b]
    ensures Core(SetListed(s, b, true), P, [b] + R)
  {
    LiveStays(s, SetListed(s, b, true));
  }

  lemma FinaliseKeepsAges(s: Jd, P: set<Id>, k: Id, deferred: bool)
    requires Shape(s) && Ages(s, P) && k in P && s.status[k] == Completed
    ensures Ages(Finalise(s, k, deferred), P - {k})
  {
    var t := Finalise(s, k, deferred);
    forall a: Id | Counted(t, P - {k}, a)
      ensures Counted(s, P, a) && a != k
    {
    }
  }

  lemma FinaliseKeepsGraph(s: Jd, P: set<Id>, k: Id)
    requires Shape(s) && Graph(s, P) && forall d: Side :: s.head[d][k] == []
    ensures Graph(s, P - {k})
  {
    forall d: Side, b: Id | s.dep[d][b].Link?
      ensures s.dep[d][b].atom != k
    {
      assert LinksTo(s, d, b, s.dep[d][b].atom);
    }
  }

  lemma FinaliseKeepsLists(s: Jd, R: seq<Id>, k: Id, deferred: bool)
    requires Shape(s) && Lists(s, R) && s.status[k] == Completed
    ensures Lists(Finalise(s, k, deferred), R)
  {
    var t := Finalise(s, k, deferred);
    assert forall b: Id :: Unlinked(t, b) == Unlinked(s, b);
  }

  lemma FinaliseKeepsCore(s: Jd, P: set<Id>, R: seq<Id>, k: Id, deferred: bool)
    requires Core(s, P, R) && k in P
    requires forall d: Side :: s.head[d][k] == []
    ensures Core(Finalise(s, k, deferred), P - {k}, R)
  {
    hide Ages, NotStranded, Codes;
    var t := Finalise(s, k, deferred);
    LiveStays(s, t);
    FinaliseKeepsAges(s, P, k, deferred);
    FinaliseKeepsGraph(s, P, k);
    GraphKept(s, P - {k}, t, P - {k});
    FinaliseKeepsLists(s, R, k, deferred);
  }
}
