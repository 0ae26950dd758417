/** The job dispatcher of mali_kbase_jd.c. */
module JobDispatcher {
  import opened CoreReqs
  import opened Sequences
  import opened JdState
  import opened JdSteps
  import opened JdOutcome
  import opened JdOffers
  import opened JdSettle
  import opened JdSubmit
  import opened JdEntry
  import H = JdHistory

  class JdContext {
    var status: seq<Status>
    var code: seq<nat>
    var willFail: seq<nat>
    var req: seq<Req>
    var inJdList: seq<bool>
    var fenced: seq<bool>
    var dep: seq<seq<Link>>
    var head: seq<seq<seq<Id>>>
    var age: seq<nat>
    var nextAge: nat
    var jobNr: int
    var dying: bool
    var started: set<Id>
    var cancelling: set<Id>
    ghost var log: seq<nat>
    /** The atoms offered to the scheduler so far, in order. */
    ghost var offers: seq<Id>

    ghost function View(): Jd
      reads this
    {
      Jd(status, code, willFail, req, inJdList, fenced, dep, head, age, nextAge, jobNr, dying, started, cancelling, log)
    }

    ghost predicate Valid()
      reads this
    {
      Inv(View())
    }

    // ------------------------------------------------------------ helpers

    method UnlinkDep(d: Side, b: Id)
      requires Shape(View())
      modifies this`dep, this`head
      ensures View() == Unlink(old(View()), d, b)
    {
      if dep[d][b].Link? {
        var a := dep[d][b].atom;
        head := head[d := head[d][a := Without(head[d][a], b)]];
        dep := dep[d := dep[d][b := NoLink]];
      }
    }

    /** kbasep_js_add_job: the scheduler either takes the atom and its links, or, if a link
        is left that it cannot order by itself, puts the atom back. An atom taken while the
        context is being torn down and scheduled out is cancelled. */
    method AddJob(katom: Id, accepts: bool, scheduledOut: bool)
      requires Shape(View()) && status[katom] == InJs
      modifies this`status, this`code, this`dep, this`head, this`cancelling, this`offers
      ensures offers == old(offers) + [katom]
      ensures Shape(View()) && Shape(UnlinkBoth(old(View()), katom))
      ensures View() ==
        if !accepts && !Unlinked(old(View()), katom) then SetStatus(old(View()), katom, Queued)
        else if dying && scheduledOut then Kill(UnlinkBoth(old(View()), katom), katom)
        else UnlinkBoth(old(View()), katom)
    {
      assert |dep| == 2 && |dep[0]| == |dep[1]| == |status| == |code| == ATOM_COUNT;
      hide Unlink, Shape;
      ghost var s := View();
      UnlinkBothShape(s, katom);
      offers := offers + [katom];
      if accepts || (dep[0][katom].NoLink? && dep[1][katom].NoLink?) {
        UnlinkDep(0, katom);
        UnlinkDep(1, katom);
        assert View() == UnlinkBoth(s, katom) && code == s.code;
        if dying && scheduledOut {
          code := code[katom := JOB_CANCELLED];
          cancelling := cancelling + {katom};
        }
      } else {
        status := status[katom := Queued];
      }
    }

    method RunAtom(katom: Id, soft: seq<SoftStep>, scheduledOut: bool)
      requires Shape(View()) && StepsOk(soft) && status[katom] == Queued
      modifies this
      ensures Shape(View())
      ensures var r := Ran(old(View()), katom, soft[katom], status[katom] == InJs);
              && Shape(r) && status == r.status
              && View() == if status[katom] == InJs && old(dying) && scheduledOut then Kill(r, katom) else r
      ensures req[katom].kind == Gpu && status[katom] != InJs ==> !Unlinked(old(View()), katom)
      ensures offers == old(offers) + if old(req[katom]).kind == Gpu then [katom] else []
    {
      match req[katom].kind
      case DepOnly =>
        status := status[katom := Completed];
      case Soft =>
        if willFail[katom] != 0 {
          status := status[katom := Completed];
        } else {
          code := code[katom := soft[katom].code];
          if soft[katom].finished {
            status := status[katom := Completed];
          } else {
            started := started + {katom};
          }
        }
      case Gpu =>
        status := status[katom := InJs];
        var accepts: bool := *;
        UnlinkShape(View(), 0, katom);
        UnlinkShape(Unlink(View(), 0, katom), 1, katom);
        AddJob(katom, accepts, scheduledOut);
        assert old(View()) == SetStatus(SetStatus(old(View()), katom, InJs), katom, Queued);
    }

    // -------------------------------------------------------- the worklist

    /** Takes depAtom off katom's list d and passes on katom's failure. */
    method ClearDep(katom: Id, depAtom: Id, d: Side)
      requires Shape(View()) && LinksTo(View(), d, depAtom, katom) && depAtom != katom
      modifies this`code, this`willFail, this`dep, this`head
      ensures Shape(View()) && View() == Resolve(old(View()), katom, d, depAtom)
    {
      UnlinkShape(View(), d, depAtom);
      var depType := dep[d][depAtom].typ;
      UnlinkDep(d, depAtom);
      if code[katom] != DONE && depType != Order {
        code := code[depAtom := code[katom]];
        willFail := willFail[depAtom := code[depAtom]];
      }
    }

    /** One turn of the loop in jd_resolve_dep: the first dependent on the list. */
    method ResolveFirst(runnable: seq<Id>, katom: Id, d: Side) returns (out: seq<Id>)
      requires Shape(View()) && head[d][katom] != [] && NoDup(head[d][katom])
      requires LinksTo(View(), d, head[d][katom][0], katom) && head[d][katom][0] != katom
      modifies this`code, this`willFail, this`inJdList, this`dep, this`head
      ensures Resolved(old(View()), katom, d, runnable, View(), out)
      ensures head == old(head[d := head[d][katom := head[d][katom][1..]]])
      ensures forall c: Id :: c != old(head[d][katom])[0] ==> code[c] == old(code[c])
      ensures var b := old(head[d][katom])[0];
              var other := old(dep[1 - d][b]);
        out == if !old(inJdList[b]) && !fenced[b]
                  && (other.NoLink? || (req[b].kind == Gpu && !dying && willFail[b] == 0 && willFail[other.atom] == 0))
               then runnable + [b] else runnable
    {
      out := runnable;
      var depAtom := head[d][katom][0];
      WithoutFirst(head[d][katom]);
      UnlinkShape(View(), d, depAtom);
      ClearDep(katom, depAtom, d);
      var other := dep[1 - d][depAtom];
      if !inJdList[depAtom]
         && (other.NoLink? || (req[depAtom].kind == Gpu && !dying && willFail[depAtom] == 0
                               && willFail[other.atom] == 0))
         && !fenced[depAtom] {
        inJdList := inJdList[depAtom := true];
        out := out + [depAtom];
      }
    }

    method ResolveDep(runnable: seq<Id>, katom: Id, d: Side,
                      ghost P: set<Id>, ghost s0: Jd, ghost a: Id, ghost o: seq<Verdict>, ghost E: set<Id>,
                      ghost given: seq<Id>)
      returns (out: seq<Id>)
      requires Working(s0, View(), a, o, E, P, runnable) && katom in P && OffersRight(s0, View(), runnable, given)
      modifies this`code, this`willFail, this`inJdList, this`dep, this`head
      ensures Working(s0, View(), a, o, E, P, out) && OffersRight(s0, View(), out, given)
      ensures head[d][katom] == [] && head[1 - d] == old(head[1 - d]) && jobNr == old(jobNr)
      ensures forall c: Id :: status[c] != Queued ==> code[c] == old(code[c])
    {
      hide Graph, Count, Ages, Lists, Tracks, Logged, OffersRight;
      out := runnable;
      while head[d][katom] != []
        invariant Working(s0, View(), a, o, E, P, out) && OffersRight(s0, View(), out, given)
        invariant head[1 - d] == old(head[1 - d]) && forall c: Id :: status[c] != Queued ==> code[c] == old(code[c])
        decreases |head[d][katom]|
      {
        ghost var s, before := View(), out;
        FirstDependent(s, P, out, katom, d);
        out := ResolveFirst(out, katom, d);
        WorkingResolve(s0, s, a, o, E, P, before, katom, d, View(), out);
        WorkingOffersResolve(s0, s, a, o, E, P, before, katom, d, View(), out, given);
      }
    }

    // ------------------------------------------------------- early submission

    /** The inner loop of jd_try_submitting_deps, over one of the two lists of node. */
    method TrySubmittingList(runnable: seq<Id>, node: Id, i: Side,
                             ghost P: set<Id>, ghost s0: Jd, ghost a: Id, ghost o: seq<Verdict>, ghost E: set<Id>)
      returns (out: seq<Id>)
      requires Working(s0, View(), a, o, E, P, runnable) && !dying
      modifies this`inJdList
      ensures Working(s0, View(), a, o, E, P, out)
      ensures forall b: Id :: inJdList[b] <==> old(inJdList)[b] || Offerable(old(View()), node, i, b)
      ensures |out| >= |runnable| && out[|out| - |runnable|..] == runnable
    {
      hide Graph, Count, Ages, Lists, Tracks, Logged, DepValid, Offerable;
      ghost var s := View();
      out := runnable;
      for pos := 0 to |head[i][node]|
        invariant Working(s0, View(), a, o, E, P, out)
        invariant OfferedUpTo(s, node, i, inJdList, pos)
        invariant |out| >= |runnable| && out[|out| - |runnable|..] == runnable
      {
        ghost var before := inJdList;
        out := TryOne(out, node, i, head[i][node][pos], P, s0, a, o, E);
        OfferedNext(s, node, i, before, inJdList, pos);
      }
      AllOffered(s, P, out, node, i, inJdList);
    }

    /** One turn of that loop. */
    method TryOne(runnable: seq<Id>, node: Id, i: Side, depAtom: Id,
                  ghost P: set<Id>, ghost s0: Jd, ghost a: Id, ghost o: seq<Verdict>, ghost E: set<Id>)
      returns (out: seq<Id>)
      requires Working(s0, View(), a, o, E, P, runnable) && !dying && depAtom in head[i][node]
      modifies this`inJdList
      ensures Working(s0, View(), a, o, E, P, out)
      ensures inJdList == old(inJdList)[depAtom := old(inJdList)[depAtom] || Offerable(old(View()), node, i, depAtom)]
      ensures |out| >= |runnable| && out[|out| - |runnable|..] == runnable
    {
      hide Count, Ages, Lists, Tracks, Logged, IsDepValid;
      out := runnable;
      assert LinksTo(View(), i, depAtom, node);
      if req[depAtom].kind == Gpu && !inJdList[depAtom] {
        if IsDepValid(status, code, willFail, dep[0][depAtom]) && IsDepValid(status, code, willFail, dep[1][depAtom])
           && !fenced[depAtom] {
          WorkingOffer(s0, View(), a, o, E, P, out, i, depAtom);
          inJdList := inJdList[depAtom := true];
          out := [depAtom] + out;
        }
      }
    }

    /** The scheduler has taken node: exactly the GPU atoms that depend on it and whose other
        predecessor does not stand in the way are put at the front of the list. */
    method TrySubmittingDeps(runnable: seq<Id>, node: Id,
                             ghost P: set<Id>, ghost s0: Jd, ghost a: Id, ghost o: seq<Verdict>, ghost E: set<Id>)
      returns (out: seq<Id>)
      requires Working(s0, View(), a, o, E, P, runnable) && !dying
      modifies this`inJdList
      ensures Working(s0, View(), a, o, E, P, out) && QueuedSet(View()) == QueuedSet(old(View()))
      ensures forall b: Id :: inJdList[b] <==>
        old(inJdList)[b] || Offerable(old(View()), node, 0, b) || Offerable(old(View()), node, 1, b)
      ensures |out| >= |runnable| && out[|out| - |runnable|..] == runnable
    {
      hide Graph, Count, Ages, Lists, Tracks, Logged, DepValid;
      ghost var s := View();
      out := TrySubmittingList(runnable, node, 0, P, s0, a, o, E);
      DepValidKept(s, View());
      out := TrySubmittingList(out, node, 1, P, s0, a, o, E);
    }

    // ------------------------------------------------------------ completion

    /** One turn of the drain loop in jd_done_nolock. */
    method RunNode(katom: Id, node: Id, soft: seq<SoftStep>)
      requires Shape(View()) && StepsOk(soft) && status[node] == Queued && katom != node
      modifies this
      ensures Shape(View())
      ensures View() == Drained(old(View()), katom, node, soft[node], status[node] == InJs)
      ensures old(req[node]).kind == Gpu && status[node] != InJs ==> old(dying) || !Unlinked(old(View()), node)
      ensures offers == old(offers) + if !old(dying) && old(req[node]).kind == Gpu then [node] else []
    {
      inJdList := inJdList[node := false];
      if !dying {
        RunAtom(node, soft, false);
      } else {
        code := code[node := code[katom]];
        status := status[node := Completed];
      }
    }

    /** The same, seen from the worklist. */
    method DrainNode(list: seq<Id>, katom: Id, soft: seq<SoftStep>,
                     ghost P: set<Id>, ghost s0: Jd, ghost a: Id, ghost o: seq<Verdict>, ghost E: set<Id>,
                     ghost deferred: bool, ghost n: nat)
      requires Working(s0, View(), a, o, E, P, list) && list != [] && katom in P && StepsOk(soft) && Judged(s0, a, soft, o)
      requires FreedSoFar(View(), E, P, deferred) && n <= |offers| && OffersRight(s0, View(), list, offers[n..])
      modifies this
      ensures var node := list[0];
        && |status| == |willFail| == ATOM_COUNT && node !in P && (dying ==> status[node] == Completed)
        && (if status[node] == Completed
            then Working(s0, View(), a, o, E + {node}, P + {node}, list[1..])
                 && FreedSoFar(View(), E + {node}, P + {node}, deferred)
            else Working(s0, View(), a, o, E, P, list[1..]) && FreedSoFar(View(), E, P, deferred))
        && old(offers) <= offers && OffersBut(s0, View(), list[1..], offers[n..], node)
        && (status[node] != InJs || willFail[node] != 0 ==> OffersRight(s0, View(), list[1..], offers[n..]))
        && Shape(s0) && Shape(old(View())) && Shape(View()) && (status[node] == InJs ==> JustTaken(s0, View(), node))
        && |QueuedSet(View())| == |QueuedSet(old(View()))| - if status[node] == Queued then 0 else 1
      ensures jobNr == old(jobNr) && forall d: Side :: old(head[d][katom]) == [] ==> head[d][katom] == []
    {
      hide Graph, Count, Ages, Lists, Tracks, Logged, Drained, QueuedSet, FreedSoFar, OffersRight, OffersBut;
      var node := list[0];
      ghost var s, given := View(), offers;
      FirstRunnable(s0, s, a, o, E, P, list);
      RunNode(katom, node, soft);
      WorkingDrain(s0, s, a, soft, o, E, P, list, katom, status[node] == InJs);
      DrainDecreases(s, katom, node, soft[node], status[node] == InJs);
      DrainKeeps(s, katom, node, soft[node], status[node] == InJs);
      FreedDrain(s, katom, node, soft[node], status[node] == InJs, E, P, deferred);
      WorkingOffersDrain(s0, s, a, o, E, P, list, katom, soft[node], status[node] == InJs, given[n..]);
      assert offers[n..] == if !s.dying && s.req[node].kind == Gpu then given[n..] + [node] else given[n..];
    }

    /** Empties the list of runnable atoms. */
    method DrainRunnable(runnable: seq<Id>, completed: seq<Id>, katom: Id, soft: seq<SoftStep>,
                         ghost P: set<Id>, ghost s0: Jd, ghost a: Id, ghost o: seq<Verdict>, ghost E: set<Id>,
                         ghost deferred: bool, ghost n: nat)
      returns (completed': seq<Id>, ghost P': set<Id>, ghost E': set<Id>)
      requires Working(s0, View(), a, o, E, P, runnable) && katom in P && StepsOk(soft) && Judged(s0, a, soft, o)
      requires NoDup(completed) && katom !in completed && (forall x :: x in P <==> x in completed || x == katom)
      requires FreedSoFar(View(), E, P, deferred) && n <= |offers| && OffersRight(s0, View(), runnable, offers[n..])
      modifies this
      ensures Working(s0, View(), a, o, E', P', []) && FreedSoFar(View(), E', P', deferred)
      ensures NoDup(completed') && katom !in completed' && (forall x :: x in P' <==> x in completed' || x == katom)
      ensures jobNr == old(jobNr) && |P'| >= 1
      ensures forall d: Side :: old(head[d][katom]) == [] ==> head[d][katom] == []
      ensures old(offers) <= offers && OffersRight(s0, View(), [], offers[n..])
    {
      hide Graph, Count, Ages, Lists, Tracks, Logged, QueuedSet, FreedSoFar, OffersRight, OffersBut, Judged, JustTaken;
      completed', P', E' := completed, P, E;
      var list := runnable;
      while list != []
        invariant Working(s0, View(), a, o, E', P', list) && katom in P' && FreedSoFar(View(), E', P', deferred)
        invariant NoDup(completed') && katom !in completed' && (forall x :: x in P' <==> x in completed' || x == katom)
        invariant jobNr == old(jobNr)
        invariant forall d: Side :: old(head[d][katom]) == [] ==> head[d][katom] == []
        invariant old(offers) <= offers && OffersRight(s0, View(), list, offers[n..])
        decreases |QueuedSet(View())|, |list|
      {
        var node := list[0];
        DrainNode(list, katom, soft, P', s0, a, o, E', deferred, n);
        list := list[1..];
        if status[node] == Completed {
          completed' := completed' + [node];
          P', E' := P' + {node}, E' + {node};
        } else if status[node] == InJs && willFail[node] == 0 {
          ghost var u, rest := View(), list;
          list := TrySubmittingDeps(list, node, P', s0, a, o, E');
          FreedResolve(u, View(), E', P', deferred);
          WorkingOffersTry(s0, u, a, o, E', P', node, rest, View(), list, offers[n..]);
        }
      }
      assert katom in P';
    }

    /** Counts katom off and posts its event. No other atom may still be on one of its lists,
        nor katom on a list of others: the event lists reuse the node of its link 0. */
    method Post(katom: Id, deferred: bool)
      requires Shape(View()) && HeadsMatch(View())
      requires forall d: Side :: head[d][katom] == []
      requires forall d: Side, c: Id :: katom !in head[d][c]
      modifies this`jobNr, this`log, this`status
      ensures View() == Finalise(old(View()), katom, deferred) && jobNr == old(jobNr) - 1
    {
      log := log + [age[katom]];
      if !deferred && (req[katom].report == Never || (req[katom].report == OnFailure && code[katom] == DONE))
         && !req[katom].extRes {
        status := status[katom := Unused];
      }
      jobNr := jobNr - 1;
    }

    method Begin(katom: Id)
      requires Completable(View(), katom)
      modifies this
      ensures View() == Start(old(View()), katom) && Core(View(), {katom}, []) && status[katom] == Completed
      ensures offers == old(offers)
    {
      hide Graph, Count, Ages, ListsBut, Core;
      StartKeepsCore(View(), katom);
      UnlinkShape(View(), 0, katom);
      UnlinkShape(Unlink(View(), 0, katom), 1, katom);
      UnlinkDep(0, katom);
      UnlinkDep(1, katom);
      started := started - {katom};
      status := status[katom := Completed];
    }

    /** One turn of the outer loop of jd_done_nolock: the dependents of k are resolved, the atoms that
        have become runnable are run, and k is posted. */
    method CompleteOne(k: Id, rest: seq<Id>, soft: seq<SoftStep>, deferred: bool,
                       ghost P: set<Id>, ghost s0: Jd, ghost a: Id, ghost o: seq<Verdict>, ghost E: set<Id>, ghost n: nat)
      returns (completed: seq<Id>, ghost P': set<Id>, ghost E': set<Id>)
      requires Working(s0, View(), a, o, E, P, []) && k in P && StepsOk(soft) && Judged(s0, a, soft, o)
      requires NoDup(rest) && k !in rest && forall x :: x in P <==> x in rest || x == k
      requires FreedSoFar(View(), E, P, deferred) && n <= |offers| && OffersRight(s0, View(), [], offers[n..])
      modifies this
      ensures Working(s0, View(), a, o, E', P', []) && FreedSoFar(View(), E', P', deferred)
      ensures NoDup(completed) && forall x :: x in P' <==> x in completed
      ensures old(offers) <= offers && OffersRight(s0, View(), [], offers[n..])
      ensures jobNr == old(jobNr) - 1
    {
      hide Graph, Count, Ages, Lists, Tracks, Logged, Finalise, Judged, StepsOk, FreedSoFar, OffersRight;
      ghost var s := View();
      var runnable := ResolveDep([], k, 0, P, s0, a, o, E, offers[n..]);
      runnable := ResolveDep(runnable, k, 1, P, s0, a, o, E, offers[n..]);
      FreedResolve(s, View(), E, P, deferred);
      completed, P', E' := DrainRunnable(runnable, rest, k, soft, P, s0, a, o, E, deferred, n);
      WorkingPost(s0, View(), a, o, E', P', k, deferred, offers[n..]);
      Post(k, deferred);
      P' := P' - {k};
    }

    /** jd_done_nolock: katom has finished, and with it whatever waits for it only.
        `deferred` says that the caller collects the completed atoms to post them later. */
    method Done(katom: Id, soft: seq<SoftStep>, deferred: bool)
      requires Completable(View(), katom) && StepsOk(soft)
      modifies this
      ensures Completion(old(View()), View(), katom, soft)
      ensures Aftermath(old(View()), View(), katom, soft, deferred)
      ensures old(offers) <= offers && Offered(old(View()), View(), katom, offers[|old(offers)|..])
    {
      hide Completable, Completion, Aftermath, Freed, Offered, LeftAlone, FreedSoFar, Start, Graph, Count, Ages, Lists, Tracks, Logged, Judged, StepsOk,
        OffersRight;
      ghost var before, n := View(), |offers|;
      Begin(katom);
      ghost var s0 := View();
      ghost var o, E, P := StartWorking(s0, katom, soft);
      FreedStart(s0, katom, deferred);
      OffersStart(s0);
      assert offers[n..] == [];
      var completed := [katom];
      while completed != []
        invariant Working(s0, View(), katom, o, E, P, []) && FreedSoFar(View(), E, P, deferred)
        invariant NoDup(completed) && forall x :: x in P <==> x in completed
        invariant old(offers) <= offers && OffersRight(s0, View(), [], offers[n..])
        decreases jobNr
      {
        var k := completed[|completed| - 1];
        JobCounted(s0, View(), katom, o, E, P, k);
        completed, P, E := CompleteOne(k, completed[..|completed| - 1], soft, deferred, P, s0, katom, o, E, n);
      }
      assert P == {};
      WorkingEnd(before, View(), katom, soft, E);
      FreedEnd(before, View(), katom, soft, E, deferred);
      OfferedFrom(before, View(), katom, offers[n..]);
      LeavesAlone(before, View(), katom, soft, offers[n..]);
      Afterwards(before, View(), katom, soft, deferred);
    }

    // ------------------------------------------------------ entry points

    constructor ()
      ensures Valid() && View() == Initial() && offers == []
    {
      status, code, willFail := seq(ATOM_COUNT, i => Unused), seq(ATOM_COUNT, i => JOB_INVALID), seq(ATOM_COUNT, i => 0);
      req := seq(ATOM_COUNT, i => Req(DepOnly, Always, false));
      inJdList, fenced := seq(ATOM_COUNT, i => false), seq(ATOM_COUNT, i => false);
      dep := seq(2, d => seq(ATOM_COUNT, i => NoLink));
      head := seq(2, d => seq(ATOM_COUNT, i => []));
      age, nextAge, jobNr, dying, started := seq(ATOM_COUNT, i => 0), 0, 0, false, {};
      cancelling, log, offers := {}, [], [];
      new;
      InitialInv();
    }

    /** An atom that the scheduler or a soft-job event reports as finished with this code. */
    method CompleteJob(katom: Id, eventCode: nat, soft: seq<SoftStep>, deferred: bool)
      requires Valid() && StepsOk(soft) && eventCode != NOT_STARTED
      requires status[katom] == InJs || status[katom] == HwCompleted || katom in started
      requires katom !in cancelling
      modifies this
      ensures Valid() && H.Follows(old(View()), H.CompleteJob(katom, eventCode, soft, deferred), View())
      ensures old(offers) <= offers
              && Offered(old(View()).(code := old(code)[katom := eventCode]), View(), katom, offers[|old(offers)|..])
    {
      hide Graph, Count, Ages, Lists, ListsBut, Completion, Aftermath;
      ghost var s := View();
      InvFacts(s, katom);
      LiveCompletable(s, katom, eventCode);
      assert s.fenced[katom := false] == s.fenced && s.cancelling - {katom} == s.cancelling;
      code := code[katom := eventCode];
      ghost var q := View();
      Done(katom, soft, deferred);
      CompletionKeepsInv(q, View(), katom, soft);
    }

    /** kbase_jd_dep_clear_locked: katom, whose fences have signalled, is run if it may run, and
        else waits for its links. */
    method DepClear(katom: Id, soft: seq<SoftStep>, scheduledOut: bool)
      requires StepsOk(soft) && Completable(View(), katom) && PinnedBut(View(), katom)
      requires status[katom] == Queued && !fenced[katom] && katom !in started && katom !in cancelling
      requires code[katom] == DONE <==> willFail[katom] == 0
      modifies this
      ensures Valid() && Cleared(old(View()), View(), katom, soft, scheduledOut)
      ensures old(req[katom]).kind == Gpu ==> offers == old(offers) + [katom]
    {
      hide Graph, Count, Ages, Lists, ListsBut, Completion, Aftermath, Kill;
      ghost var q := View();
      if req[katom].kind == Gpu || (dep[0][katom].NoLink? && dep[1][katom].NoLink?) {
        RunAtom(katom, soft, scheduledOut);
        RanSettles(q, katom, soft[katom], status[katom] == InJs);
        if status[katom] == Completed {
          ghost var r := View();
          Done(katom, soft, false);
          CompletionKeepsInv(r, View(), katom, soft);
        } else {
          ClearedInv(q, View(), katom, soft[katom], scheduledOut);
        }
      } else {
        QueuedSettles(q, katom);
      }
    }

    /** kbase_dma_fence_work, once the last fence of katom has signalled. An atom that is over
        although its fence was pending is completed again. */
    method FenceWork(katom: Id, soft: seq<SoftStep>, scheduledOut: bool)
      requires StepsOk(soft) && (Valid() || (OverPinned(View(), katom) && status[katom] == Completed)) && fenced[katom]
      modifies this
      ensures old(Valid()) ==> Valid()
      ensures var q := old(View()).(fenced := old(fenced)[katom := false]);
              if q.status[katom] == Completed then View() == DoneAgain(q, katom)
              else Cleared(q, View(), katom, soft, scheduledOut)
      ensures old(Valid()) ==> H.Follows(old(View()), H.FenceWork(katom, soft, scheduledOut), View())
    {
      hide Graph, Count, Ages, Lists, ListsBut, Completion, Aftermath, Cleared;
      ghost var s := View();
      fenced := fenced[katom := false];
      if status[katom] == Completed {
        CompletedFence(s, katom);
        Again(katom);
      } else {
        FenceCleared(s, katom);
        DepClear(katom, soft, scheduledOut);
      }
    }

    /** kbase_dma_fence_cancel_atom. An atom that is over already is left alone. */
    method FenceCancel(katom: Id, soft: seq<SoftStep>)
      requires StepsOk(soft) && (Valid() || (OverPinned(View(), katom) && katom !in cancelling)) && fenced[katom]
      modifies this
      ensures Valid()
      ensures var q := old(View()).(fenced := old(fenced)[katom := false]);
              if old(status)[katom] == Queued
              then Finalised(q.(code := q.code[katom := 0x4002]), View(), katom, soft)
              else View() == q
      ensures old(Valid()) ==> H.Follows(old(View()), H.FenceCancel(katom, soft), View())
    {
      hide Graph, Count, Ages, Lists, ListsBut, Completion, Aftermath;
      ghost var s := View();
      fenced := fenced[katom := false];
      if status[katom] == Queued {
        LiveCompletable(s, katom, JOB_CANCELLED);
        InvFacts(s, katom);
        assert s.cancelling - {katom} == s.cancelling;
        code := code[katom := JOB_CANCELLED];
        ghost var q := View();
        Done(katom, soft, false);
        CompletionKeepsInv(q, View(), katom, soft);
      } else {
        CompletedFence(s, katom);
      }
    }

    /** kbase_jd_cancel, on an atom of a context that is being torn down. */
    method CancelJob(katom: Id)
      requires Valid() && dying && status[katom] == InJs && katom !in cancelling
      modifies this`code, this`cancelling
      ensures Valid() && View() == Kill(old(View()), katom)
      ensures code == old(code)[katom := 0x4002] && cancelling == old(cancelling) + {katom}
    {
      KillKeepsInv(View(), katom);
      code := code[katom := JOB_CANCELLED];
      cancelling := cancelling + {katom};
    }

    /** jd_cancel_worker. An atom that is over already is completed again. */
    method CancelWorker(katom: Id, soft: seq<SoftStep>)
      requires StepsOk(soft) && (Valid() || (OverPinned(View(), katom) && !fenced[katom])) && katom in cancelling
      modifies this
      ensures old(Valid()) ==> Valid()
      ensures var q := old(View()).(cancelling := old(cancelling) - {katom});
              if Live(old(status)[katom]) then Finalised(q, View(), katom, soft) else View() == DoneAgain(q, katom)
    {
      hide Graph, Count, Ages, Lists, ListsBut, Completion, Aftermath;
      ghost var s := View();
      cancelling := cancelling - {katom};
      ghost var q := View();
      if Live(status[katom]) {
        InvFacts(s, katom);
        LiveCompletable(s, katom, code[katom]);
        assert s.code[katom := s.code[katom]] == s.code && s.fenced[katom := false] == s.fenced;
        Done(katom, soft, false);
        CompletionKeepsInv(q, View(), katom, soft);
      } else {
        CancelledFrame(s, katom);
        Again(katom);
      }
    }

    /** jd_done_nolock on an atom that is over: nothing is linked to it, so that its loops
        have nothing to do, and it is counted off and posted once more. */
    method Again(katom: Id)
      requires Core(View(), {}, []) && !Live(status[katom])
      modifies this
      ensures View() == DoneAgain(old(View()), katom)
    {
      OverDetached(View(), katom);
      status := status[katom := Completed];
      Post(katom, false);
    }

    /** The context is being torn down. */
    method SetDying()
      requires Valid()
      modifies this`dying
      ensures Valid() && dying
    {
      DyingKeepsInv(View());
      dying := true;
    }

    /** kbase_js_complete_atom: the hardware is done with katom; a failure marked before wins. */
    method HwComplete(katom: Id, eventCode: nat)
      requires Valid() && status[katom] == InJs && katom !in cancelling && eventCode != NOT_STARTED
      modifies this`status, this`code
      ensures Valid() && H.Follows(old(View()), H.HwComplete(katom, eventCode), View())
      ensures status == old(status)[katom := HwCompleted]
      ensures code == old(code)[katom := if willFail[katom] != 0 then willFail[katom] else eventCode]
    {
      var c := if willFail[katom] != 0 then willFail[katom] else eventCode;
      OtherStatusKeepsInv(View(), katom, HwCompleted, c);
      code := code[katom := c];
      status := status[katom := HwCompleted];
    }

    /** kbase_event_process: user space has taken the event of katom, and its number is free. */
    method Release(katom: Id)
      requires Valid() && status[katom] == Completed
      modifies this`status
      ensures Valid() && H.Follows(old(View()), H.Release(katom), View())
      ensures status == old(status)[katom := Unused]
    {
      InvFacts(View(), katom);
      OtherStatusKeepsInv(View(), katom, Unused, code[katom]);
      assert code[katom := code[katom]] == code;
      status := status[katom := Unused];
    }

    /** The scheduler marks an atom it holds to fail. */
    method MarkToFail(katom: Id, eventCode: nat)
      requires Valid() && status[katom] == InJs
      modifies this`willFail
      ensures Valid() && H.Follows(old(View()), H.MarkToFail(katom, eventCode), View())
      ensures willFail == old(willFail)[katom := eventCode]
    {
      ghost var s := View();
      willFail := willFail[katom := eventCode];
      LiveStays(s, View());
    }

    // ------------------------------------------------------------ submission

    /** One turn of the loop of jd_submit_atom that links the atom to its predecessors. */
    method AddDependency(katom: Id, i: Side, p: PreDep) returns (fails: bool, queued: bool)
      requires Shape(View())
      modifies this`code, this`status, this`dep, this`head
      ensures Shape(View()) && View() == AddDep(old(View()), katom, i, p)
      ensures fails == EarlyTaint(old(View()), p) && queued == WillLink(old(View()), p)
    {
      AddDepShape(View(), katom, i, p);
      fails, queued := false, false;
      if p.id != 0 {
        if status[p.id] == Unused || status[p.id] == Completed {
          if code[p.id] != DONE && !(p.typ == DEP_TYPE_ORDER && code[p.id] > ACTIVE) {
            code := code[katom := code[p.id]];
            status := status[katom := Queued];
            fails := true;
          }
        } else {
          head := head[i := head[i][p.id := head[i][p.id] + [katom]]];
          dep := dep[i := dep[i][katom := ToLink(p)]];
          queued := true;
        }
      }
    }

    /** The loop of jd_submit_atom that links the atom to its predecessors. */
    method AddDependencies(katom: Id, u: UserAtom) returns (fails: bool, queued: bool)
      requires Shape(View())
      modifies this`code, this`status, this`dep, this`head
      ensures var s0 := old(View());
        && Shape(AddDep(s0, katom, 0, u.pre0))
        && var s1 := AddDep(s0, katom, 0, u.pre0);
           && View() == AddDep(s1, katom, 1, u.pre1)
           && fails == (EarlyTaint(s0, u.pre0) || EarlyTaint(s1, u.pre1))
           && queued == (WillLink(s0, u.pre0) || WillLink(s1, u.pre1))
    {
      hide AddDep, EarlyTaint, WillLink, Shape;
      ghost var s0 := View();
      AddDepShape(s0, katom, 0, u.pre0);
      ghost var s1 := AddDep(s0, katom, 0, u.pre0);
      fails, queued := false, false;
      for i := 0 to 2
        invariant Shape(View())
        invariant View() == if i == 0 then s0 else if i == 1 then s1 else AddDep(s1, katom, 1, u.pre1)
        invariant fails == ((i >= 1 && EarlyTaint(s0, u.pre0)) || (i == 2 && EarlyTaint(s1, u.pre1)))
        invariant queued == ((i >= 1 && WillLink(s0, u.pre0)) || (i == 2 && WillLink(s1, u.pre1)))
      {
        var f, q := AddDependency(katom, i, u.Pre(i));
        fails, queued := fails || f, queued || q;
      }
    }

    /** The atom is handed on: to its soft-job step, to the scheduler, or straight to completion. */
    method HandOn(katom: Id, ans: Answers, soft: seq<SoftStep>)
      requires StepsOk(soft) && Completable(View(), katom) && PinnedBut(View(), katom)
      requires status[katom] == Queued && !fenced[katom] && katom !in started && katom !in cancelling
      requires code[katom] == DONE && willFail[katom] == 0
      requires req[katom].kind != Gpu ==> Unlinked(View(), katom)
      modifies this
      ensures Valid() <==> !(old(req[katom].kind == Gpu && (ans.accepts || Unlinked(View(), katom)))
                                 && old(dying) && ans.scheduledOut)
      ensures HandedOn(old(View()), View(), katom, ans, soft)
    {
      hide Graph, Count, Ages, Lists, ListsBut, Completion, Aftermath;
      ghost var q := View();
      match req[katom].kind
      case DepOnly =>
        Done(katom, soft, false);
        CompletionKeepsInv(q, View(), katom, soft);
      case Soft =>
        code := code[katom := soft[katom].code];
        if soft[katom].finished {
          Recoded(q, katom, soft[katom].code);
          Done(katom, soft, false);
          CompletionKeepsInv(q.(code := q.code[katom := soft[katom].code]), View(), katom, soft);
        } else {
          RanWaits(q, katom, soft[katom].code);
          started := started + {katom};
        }
      case Gpu =>
        HandOver(katom, ans, soft);
    }

    /** The last part of HandOn, for a GPU atom. */
    method HandOver(katom: Id, ans: Answers, soft: seq<SoftStep>)
      requires StepsOk(soft) && Completable(View(), katom) && PinnedBut(View(), katom)
      requires status[katom] == Queued && !fenced[katom] && katom !in started && katom !in cancelling
      requires code[katom] == DONE && willFail[katom] == 0 && req[katom].kind == Gpu
      modifies this
      ensures Valid() <==> !(old(ans.accepts || Unlinked(View(), katom)) && old(dying) && ans.scheduledOut)
      ensures old(offers) + [katom] <= offers
      ensures HandedOn(old(View()), View(), katom, ans, soft)
    {
      hide Graph, Count, Ages, Lists, ListsBut, Completion, Aftermath, Completable, Pinned, PinnedBut;
      ghost var q := View();
      CompletableShape(q, katom);
      status := status[katom := InJs];
      AddJob(katom, ans.accepts, ans.scheduledOut);
      if status[katom] == InJs {
        ghost var r := UnlinkBoth(SetStatus(q, katom, InJs), katom);
        RanAccepted(q, katom);
        AcceptedInv(q, r, katom);
        if code[katom] == JOB_CANCELLED {
          KilledCompletable(r, katom);
          Done(katom, soft, false);
          PinnedEndBreaks(Kill(r, katom), View(), katom, soft);
        }
      } else {
        assert View() == q;
        RanDeclined(q, katom);
        DeclinedInv(q, katom);
      }
    }

    /** An atom that does not pass the checks is finalised with JOB_INVALID. */
    method Refuse(katom: Id, u: UserAtom, soft: seq<SoftStep>, ghost pending: bool, ghost s: Jd)
      requires Inv(s) && StepsOk(soft) && s.status[katom] == Unused && TypeOk(u.pre0) && TypeOk(u.pre1)
      requires !SelfLink(s, katom, u) && View() == QueueWithFence(s, katom, u, DONE, pending)
      modifies this
      ensures Valid() <==> !pending
      ensures RefusedFrom(s, View(), katom, u, soft, pending)
    {
      hide Graph, Count, Ages, Lists, ListsBut, Completion, Aftermath, Completable, EarlyTaint, AddDeps;
      QueueShape(s, katom, u);
      QueueCompletable(s, katom, u, JOB_INVALID);
      QueueFacts(s, katom, u, JOB_INVALID);
      WithFenceCompletable(Queue(s, katom, u, JOB_INVALID), katom, pending);
      code := code[katom := JOB_INVALID];
      ghost var q := View();
      assert q.code == AddDeps(s, katom, u).code[katom := JOB_INVALID];
      Done(katom, soft, false);
      if pending {
        PinnedEndBreaks(q, View(), katom, soft);
      } else {
        CompletionKeepsInv(q, View(), katom, soft);
      }
    }

    /** The second half of jd_submit_atom: the atom is checked, and waits or is handed on. */
    method Dispatch(katom: Id, u: UserAtom, ans: Answers, soft: seq<SoftStep>, queued: bool, ghost s: Jd)
      requires Inv(s) && StepsOk(soft) && s.status[katom] == Unused && TypeOk(u.pre0) && TypeOk(u.pre1)
      requires !SelfLink(s, katom, u) && !Tainted(s, katom, u) && queued == Links(s, u)
      requires View() == Queue(s, katom, u, DONE)
      modifies this
      ensures Valid() <==> !FencedRefusal(s, katom, u, ans) && !KilledOnEntry(s, katom, u, ans)
      ensures Submitted(s, View(), katom, u, ans, soft)
    {
      hide Graph, Count, Ages, Lists, ListsBut, Completion, Aftermath, Completable, EarlyTaint, AddDeps;
      QueueShape(s, katom, u);
      QueueCompletable(s, katom, u, DONE);
      QueueFacts(s, katom, u, DONE);
      if Malformed(u, ans) {
        Unfenced(s, katom, u);
        Refuse(katom, u, soft, false, s);
        return;
      }
      fenced := fenced[katom := FencePending(u, ans)];
      if !PassesValidation(u, ans) {
        Refuse(katom, u, soft, FencePending(u, ans), s);
        return;
      }
      WithFenceCompletable(Queue(s, katom, u, DONE), katom, FencePending(u, ans));
      if (queued && req[katom].kind != Gpu) || fenced[katom] {
        QueuedSettles(View(), katom);
        return;
      }
      assert View() == Queue(s, katom, u, DONE);
      HandOn(katom, ans, soft);
    }

    /** jd_submit_atom for an atom that a predecessor has already failed. */
    method PropagateFailure(katom: Id, u: UserAtom, ans: Answers, soft: seq<SoftStep>, queued: bool, ghost s: Jd)
      requires Inv(s) && StepsOk(soft) && s.status[katom] == Unused && TypeOk(u.pre0) && TypeOk(u.pre1)
      requires SelfLink(s, katom, u) || Tainted(s, katom, u)
      requires queued == (SelfLink(s, katom, u) || Links(s, u))
      requires View() == AddDeps(s, katom, u)
      modifies this
      ensures Valid() <==> !SelfLink(s, katom, u)
      ensures Submitted(s, View(), katom, u, ans, soft)
    {
      hide Graph, Count, Ages, Lists, ListsBut, Completion, Aftermath, Completable, EarlyTaint, AddDeps;
      QueueShape(s, katom, u);
      LoopFlags(s, katom, u);
      if !queued {
        QueueFacts(s, katom, u, PassedOn(s, katom, u));
        QueueCompletable(s, katom, u, PassedOn(s, katom, u));
        ghost var q := View();
        Done(katom, soft, false);
        CompletionKeepsInv(q, View(), katom, soft);
      } else {
        willFail := willFail[katom := code[katom]];
        FailsLaterInv(s, katom, u, View());
      }
    }

    /** The first lines of jd_submit_atom. */
    method CountIn(katom: Id, r: Req)
      requires Shape(View())
      modifies this`jobNr, this`req, this`willFail, this`age, this`nextAge, this`fenced
      ensures View() == Enter(old(View()), katom, r)
    {
      assert |req| == |willFail| == |age| == |fenced| == ATOM_COUNT;
      hide Shape;
      jobNr, req, willFail := jobNr + 1, req[katom := r], willFail[katom := 0];
      age, nextAge, fenced := age[katom := nextAge], nextAge + 1, fenced[katom := false];
    }

    /** An atom that names a predecessor with an unknown dependency type is finalised. */
    method BadDependencies(katom: Id, u: UserAtom, ans: Answers, soft: seq<SoftStep>, ghost s: Jd)
      requires Inv(s) && StepsOk(soft) && s.status[katom] == Unused && View() == Enter(s, katom, ReqOf(u.coreReq))
      requires !TypeOk(u.pre0) || !TypeOk(u.pre1)
      modifies this
      ensures Valid() && !SelfLink(s, katom, u) && !FencedRefusal(s, katom, u, ans) && !KilledOnEntry(s, katom, u, ans)
      ensures Submitted(s, View(), katom, u, ans, soft)
    {
      hide Graph, Count, Ages, Lists, ListsBut, Completion, Aftermath, Completable, Pinned, PinnedBut, EarlyTaint, AddDep,
        FencedRefusal, KilledOnEntry, FateOf;
      BadEntryCompletable(s, katom, u);
      code := code[katom := JOB_CONFIG_FAULT];
      status := status[katom := Completed];
      ghost var q := View();
      Done(katom, soft, false);
      BadEntryFences(s, katom, u);
      EarlyFate(s, katom, u, ans);
      CompletionKeepsInv(q, View(), katom, soft);
    }

    /** The atom is linked to its predecessors, and then fails with them or is dispatched. */
    method Link(katom: Id, u: UserAtom, ans: Answers, soft: seq<SoftStep>, ghost s: Jd)
      requires Inv(s) && StepsOk(soft) && s.status[katom] == Unused && View() == Enter(s, katom, ReqOf(u.coreReq))
      requires TypeOk(u.pre0) && TypeOk(u.pre1)
      modifies this
      ensures Valid() <==> !SelfLink(s, katom, u) && !FencedRefusal(s, katom, u, ans) && !KilledOnEntry(s, katom, u, ans)
      ensures Submitted(s, View(), katom, u, ans, soft)
    {
      hide Graph, Count, Ages, Lists, ListsBut, Completion, Aftermath, Completable, Pinned, PinnedBut, EarlyTaint, AddDep,
        FencedRefusal, KilledOnEntry, FateOf, Submitted;
      QueueShape(s, katom, u);
      var fails, queued := AddDependencies(katom, u);
      LoopFlags(s, katom, u);
      if fails {
        EarlyFate(s, katom, u, ans);
        PropagateFailure(katom, u, ans, soft, queued, s);
      } else {
        code := code[katom := DONE];
        status := status[katom := Queued];
        Dispatch(katom, u, ans, soft, queued, s);
      }
    }

    /** jd_submit_atom. It keeps the invariant, except in three cases: an atom that names itself
        as second predecessor after its first one has failed it, an atom that waits for a fence
        but does not pass validation, and an atom that the scheduler takes while the context is
        being torn down and scheduled out. */
    method Submit(katom: Id, u: UserAtom, ans: Answers, soft: seq<SoftStep>)
      requires Valid() && StepsOk(soft) && status[katom] == Unused
      requires u.coreReq & REQ_SOFT_JOB_TYPE != REQ_SOFT_REPLAY
      modifies this
      ensures Valid() <==> !SelfLink(old(View()), katom, u)
                           && !FencedRefusal(old(View()), katom, u, ans) && !KilledOnEntry(old(View()), katom, u, ans)
      ensures Valid() <==> !Breaks(old(View()), katom, u, ans)
      ensures Submitted(old(View()), View(), katom, u, ans, soft)
      ensures Shape(View()) && Entered(old(View()), View(), katom, u, ans, soft)
      ensures !LinksToItself(old(View()), katom, u) ==> OnlyTouches(old(View()), View(), katom)
      ensures Valid() ==> H.Follows(old(View()), H.Submit(katom, u, ans, soft), View())
    {
      hide Inv, Completion, Aftermath, Completable, EarlyTaint, AddDep, AddDeps, FencedRefusal, KilledOnEntry, FateOf, Submitted,
        H.Follows, SelfLink, Breaks, Entered, OnlyTouches, LinksToItself;
      ghost var s := View();
      InvShape(s);
      CountIn(katom, ReqOf(u.coreReq));
      if !TypeOk(u.pre0) || !TypeOk(u.pre1) {
        BadDependencies(katom, u, ans, soft, s);
      } else {
        Link(katom, u, ans, soft, s);
      }
      SubmissionEnds(s, View(), katom, u, ans, soft);
      BreaksIff(s, katom, u, ans);
      FateIs(s, katom, u, ans);
      if Inv(View()) {
        H.SubmitFollows(s, katom, u, ans, soft, View());
      }
    }
  }
}
