/** The history of a context, kept by submission number: what each atom named as its
    predecessors and how it ended. Over every run of a context that is not being torn down, an
    atom fails exactly when failure reaches it, and it does not matter when it was submitted. */
module JdHistory {
  import opened Sequences
  import opened JdState
  import opened JdSteps
  import opened JdOutcome
  import opened JdOffers
  import opened JdSettle
  import opened JdSubmit

  /** A predecessor as the submission found it: over already, with this code (`pred` is -1 if its
      number had never been used), or unfinished. */
  datatype Named = NoPred | Early(pred: int, code: nat, typ: DepType) | Late(pred: int, typ: DepType)

  datatype End = Open | Ended(code: nat)

  /** One submission; `own` says that it failed for a reason of its own: it was refused, its fence
      was cancelled, or its soft-job step, which ran, or the hardware has left a failure code. */
  datatype Entry = Entry(kind: Kind, pre0: Named, pre1: Named, own: bool, end: End) {
    function Pre(d: Side): Named {
      if d == 0 then pre0 else pre1
    }
  }

  /** All submissions, and the atom numbers that were ever used. */
  datatype Hist = Hist(entries: seq<Entry>, used: set<Id>)

  // ------------------------------------------------------------- the steps

  /** What can happen to a context that is not being torn down. */
  datatype Op =
    | Submit(a: Id, u: UserAtom, ans: Answers, soft: seq<SoftStep>)
    | CompleteJob(a: Id, code: nat, soft: seq<SoftStep>, deferred: bool)
    | FenceWork(a: Id, soft: seq<SoftStep>, scheduledOut: bool)
    | FenceCancel(a: Id, soft: seq<SoftStep>)
    | HwComplete(a: Id, code: nat)
    | MarkToFail(a: Id, code: nat)
    | Release(a: Id)

  /** What each operation demands of its caller. */
  ghost predicate Allowed(s: Jd, op: Op) {
    && Inv(s)
    && match op
       case Submit(a, u, ans, soft) =>
         && StepsOk(soft) && s.status[a] == Unused
         && !SelfLink(s, a, u) && !FencedRefusal(s, a, u, ans) && !KilledOnEntry(s, a, u, ans)
       case CompleteJob(a, code, soft, _) =>
         && StepsOk(soft) && code != NOT_STARTED && a !in s.cancelling
         && (s.status[a] == InJs || s.status[a] == HwCompleted || a in s.started)
       case FenceWork(a, soft, _) => StepsOk(soft) && s.fenced[a]
       case FenceCancel(a, soft) => StepsOk(soft) && s.fenced[a]
       case HwComplete(a, code) => s.status[a] == InJs && a !in s.cancelling && code != NOT_STARTED
       case MarkToFail(a, _) => s.status[a] == InJs
       case Release(a) => s.status[a] == Completed
  }

  /** What the operations of the dispatcher promise. */
  ghost predicate Follows(s: Jd, op: Op, t: Jd) {
    && Allowed(s, op) && Inv(t)
    && match op
       case Submit(a, u, ans, soft) => Submitted(s, t, a, u, ans, soft)
       case CompleteJob(a, code, soft, deferred) =>
         var q := s.(code := s.code[a := code]);
         Completes(q, t, a, soft) && Aftermath(q, t, a, soft, deferred)
       case FenceWork(a, soft, scheduledOut) => Cleared(s.(fenced := s.fenced[a := false]), t, a, soft, scheduledOut)
       case FenceCancel(a, soft) =>
         Finalised(s.(code := s.code[a := JOB_CANCELLED], fenced := s.fenced[a := false]), t, a, soft)
       case HwComplete(a, code) =>
         t == s.(status := s.status[a := HwCompleted], code := s.code[a := if s.willFail[a] != 0 then s.willFail[a] else code])
       case MarkToFail(a, code) => t == s.(willFail := s.willFail[a := code])
       case Release(a) => t == s.(status := s.status[a := Unused])
  }

  lemma SubmitFollows(s: Jd, a: Id, u: UserAtom, ans: Answers, soft: seq<SoftStep>, t: Jd)
    requires Inv(s) && StepsOk(soft) && s.status[a] == Unused && Submitted(s, t, a, u, ans, soft) && Inv(t)
    requires !SelfLink(s, a, u) && !FencedRefusal(s, a, u, ans) && !KilledOnEntry(s, a, u, ans)
    ensures Follows(s, Submit(a, u, ans, soft), t)
  {
  }

  // --------------------------------------------------------- the recording

  function Name(s: Jd, h: Hist, p: PreDep): Named
    requires Shape(s)
  {
    var typ := if p.typ == DEP_TYPE_ORDER then Order else Data;
    if p.id == 0 then NoPred
    else if Over(s.status[p.id]) then Early(if p.id in h.used then s.age[p.id] else -1, s.code[p.id], typ)
    else Late(s.age[p.id], typ)
  }

  function Append(h: Hist, s: Jd, a: Id, u: UserAtom): Hist
    requires Shape(s)
  {
    Hist(h.entries + [Entry(ReqOf(u.coreReq).kind, Name(s, h, u.pre0), Name(s, h, u.pre1), false, Open)], h.used + {a})
  }

  /** The atom that submission g ended as in state t. */
  ghost predicate EndedAs(h: Hist, t: Jd, g: nat, b: Id)
    requires Shape(t)
  {
    b in h.used && t.age[b] == g && !Live(t.status[b])
  }

  ghost function CloseEntry(h: Hist, t: Jd, own: set<Id>, g: nat): Entry
    requires Shape(t) && g < |h.entries|
  {
    if h.entries[g].end.Open? && exists b: Id :: EndedAs(h, t, g, b) then
      var b: Id :| EndedAs(h, t, g, b);
      h.entries[g].(end := Ended(t.code[b]), own := b in own)
    else h.entries[g]
  }

  /** The open submissions that are over in state t are closed with their codes. */
  ghost function Close(h: Hist, t: Jd, own: set<Id>): (r: Hist)
    requires Shape(t)
    ensures |r.entries| == |h.entries| && r.used == h.used
    ensures forall g :: 0 <= g < |h.entries| ==> r.entries[g] == CloseEntry(h, t, own, g)
  {
    Hist(seq(|h.entries|, (g: int) requires 0 <= g < |h.entries| => CloseEntry(h, t, own, g)), h.used)
  }

  /** Failure comes over this link: the predecessor has failed, and the link is DATA, or the
      predecessor was over at the submission with a code up to ACTIVE. */
  predicate Failing(h: Hist, n: Named) {
    match n
    case NoPred => false
    case Early(_, code, typ) => code != DONE && !(typ == Order && code > ACTIVE)
    case Late(g, typ) => typ != Order && 0 <= g < |h.entries| && h.entries[g].end.Ended? && h.entries[g].end.code != DONE
  }

  predicate Settled(h: Hist, n: Named) {
    n.Late? ==> 0 <= n.pred < |h.entries| && h.entries[n.pred].end.Ended?
  }

  predicate Reached(h: Hist, e: Entry) {
    Failing(h, e.pre0) || Failing(h, e.pre1)
  }

  /** The soft jobs that are processed, if they end in this step, and leave a failure code: no
      failure has come over their links by then. */
  ghost function StepFails(h: Hist, t: Jd, soft: seq<SoftStep>): set<Id>
    requires Shape(t) && StepsOk(soft)
  {
    set b: Id | 0 <= b < ATOM_COUNT && t.req[b].kind == Soft && soft[b].finished && soft[b].code != DONE
                && t.age[b] < |h.entries| && !Reached(Close(h, t, {}), h.entries[t.age[b]])
  }

  /** The atoms that, if they end in this step, end for a reason of their own. */
  ghost function Own(h: Hist, s: Jd, op: Op, t: Jd): set<Id>
    requires Follows(s, op, t)
  {
    match op
    case Submit(a, u, ans, soft) =>
      var fate := FateOf(s, a, u, ans);
      StepFails(h, t, soft) + if fate == BadDependency || fate == Refused || fate == Invalid then {a} else {}
    case CompleteJob(a, code, soft, _) => StepFails(h, t, soft) - {a} + if code != DONE then {a} else {}
    case FenceWork(a, soft, _) => StepFails(h, t, soft)
    case FenceCancel(a, soft) => StepFails(h, t, soft) + {a}
    case _ => {}
  }

  ghost function Record(h: Hist, s: Jd, op: Op, t: Jd): Hist
    requires Follows(s, op, t)
  {
    var k := if op.Submit? then Append(h, s, op.a, op.u) else h;
    Close(k, t, Own(k, s, op, t))
  }

  // ---------------------------------------------------------- the invariant

  predicate AllSettled(h: Hist, e: Entry) {
    Settled(h, e.pre0) && Settled(h, e.pre1)
  }

  /** A name refers to an older submission, and repeats its code if that was over. */
  predicate NameOk(h: Hist, n: Named, g: nat) {
    && (n.Late? ==> 0 <= n.pred < g)
    && (n.Early? ==> if n.pred < 0 then n.code == JOB_INVALID
                     else n.pred < g && g <= |h.entries| && h.entries[n.pred].end == Ended(n.code))
  }

  /** How a submission may end: unless it is a GPU atom it fails exactly for a reason of its own
      or because failure comes over a link, and then all its predecessors are over. */
  predicate EndOk(h: Hist, e: Entry) {
    e.end.Ended? && e.kind != Gpu ==>
      && (e.end.code != DONE <==> e.own || Reached(h, e))
      && (!e.own ==> AllSettled(h, e))
  }

  ghost predicate EntryOk(h: Hist, g: nat)
    requires g < |h.entries|
  {
    var e := h.entries[g];
    && NameOk(h, e.pre0, g) && NameOk(h, e.pre1, g) && EndOk(h, e) && (e.end.Ended? && e.own ==> e.end.code != DONE)
  }

  ghost predicate EntriesOk(h: Hist) {
    forall g :: 0 <= g < |h.entries| ==> EntryOk(h, g)
  }

  /** The entry of an atom number; those in X are being dealt with. */
  ghost predicate SlotOk(s: Jd, h: Hist, X: set<Id>, a: Id)
    requires Shape(s) && |h.entries| == s.nextAge
  {
    if a !in h.used then s.status[a] == Unused && s.code[a] == JOB_INVALID && a !in X
    else
      && s.age[a] < s.nextAge
      && var e := h.entries[s.age[a]];
         if Live(s.status[a]) || a in X
         then e.end.Open? && e.kind == s.req[a].kind && (s.status[a] == InJs || s.status[a] == HwCompleted ==> e.kind == Gpu)
         else e.end == Ended(s.code[a])
  }

  ghost predicate SlotsOk(s: Jd, h: Hist, X: set<Id>)
    requires Shape(s) && |h.entries| == s.nextAge
  {
    && (forall a: Id :: SlotOk(s, h, X, a))
    && (forall a: Id, b: Id :: a in h.used && b in h.used && a != b ==> s.age[a] != s.age[b])
  }

  ghost predicate LinkOk(s: Jd, h: Hist, d: Side, b: Id)
    requires Shape(s) && s.age[b] < |h.entries|
  {
    var n := h.entries[s.age[b]].Pre(d);
    if s.dep[d][b].Link? then n == Late(s.age[s.dep[d][b].atom], s.dep[d][b].typ) else Settled(h, n)
  }

  /** A waiting atom has a link to each unfinished predecessor, and is marked to fail exactly
      when failure has come over a link; a soft job that has been started has met no failure. */
  ghost predicate WaitOk(s: Jd, h: Hist, b: Id)
    requires Shape(s) && s.age[b] < |h.entries|
  {
    && LinkOk(s, h, 0, b) && LinkOk(s, h, 1, b)
    && (if b in s.started then !Reached(h, h.entries[s.age[b]])
        else s.willFail[b] != 0 <==> Reached(h, h.entries[s.age[b]]))
  }

  ghost predicate WaitsOk(s: Jd, h: Hist, X: set<Id>)
    requires Shape(s)
  {
    forall b: Id :: s.status[b] == Queued && b !in X ==> s.age[b] < |h.entries| && WaitOk(s, h, b)
  }

  ghost predicate HistBut(s: Jd, h: Hist, X: set<Id>) {
    Shape(s) && |h.entries| == s.nextAge && EntriesOk(h) && SlotsOk(s, h, X) && WaitsOk(s, h, X)
  }

  /** The history and the tables agree. */
  ghost predicate HistInv(s: Jd, h: Hist) {
    Inv(s) && !s.dying && HistBut(s, h, {})
  }

  // ----------------------------------------------------- closing an entry

  /** From h to k some open entries have been closed, and nothing else has changed. */
  ghost predicate Closes(h: Hist, k: Hist) {
    && |k.entries| == |h.entries| && k.used == h.used
    && forall g :: 0 <= g < |h.entries| ==>
         && k.entries[g].kind == h.entries[g].kind
         && k.entries[g].pre0 == h.entries[g].pre0 && k.entries[g].pre1 == h.entries[g].pre1
         && (h.entries[g].end.Ended? ==> k.entries[g] == h.entries[g])
  }

  lemma CloseCloses(h: Hist, t: Jd, own: set<Id>)
    requires Shape(t)
    ensures Closes(h, Close(h, t, own))
  {
  }

  ghost predicate AgesApart(t: Jd, h: Hist)
    requires Shape(t)
  {
    forall b: Id, c: Id :: b in h.used && c in h.used && b != c ==> t.age[b] != t.age[c]
  }

  /** The entry of an atom is closed exactly when the atom is over. */
  lemma CloseSlot(h: Hist, t: Jd, own: set<Id>, b: Id)
    requires Shape(t) && AgesApart(t, h) && b in h.used && t.age[b] < |h.entries|
    ensures var e := h.entries[t.age[b]];
            Close(h, t, own).entries[t.age[b]] ==
              if e.end.Open? && !Live(t.status[b]) then e.(end := Ended(t.code[b]), own := b in own) else e
  {
    if !Live(t.status[b]) {
      assert EndedAs(h, t, t.age[b], b);
    }
  }

  /** Who fails for a reason of its own does not matter to those that it passes failure on to. */
  lemma SameEnds(h: Hist, t: Jd, own: set<Id>, e: Entry)
    requires Shape(t)
    ensures Reached(Close(h, t, own), e) == Reached(Close(h, t, {}), e)
  {
    forall g | 0 <= g < |h.entries|
      ensures Close(h, t, own).entries[g].end == Close(h, t, {}).entries[g].end
    {
    }
  }

  lemma SettledStays(h: Hist, k: Hist, n: Named)
    requires Closes(h, k) && Settled(h, n)
    ensures Settled(k, n) && Failing(k, n) == Failing(h, n)
  {
  }

  lemma NameStays(h: Hist, k: Hist, n: Named, g: nat)
    requires Closes(h, k) && NameOk(h, n, g)
    ensures NameOk(k, n, g)
  {
  }

  /** An entry that is not closed by this step keeps what is known of it. */
  lemma EntryStays(h: Hist, k: Hist, g: nat)
    requires Closes(h, k) && g < |h.entries| && EntryOk(h, g) && k.entries[g] == h.entries[g]
    ensures EntryOk(k, g)
  {
    var e := h.entries[g];
    NameStays(h, k, e.pre0, g);
    NameStays(h, k, e.pre1, g);
    if e.end.Ended? && !e.own && e.kind != Gpu {
      SettledStays(h, k, e.pre0);
      SettledStays(h, k, e.pre1);
    }
  }

  /** An atom whose predecessors are all over meets no more failures. */
  lemma SettledReached(h: Hist, t: Jd, own: set<Id>, e: Entry)
    requires Shape(t) && AllSettled(h, e)
    ensures Reached(Close(h, t, own), e) == Reached(h, e)
  {
    CloseCloses(h, t, own);
    SettledStays(h, Close(h, t, own), e.pre0);
    SettledStays(h, Close(h, t, own), e.pre1);
  }

  // ------------------------------------------------------- one completion

  /** Completing a does not look at what the history says of the others. */
  lemma StartHist(q: Jd, h: Hist, a: Id)
    requires Shape(q) && HistBut(q, h, {a})
    ensures Shape(Start(q, a)) && HistBut(Start(q, a), h, {a})
  {
    hide EntriesOk, Reached;
    UnlinkShape(q, 0, a);
    UnlinkShape(Unlink(q, 0, a), 1, a);
    var s := Start(q, a);
    forall b: Id
      ensures SlotOk(s, h, {a}, b)
      ensures s.status[b] == Queued ==> s.age[b] < |h.entries| && WaitOk(s, h, b)
    {
      assert SlotOk(q, h, {a}, b);
      assert b != a && q.status[b] == Queued ==> WaitOk(q, h, b);
    }
  }

  /** A completion as the history sees it: s is the state after the first steps, o the verdict,
      t the state in the end, and k the history in the end. */
  ghost predicate Scene(s: Jd, h: Hist, t: Jd, k: Hist, a: Id, soft: seq<SoftStep>, o: seq<Verdict>, own: set<Id>) {
    && Shape(s) && Shape(t) && HistBut(s, h, {a}) && !s.dying && StepsOk(soft) && Judged(s, a, soft, o)
    && Core(s, {a}, []) && Core(t, {}, []) && Tracks(s, t, a, o, EndSet(o), [])
    && k == Close(h, t, own)
  }

  lemma SceneSlot(s: Jd, h: Hist, t: Jd, k: Hist, a: Id, soft: seq<SoftStep>, o: seq<Verdict>, own: set<Id>, b: Id)
    requires Scene(s, h, t, k, a, soft, o, own)
    ensures |k.entries| == |h.entries| && SlotOk(t, k, {}, b)
  {
    hide EntriesOk, WaitsOk, Graph, Count, Ages, Lists, TaintRight, LinksLost, WaitRight, Judged;
    assert SlotOk(s, h, {a}, b);
    EndsIff(s, a, soft, o, b);
    if b in h.used {
      CloseSlot(h, t, own, b);
    }
  }

  /** The entry of a predecessor is open as long as it is linked to. */
  lemma SceneOpen(s: Jd, h: Hist, t: Jd, k: Hist, a: Id, soft: seq<SoftStep>, o: seq<Verdict>, own: set<Id>, d: Side, b: Id)
    requires Scene(s, h, t, k, a, soft, o, own) && s.dep[d][b].Link?
    ensures var p := s.dep[d][b].atom;
      && s.age[p] < |h.entries| && h.entries[s.age[p]].end.Open?
      && |k.entries| == |h.entries|
      && k.entries[s.age[p]].end == if Live(t.status[p]) then Open else Ended(t.code[p])
  {
    hide EntriesOk, WaitsOk, HeadsMatch, Count, Ages, Lists, Tracks, Judged;
    var p := s.dep[d][b].atom;
    assert SlotOk(s, h, {a}, p);
    CloseSlot(h, t, own, p) by {
      SceneAges(s, h, t, k, a, soft, o, own);
    }
    SceneAges(s, h, t, k, a, soft, o, own);
  }

  lemma SceneAges(s: Jd, h: Hist, t: Jd, k: Hist, a: Id, soft: seq<SoftStep>, o: seq<Verdict>, own: set<Id>)
    requires Scene(s, h, t, k, a, soft, o, own)
    ensures t.age == s.age && AgesApart(t, h)
  {
    hide EntriesOk, WaitsOk, HeadsMatch, Count, Ages, Lists, Judged;
  }

  /** A link that is lost led to an atom that has ended; one that is kept leads to a live one. */
  lemma SceneLost(s: Jd, h: Hist, t: Jd, k: Hist, a: Id, soft: seq<SoftStep>, o: seq<Verdict>, own: set<Id>, d: Side, b: Id)
    requires Scene(s, h, t, k, a, soft, o, own) && t.status[b] == Queued
    ensures t.dep[d][b] == s.dep[d][b] || (t.dep[d][b].NoLink? && s.dep[d][b].Link? && s.dep[d][b].atom in EndSet(o))
    ensures t.dep[d][b].Link? ==> Live(t.status[t.dep[d][b].atom])
    ensures forall p :: p in EndSet(o) ==> !Live(t.status[p]) && o[p] == Ends(t.code[p] == DONE)
  {
    hide EntriesOk, WaitsOk, HeadsMatch, Count, Ages, Lists, Judged;
  }

  /** A link that is kept leads to an open entry; one that is lost, to one that is closed by now. */
  lemma SceneLink(s: Jd, h: Hist, t: Jd, k: Hist, a: Id, soft: seq<SoftStep>, o: seq<Verdict>, own: set<Id>, d: Side, b: Id)
    requires Scene(s, h, t, k, a, soft, o, own) && t.status[b] == Queued && b != a && s.status[b] == Queued
    ensures s.age[b] < |h.entries| && t.age == s.age && |k.entries| == |h.entries| && LinkOk(t, k, d, b)
    ensures var n := h.entries[s.age[b]].Pre(d);
            Failing(k, n) <==> Failing(h, n) || Hit(s, t, o, d, b)
  {
    hide EntriesOk, Core, Tracks, Judged, Reached;
    assert WaitOk(s, h, b);
    CloseCloses(h, t, own);
    SceneAges(s, h, t, k, a, soft, o, own);
    SceneLost(s, h, t, k, a, soft, o, own, d, b);
    var n := h.entries[s.age[b]].Pre(d);
    if s.dep[d][b].Link? {
      SceneOpen(s, h, t, k, a, soft, o, own, d, b);
    } else {
      SettledStays(h, k, n);
    }
  }

  /** A soft job that this completion has started was not doomed. */
  lemma NewlyStarted(s: Jd, h: Hist, t: Jd, k: Hist, a: Id, soft: seq<SoftStep>, o: seq<Verdict>, own: set<Id>, b: Id)
    requires Scene(s, h, t, k, a, soft, o, own) && b != a && b in t.started && t.status[b] == Queued
    ensures s.status[b] == Queued && !Hit(s, t, o, 0, b) && !Hit(s, t, o, 1, b)
    ensures b !in s.started ==> s.willFail[b] == 0
  {
    hide HistBut, HeadsMatch, Count, Ages, Codes, Runnable, TaintRight;
    SceneLost(s, h, t, k, a, soft, o, own, 0, b);
    SceneLost(s, h, t, k, a, soft, o, own, 1, b);
  }

  lemma SceneWait(s: Jd, h: Hist, t: Jd, k: Hist, a: Id, soft: seq<SoftStep>, o: seq<Verdict>, own: set<Id>, b: Id)
    requires Scene(s, h, t, k, a, soft, o, own) && t.status[b] == Queued
    ensures |k.entries| == |h.entries| && t.age[b] < |k.entries| && WaitOk(t, k, b)
  {
    hide EntriesOk, SlotsOk, HeadsMatch, Count, Ages, Judged, LinkOk, Failing, Hit;
    SceneQueued(s, h, t, k, a, soft, o, own, b);
    CloseCloses(h, t, own);
    SceneLink(s, h, t, k, a, soft, o, own, 0, b);
    SceneLink(s, h, t, k, a, soft, o, own, 1, b);
    assert WaitOk(s, h, b);
    if b in t.started {
      NewlyStarted(s, h, t, k, a, soft, o, own, b);
    }
  }

  lemma SceneQueued(s: Jd, h: Hist, t: Jd, k: Hist, a: Id, soft: seq<SoftStep>, o: seq<Verdict>, own: set<Id>, b: Id)
    requires Scene(s, h, t, k, a, soft, o, own) && t.status[b] == Queued
    ensures b != a && s.status[b] == Queued && (b in s.started ==> b in t.started)
  {
    hide HistBut, HeadsMatch, Count, Ages, TaintRight;
  }

  /** An atom that ends has all its predecessors over, and failure comes over its links as the
      verdicts on them say. */
  lemma SceneEndLink(s: Jd, h: Hist, t: Jd, k: Hist, a: Id, soft: seq<SoftStep>, o: seq<Verdict>, own: set<Id>, d: Side, b: Id)
    requires Scene(s, h, t, k, a, soft, o, own) && b in EndSet(o) && b != a
    ensures s.status[b] == Queued && s.age[b] < |h.entries| && |k.entries| == |h.entries|
    ensures var n := h.entries[s.age[b]].Pre(d);
            Settled(k, n) && (Failing(k, n) <==> Failing(h, n) || DataFails(s.dep[d][b], LinkVerdict(s, o, d, b)))
  {
    hide EntriesOk, SlotsOk, Core, Tracks, Reached, Judged, Closes;
    EndsIff(s, a, soft, o, b);
    assert WaitOk(s, h, b);
    CloseCloses(h, t, own);
    var n := h.entries[s.age[b]].Pre(d);
    if s.dep[d][b].Link? {
      SceneEnded(s, h, t, k, a, soft, o, own, s.dep[d][b].atom);
      SceneOpen(s, h, t, k, a, soft, o, own, d, b);
    } else {
      SettledStays(h, k, n);
    }
  }

  lemma SceneEnded(s: Jd, h: Hist, t: Jd, k: Hist, a: Id, soft: seq<SoftStep>, o: seq<Verdict>, own: set<Id>, b: Id)
    requires Scene(s, h, t, k, a, soft, o, own) && b in EndSet(o)
    ensures !Live(t.status[b]) && o[b] == Ends(t.code[b] == DONE)
  {
    hide HistBut, Core, Judged;
  }

  /** An atom that ends without being the completed one fails by its own step, or because
      failure has come over a link. */
  lemma SceneEnd(s: Jd, h: Hist, t: Jd, k: Hist, a: Id, soft: seq<SoftStep>, o: seq<Verdict>, own: set<Id>, b: Id)
    requires Scene(s, h, t, k, a, soft, o, own) && b in EndSet(o) && b != a
    requires b in own <==> b in StepFails(h, t, soft)
    ensures s.age[b] < |h.entries| && |k.entries| == |h.entries|
    ensures EndOk(k, k.entries[s.age[b]])
    ensures k.entries[s.age[b]].end.Ended? && k.entries[s.age[b]].own ==> k.entries[s.age[b]].end.code != DONE
  {
    hide EntriesOk, Core, Failing, Closes, WaitRight, TaintRight, LinksLost, OthersKept, LinkOk;
    SceneEndLink(s, h, t, k, a, soft, o, own, 0, b);
    SceneEndLink(s, h, t, k, a, soft, o, own, 1, b);
    assert WaitOk(s, h, b);
    assert SlotOk(s, h, {a}, b);
    SceneUnlinked(s, h, t, k, a, soft, o, own, b);
    SceneAges(s, h, t, k, a, soft, o, own);
    CloseSlot(h, t, own, b);
    SameEnds(h, t, own, h.entries[s.age[b]]);
  }

  lemma SceneUnlinked(s: Jd, h: Hist, t: Jd, k: Hist, a: Id, soft: seq<SoftStep>, o: seq<Verdict>, own: set<Id>, b: Id)
    requires Scene(s, h, t, k, a, soft, o, own) && b in EndSet(o) && b != a
    ensures b !in s.started && MayEnd(s, soft, o, b)
  {
    hide HistBut, Graph, Count, Ages, Codes, Runnable, Tracks, Judged;
    EndsIff(s, a, soft, o, b);
  }

  /** What has to be known of the completed atom itself: it may fail for the reasons that the
      history allows. */
  ghost predicate ReadyToEnd(q: Jd, h: Hist, a: Id, own: bool)
    requires Shape(q)
  {
    && q.age[a] < |h.entries| && (own ==> q.code[a] != DONE)
    && var e := h.entries[q.age[a]];
       e.kind != Gpu ==> (q.code[a] != DONE <==> own || Reached(h, e)) && (!own ==> AllSettled(h, e))
  }

  lemma SceneEntry(s: Jd, h: Hist, t: Jd, k: Hist, a: Id, soft: seq<SoftStep>, o: seq<Verdict>, own: set<Id>, g: nat)
    requires Scene(s, h, t, k, a, soft, o, own) && a in EndSet(o) && g < |h.entries|
    requires ReadyToEnd(s, h, a, a in own) && t.code[a] == s.code[a] && !Live(t.status[a])
    requires forall b: Id :: b != a ==> (b in own <==> b in StepFails(h, t, soft))
    ensures |k.entries| == |h.entries| && EntryOk(k, g)
  {
    hide SlotsOk, WaitsOk, Core, Tracks, Judged, Failing;
    CloseCloses(h, t, own);
    assert EntryOk(h, g);
    if k.entries[g] == h.entries[g] {
      EntryStays(h, k, g);
    } else {
      var e := h.entries[g];
      NameStays(h, k, e.pre0, g);
      NameStays(h, k, e.pre1, g);
      var b: Id :| EndedAs(h, t, g, b);
      SceneAges(s, h, t, k, a, soft, o, own);
      if b == a {
        SceneOwnEntry(s, h, t, k, a, soft, o, own);
      } else {
        SceneClosed(s, h, t, k, a, soft, o, own, b);
        SceneEnd(s, h, t, k, a, soft, o, own, b);
      }
    }
  }

  lemma SceneOwnEntry(s: Jd, h: Hist, t: Jd, k: Hist, a: Id, soft: seq<SoftStep>, o: seq<Verdict>, own: set<Id>)
    requires Scene(s, h, t, k, a, soft, o, own) && ReadyToEnd(s, h, a, a in own)
    requires t.code[a] == s.code[a] && !Live(t.status[a])
    ensures |k.entries| == |h.entries| && EndOk(k, k.entries[s.age[a]])
    ensures k.entries[s.age[a]].end.Ended? && k.entries[s.age[a]].own ==> k.entries[s.age[a]].end.code != DONE
  {
    hide EntriesOk, WaitsOk, Core, Tracks, Judged, Failing;
    CloseCloses(h, t, own);
    SceneAges(s, h, t, k, a, soft, o, own);
    assert SlotOk(s, h, {a}, a);
    CloseSlot(h, t, own, a);
    var e := h.entries[s.age[a]];
    if e.kind != Gpu && a !in own {
      SettledStays(h, k, e.pre0);
      SettledStays(h, k, e.pre1);
    }
  }

  /** An entry that this step closes belongs to an atom that has ended. */
  lemma SceneClosed(s: Jd, h: Hist, t: Jd, k: Hist, a: Id, soft: seq<SoftStep>, o: seq<Verdict>, own: set<Id>, b: Id)
    requires Scene(s, h, t, k, a, soft, o, own) && b != a && b in h.used && !Live(t.status[b])
    requires s.age[b] < |h.entries| && h.entries[s.age[b]].end.Open?
    ensures b in EndSet(o)
  {
    hide EntriesOk, WaitsOk, Core, Judged, TaintRight, LinksLost, WaitRight, EndedRight;
    assert SlotOk(s, h, {a}, b);
  }

  /** One completion keeps tables and history together. */
  lemma CompletionKeepsHist(q: Jd, h: Hist, t: Jd, a: Id, soft: seq<SoftStep>, own: set<Id>)
    requires Completes(q, t, a, soft) && HistBut(q, h, {a}) && !q.dying && ReadyToEnd(q, h, a, a in own)
    requires Shape(t) && forall b: Id :: b != a ==> (b in own <==> b in StepFails(h, t, soft))
    ensures HistBut(t, Close(h, t, own), {})
  {
    hide Graph, Count, Ages, Lists, ListsBut, EntriesOk, SlotsOk, WaitsOk, ReadyToEnd;
    StartKeepsCore(q, a);
    CoreLinks(Start(q, a), a);
    var s, o, k := Start(q, a), Outcomes(Start(q, a), a, soft), Close(h, t, own);
    OutcomesJudged(s, a, soft);
    StartHist(q, h, a);
    StartFrame(q, a);
    SceneFrame(q, s, h, t, k, a, soft, o, own);
    SceneKeeps(s, h, t, k, a, soft, o, own);
  }

  lemma SceneFrame(q: Jd, s: Jd, h: Hist, t: Jd, k: Hist, a: Id, soft: seq<SoftStep>, o: seq<Verdict>, own: set<Id>)
    requires Scene(s, h, t, k, a, soft, o, own) && Shape(q) && ReadyToEnd(q, h, a, a in own)
    requires s.code == q.code && s.age == q.age
    ensures a in EndSet(o) && ReadyToEnd(s, h, a, a in own) && t.code[a] == s.code[a] && !Live(t.status[a])
  {
    hide HistBut, Core, OthersKept, LinksLost, TaintRight, WaitRight, Judged;
    EndsIff(s, a, soft, o, a);
  }

  lemma SceneKeeps(s: Jd, h: Hist, t: Jd, k: Hist, a: Id, soft: seq<SoftStep>, o: seq<Verdict>, own: set<Id>)
    requires Scene(s, h, t, k, a, soft, o, own) && a in EndSet(o)
    requires ReadyToEnd(s, h, a, a in own) && t.code[a] == s.code[a] && !Live(t.status[a])
    requires forall b: Id :: b != a ==> (b in own <==> b in StepFails(h, t, soft))
    ensures HistBut(t, k, {})
  {
    hide SlotOk, WaitOk, Core, Judged, ReadyToEnd, EntryOk, StepFails, OthersKept, LinksLost, TaintRight, WaitRight, EndedRight;
    SceneAges(s, h, t, k, a, soft, o, own);
    forall b: Id
      ensures SlotOk(t, k, {}, b)
    {
      SceneSlot(s, h, t, k, a, soft, o, own, b);
    }
    forall b: Id | t.status[b] == Queued
      ensures t.age[b] < |k.entries| && WaitOk(t, k, b)
    {
      SceneWait(s, h, t, k, a, soft, o, own, b);
    }
    forall g | 0 <= g < |k.entries|
      ensures EntryOk(k, g)
    {
      SceneEntry(s, h, t, k, a, soft, o, own, g);
    }
  }

  // -------------------------------------------------------- one submission

  /** What a submission finds out about one named predecessor. */
  lemma NameFacts(s: Jd, h: Hist, k: Hist, p: PreDep)
    requires HistInv(s, h) && TypeOk(p) && h.entries <= k.entries
    ensures var n := Name(s, h, p);
      && NameOk(k, n, |h.entries|)
      && (Failing(k, n) <==> EarlyTaint(s, p)) && (Settled(k, n) <==> !WillLink(s, p))
      && (WillLink(s, p) ==> n == Late(s.age[p.id], ToLink(p).typ))
  {
    hide Inv, EntriesOk, WaitsOk;
    assert SlotOk(s, h, {}, p.id);
  }

  /** The same of a predecessor with an unknown dependency type. */
  lemma NameFound(s: Jd, h: Hist, k: Hist, p: PreDep)
    requires HistInv(s, h) && h.entries <= k.entries
    ensures NameOk(k, Name(s, h, p), |h.entries|)
  {
    hide Inv, EntriesOk, WaitsOk;
    assert SlotOk(s, h, {}, p.id);
  }

  /** Atoms other than a have not changed. */
  ghost predicate OthersSame(s: Jd, q: Jd, a: Id)
    requires Shape(s) && Shape(q)
  {
    && q.dying == s.dying
    && forall b: Id :: b != a ==>
         && (b in q.started <==> b in s.started) && q.status[b] == s.status[b] && q.code[b] == s.code[b]
         && q.willFail[b] == s.willFail[b] && q.dep[0][b] == s.dep[0][b] && q.dep[1][b] == s.dep[1][b]
  }

  /** A state in which atom a has been counted in, and no other has changed. */
  ghost predicate Entered(s: Jd, q: Jd, a: Id, u: UserAtom) {
    && Shape(s) && Shape(q)
    && q.age == s.age[a := s.nextAge] && q.nextAge == s.nextAge + 1 && q.req == s.req[a := ReqOf(u.coreReq)]
    && OthersSame(s, q, a)
  }

  lemma LongerStays(h: Hist, k: Hist, n: Named, g: nat)
    requires NameOk(h, n, g) && g < |h.entries| && h.entries <= k.entries
    ensures NameOk(k, n, g) && Failing(k, n) == Failing(h, n) && Settled(k, n) == Settled(h, n)
  {
  }

  lemma AppendedEntries(s: Jd, h: Hist, a: Id, u: UserAtom)
    requires HistInv(s, h)
    ensures EntriesOk(Append(h, s, a, u))
  {
    hide Inv, SlotsOk, WaitsOk, Failing, Settled, NameOk, Name;
    var k := Append(h, s, a, u);
    forall g | 0 <= g < |k.entries|
      ensures EntryOk(k, g)
    {
      if g < |h.entries| {
        assert EntryOk(h, g) && k.entries[g] == h.entries[g];
        LongerStays(h, k, h.entries[g].pre0, g);
        LongerStays(h, k, h.entries[g].pre1, g);
      } else {
        NameFound(s, h, k, u.pre0);
        NameFound(s, h, k, u.pre1);
      }
    }
  }

  lemma AppendKeeps(s: Jd, h: Hist, q: Jd, a: Id, u: UserAtom)
    requires HistInv(s, h) && s.status[a] == Unused && Entered(s, q, a, u)
    requires q.status[a] == InJs || q.status[a] == HwCompleted ==> q.req[a].kind == Gpu
    ensures HistBut(q, Append(h, s, a, u), {a})
  {
    hide EntriesOk, Inv, Failing, Settled, NameOk, Name;
    var k := Append(h, s, a, u);
    AppendedEntries(s, h, a, u);
    forall b: Id
      ensures SlotOk(q, k, {a}, b)
    {
      assert SlotOk(s, h, {}, b);
    }
    forall b: Id | b != a && q.status[b] == Queued
      ensures q.age[b] < |k.entries| && WaitOk(q, k, b)
    {
      AppendedWait(s, h, q, a, u, b);
    }
    forall b: Id | b in h.used
      ensures s.age[b] < s.nextAge
    {
      assert SlotOk(s, h, {}, b);
    }
  }

  lemma AppendedWait(s: Jd, h: Hist, q: Jd, a: Id, u: UserAtom, b: Id)
    requires HistInv(s, h) && s.status[a] == Unused && Entered(s, q, a, u) && b != a && s.status[b] == Queued
    ensures var k := Append(h, s, a, u); q.age[b] < |k.entries| && WaitOk(q, k, b)
  {
    hide Count, Ages, Lists, Pinned, HeadsMatch, Failing, Settled, NameOk, Name, EndOk;
    var k := Append(h, s, a, u);
    assert SlotOk(s, h, {}, b) && WaitOk(s, h, b) && EntryOk(h, s.age[b]);
    LongerStays(h, k, h.entries[s.age[b]].pre0, s.age[b]);
    LongerStays(h, k, h.entries[s.age[b]].pre1, s.age[b]);
  }

  /** Nothing is closed as long as no atom is newly over. */
  lemma NothingClosed(t: Jd, h: Hist, own: set<Id>)
    requires HistBut(t, h, {})
    ensures Close(h, t, own) == h
  {
    hide EntriesOk, WaitsOk;
    var k := Close(h, t, own);
    forall g, b: Id | 0 <= g < |h.entries| && EndedAs(h, t, g, b)
      ensures !h.entries[g].end.Open?
    {
      assert SlotOk(t, h, {}, b);
    }
    assert k.entries == h.entries;
  }

  /** The atom that was being dealt with is left waiting, or with the scheduler. */
  lemma LeftAlone(t: Jd, h: Hist, a: Id, own: set<Id>)
    requires HistBut(t, h, {a}) && Live(t.status[a]) && (t.status[a] == Queued ==> t.age[a] < |h.entries| && WaitOk(t, h, a))
    ensures HistBut(t, Close(h, t, own), {})
  {
    hide EntriesOk, WaitOk;
    forall b: Id
      ensures SlotOk(t, h, {}, b)
    {
      assert SlotOk(t, h, {a}, b);
    }
    assert HistBut(t, h, {});
    NothingClosed(t, h, own);
  }

  /** What the history says of an atom that has just been counted in. */
  lemma NewEntry(s: Jd, h: Hist, a: Id, u: UserAtom)
    requires HistInv(s, h) && TypeOk(u.pre0) && TypeOk(u.pre1)
    ensures var k := Append(h, s, a, u);
      && |k.entries| == s.nextAge + 1
      && var e := k.entries[s.nextAge];
         && e.kind == ReqOf(u.coreReq).kind && (Reached(k, e) <==> Tainted(s, a, u)) && (AllSettled(k, e) <==> !Links(s, u))
  {
    hide HistInv, Failing, Settled, Name;
    HistFacts(s, h);
    var k := Append(h, s, a, u);
    NameFacts(s, h, k, u.pre0);
    NameFacts(s, h, k, u.pre1);
  }

  lemma HistFacts(s: Jd, h: Hist)
    requires HistInv(s, h)
    ensures Inv(s) && Shape(s) && |h.entries| == s.nextAge && !s.dying && HistBut(s, h, {})
  {
    hide EntriesOk, SlotsOk, WaitsOk, Graph, Count, Ages, Lists, Pinned;
  }

  lemma QueueEntered(s: Jd, a: Id, u: UserAtom, code: nat)
    requires Inv(s) && s.status[a] == Unused && !SelfLink(s, a, u) && TypeOk(u.pre0) && TypeOk(u.pre1)
    ensures Shape(Queue(s, a, u, code)) && Entered(s, Queue(s, a, u, code), a, u) && a !in Queue(s, a, u, code).started
    ensures forall d: Side ::
      Queue(s, a, u, code).dep[d][a] == if WillLink(s, u.Pre(d)) then ToLink(u.Pre(d)) else NoLink
    ensures forall d: Side :: WillLink(s, u.Pre(d)) ==> u.Pre(d).id != a
  {
    hide Graph, Count, Ages, Lists, AddDeps, EarlyTaint;
    QueueShape(s, a, u);
    InvFacts(s, a);
    InvHeads(s);
    AddDepsHeads(s, a, u);
    AddDepsStatus(s, a, u);
    AddDepsFrame(s, a, u);
  }

  /** A newly queued atom that is left waiting waits as the history says. */
  lemma QueueWaits(s: Jd, h: Hist, t: Jd, a: Id, u: UserAtom, code: nat)
    requires HistInv(s, h) && s.status[a] == Unused && !SelfLink(s, a, u) && TypeOk(u.pre0) && TypeOk(u.pre1)
    requires Shape(Queue(s, a, u, code)) && Shape(t)
    requires var q := Queue(s, a, u, code); t.dep == q.dep && t.age == q.age && t.status == q.status
    requires if a in t.started then !Tainted(s, a, u) else t.willFail[a] != 0 <==> Tainted(s, a, u)
    ensures t.age[a] < |Append(h, s, a, u).entries| && WaitOk(t, Append(h, s, a, u), a)
  {
    hide HistInv, Failing, Settled, Name, Queue, EarlyTaint, WillLink;
    HistFacts(s, h);
    QueueEntered(s, a, u, code);
    NewEntry(s, h, a, u);
    var k := Append(h, s, a, u);
    NameFacts(s, h, k, u.pre0);
    NameFacts(s, h, k, u.pre1);
    assert u.Pre(0) == u.pre0 && u.Pre(1) == u.pre1;
  }

  lemma FinalisedFrame(q: Jd, t: Jd, a: Id, soft: seq<SoftStep>)
    requires Completes(q, t, a, soft)
    ensures Shape(q) && Shape(t) && t.dying == q.dying && t.req == q.req && t.age == q.age
  {
    hide Graph, Count, Ages, Lists, ListsBut, Logged, EndedRight, OthersKept, LinksLost, TaintRight, WaitRight;
    StartKeepsCore(q, a);
    StartFrame(q, a);
  }

  /** A submission that finalises the new atom. */
  lemma SubmitEnds(s: Jd, h: Hist, q: Jd, t: Jd, a: Id, u: UserAtom, soft: seq<SoftStep>, own: set<Id>)
    requires HistInv(s, h) && s.status[a] == Unused && Entered(s, q, a, u) && Finalised(q, t, a, soft)
    requires q.status[a] == Queued || q.status[a] == Completed
    requires ReadyToEnd(q, Append(h, s, a, u), a, a in own)
    requires Shape(t) && forall b: Id :: b != a ==> (b in own <==> b in StepFails(Append(h, s, a, u), t, soft))
    ensures HistBut(t, Close(Append(h, s, a, u), t, own), {}) && !t.dying
  {
    hide HistBut, Inv, Completable, Completion, Aftermath, ReadyToEnd, Append;
    FinalisedFrame(q, t, a, soft);
    AppendKeeps(s, h, q, a, u);
    CompletionKeepsHist(q, Append(h, s, a, u), t, a, soft, own);
  }

  ghost function RefusalCode(s: Jd, a: Id, u: UserAtom, ans: Answers): nat
    requires Shape(s)
  {
    if FateOf(s, a, u, ans) == FailsNow then PassedOn(s, a, u) else JOB_INVALID
  }

  lemma RefusedAs(s: Jd, op: Op, t: Jd)
    requires Follows(s, op, t) && op.Submit? && FateOf(s, op.a, op.u, op.ans) in {FailsNow, Refused, Invalid}
    ensures Shape(s) && TypeOk(op.u.pre0) && TypeOk(op.u.pre1) && !SelfLink(s, op.a, op.u) && s.status[op.a] == Unused
    ensures FateOf(s, op.a, op.u, op.ans) == FailsNow <==> Tainted(s, op.a, op.u)
    ensures Tainted(s, op.a, op.u) ==> !Links(s, op.u)
    ensures Shape(Queue(s, op.a, op.u, RefusalCode(s, op.a, op.u, op.ans)))
    ensures Finalised(Queue(s, op.a, op.u, RefusalCode(s, op.a, op.u, op.ans)), t, op.a, op.soft)
  {
    hide Completable, Completion, Aftermath, Queue, EarlyTaint, SelfLink, Malformed, PassesValidation, Graph, Count, Ages, Lists, Pinned;
    var q := Queue(s, op.a, op.u, JOB_INVALID);
    QueueFacts(s, op.a, op.u, RefusalCode(s, op.a, op.u, op.ans));
    assert FateOf(s, op.a, op.u, op.ans) == Invalid ==> WithFence(q, op.a, false) == q;
  }

  /** The new atom is refused, or a predecessor has failed it. */
  lemma SubmitRefused(s: Jd, h: Hist, op: Op, t: Jd)
    requires HistInv(s, h) && Follows(s, op, t) && op.Submit?
    requires FateOf(s, op.a, op.u, op.ans) in {FailsNow, Refused, Invalid}
    ensures HistBut(t, Record(h, s, op, t), {}) && !t.dying
  {
    hide HistBut, Inv, Append, Queue, Completes, Aftermath, Submitted, FateOf, Tainted, SelfLink, Links, Close, FencedRefusal, KilledOnEntry;
    HistFacts(s, h);
    InvShape(t);
    RefusedAs(s, op, t);
    var a, u := op.a, op.u;
    var code := RefusalCode(s, a, u, op.ans);
    NewEntry(s, h, a, u);
    QueueEntered(s, a, u, code);
    QueueFacts(s, a, u, code);
    SubmitEnds(s, h, Queue(s, a, u, code), t, a, u, op.soft, Own(Append(h, s, a, u), s, op, t));
  }

  lemma SubmitBadEntry(s: Jd, h: Hist, op: Op, t: Jd)
    requires HistInv(s, h) && Follows(s, op, t) && op.Submit? && FateOf(s, op.a, op.u, op.ans) == BadDependency
    ensures HistBut(t, Record(h, s, op, t), {}) && !t.dying
  {
    hide HistBut, Inv, Completable, Completion, Aftermath, EarlyTaint, Close;
    HistFacts(s, h);
    InvShape(t);
    SubmitEnds(s, h, BadEntry(s, op.a, op.u), t, op.a, op.u, op.soft, Own(Append(h, s, op.a, op.u), s, op, t));
  }

  lemma WaitsAs(s: Jd, op: Op, t: Jd)
    requires Follows(s, op, t) && op.Submit? && FateOf(s, op.a, op.u, op.ans) in {FailsLater, Waits}
    ensures Shape(s) && TypeOk(op.u.pre0) && TypeOk(op.u.pre1) && !SelfLink(s, op.a, op.u) && s.status[op.a] == Unused
    ensures FateOf(s, op.a, op.u, op.ans) == FailsLater <==> Tainted(s, op.a, op.u)
    ensures Shape(t) && Entered(s, t, op.a, op.u) && t.status[op.a] == Queued && op.a !in t.started
    ensures exists code: nat :: SameLinks(s, op.a, op.u, code, t)
    ensures t.willFail[op.a] != 0 <==> Tainted(s, op.a, op.u)
  {
    hide EarlyTaint, SelfLink, Malformed, PassesValidation, Graph, Count, Ages, Lists, Pinned, Queue, Entered;
    InvShape(t);
    var code := if FateOf(s, op.a, op.u, op.ans) == FailsLater then PassedOn(s, op.a, op.u) else DONE;
    QueueEntered(s, op.a, op.u, code);
    QueueFacts(s, op.a, op.u, code);
    EnteredToo(s, Queue(s, op.a, op.u, code), t, op.a, op.u);
    assert SameLinks(s, op.a, op.u, code, t);
  }

  lemma EnteredToo(s: Jd, q: Jd, t: Jd, a: Id, u: UserAtom)
    requires Shape(q) && Entered(s, q, a, u) && Shape(t) && OthersSame(q, t, a)
    requires t.age == q.age && t.nextAge == q.nextAge && t.req == q.req
    ensures Entered(s, t, a, u)
  {
  }

  ghost predicate SameLinks(s: Jd, a: Id, u: UserAtom, code: nat, t: Jd) {
    && Shape(s) && Shape(Queue(s, a, u, code)) && Shape(t)
    && var q := Queue(s, a, u, code); t.dep == q.dep && t.age == q.age && t.status == q.status
  }

  /** The new atom waits for a link or a fence. */
  lemma SubmitWaits(s: Jd, h: Hist, op: Op, t: Jd)
    requires HistInv(s, h) && Follows(s, op, t) && op.Submit? && FateOf(s, op.a, op.u, op.ans) in {FailsLater, Waits}
    ensures HistBut(t, Record(h, s, op, t), {}) && !t.dying
  {
    hide HistBut, Inv, Append, Queue, FateOf, Submitted, Tainted, SelfLink, Links, Close, FencedRefusal, KilledOnEntry, WaitOk;
    HistFacts(s, h);
    WaitsAs(s, op, t);
    var a, u := op.a, op.u;
    var code: nat :| SameLinks(s, a, u, code, t);
    AppendKeeps(s, h, t, a, u);
    QueueWaits(s, h, t, a, u, code);
    LeftAlone(t, Append(h, s, a, u), a, Own(Append(h, s, a, u), s, op, t));
  }

  lemma RunsAs(s: Jd, op: Op, t: Jd)
    requires Follows(s, op, t) && op.Submit? && FateOf(s, op.a, op.u, op.ans) == Runs
    ensures Shape(s) && TypeOk(op.u.pre0) && TypeOk(op.u.pre1) && !SelfLink(s, op.a, op.u) && s.status[op.a] == Unused
    ensures !Tainted(s, op.a, op.u) && (ReqOf(op.u.coreReq).kind != Gpu ==> !Links(s, op.u))
    ensures Shape(Queue(s, op.a, op.u, DONE)) && HandedOn(Queue(s, op.a, op.u, DONE), t, op.a, op.ans, op.soft)
  {
    hide EarlyTaint, SelfLink, Malformed, PassesValidation, Graph, Count, Ages, Lists, Pinned, Queue, HandedOn;
    QueueShape(s, op.a, op.u);
  }

  /** A dependency-only atom, or a soft job whose step finishes, ends at once. */
  lemma SubmitFinishes(s: Jd, h: Hist, op: Op, t: Jd)
    requires HistInv(s, h) && Follows(s, op, t) && op.Submit? && FateOf(s, op.a, op.u, op.ans) == Runs
    requires var kind := ReqOf(op.u.coreReq).kind; kind == DepOnly || (kind == Soft && op.soft[op.a].finished)
    ensures HistBut(t, Record(h, s, op, t), {}) && !t.dying
  {
    hide HistBut, Inv, Append, Queue, Completes, Aftermath, Submitted, FateOf, Tainted, SelfLink, Links, Close, FencedRefusal, KilledOnEntry;
    HistFacts(s, h);
    InvShape(t);
    RunsAs(s, op, t);
    var a, u := op.a, op.u;
    NewEntry(s, h, a, u);
    QueueEntered(s, a, u, DONE);
    QueueFacts(s, a, u, DONE);
    var q := Queue(s, a, u, DONE);
    var r := if q.req[a].kind == Soft then q.(code := q.code[a := op.soft[a].code]) else q;
    assert Finalised(r, t, a, op.soft);
    FinalisedFrame(r, t, a, op.soft);
    SettledReached(Append(h, s, a, u), t, {}, Append(h, s, a, u).entries[s.nextAge]);
    SubmitEnds(s, h, r, t, a, u, op.soft, Own(Append(h, s, a, u), s, op, t));
  }

  /** A soft job that waits for its event, and a GPU atom, stay unfinished. */
  lemma StaysAs(s: Jd, op: Op, t: Jd)
    requires Follows(s, op, t) && op.Submit? && FateOf(s, op.a, op.u, op.ans) == Runs
    requires var kind := ReqOf(op.u.coreReq).kind; kind == Gpu || (kind == Soft && !op.soft[op.a].finished)
    ensures Shape(s) && Shape(t) && Entered(s, t, op.a, op.u) && Live(t.status[op.a])
    ensures t.status[op.a] == InJs || t.status[op.a] == HwCompleted ==> t.req[op.a].kind == Gpu
    ensures t.status[op.a] == Queued ==> SameLinks(s, op.a, op.u, DONE, t) && (op.a !in t.started ==> t.willFail[op.a] == 0)
  {
    hide Inv, Queue, Submitted, FateOf, Tainted, SelfLink, Links, FencedRefusal, KilledOnEntry, Entered, UnlinkBoth;
    InvShape(t);
    RunsAs(s, op, t);
    var a, u := op.a, op.u;
    QueueEntered(s, a, u, DONE);
    QueueFacts(s, a, u, DONE);
    var q := Queue(s, a, u, DONE);
    if q.req[a].kind == Gpu {
      NotKilled(s, op, t);
    }
    TakenSame(q, a);
    EnteredToo(s, q, t, a, u);
  }

  lemma NotKilled(s: Jd, op: Op, t: Jd)
    requires Follows(s, op, t) && op.Submit? && FateOf(s, op.a, op.u, op.ans) == Runs && ReqOf(op.u.coreReq).kind == Gpu
    ensures Shape(s) && !(s.dying && op.ans.scheduledOut && (op.ans.accepts || !Links(s, op.u)))
  {
    hide Inv, Submitted, FateOf;
    InvShape(s);
  }

  /** The scheduler takes an atom without changing any other. */
  lemma TakenSame(q: Jd, a: Id)
    requires Shape(q)
    ensures var t := UnlinkBoth(SetStatus(q, a, InJs), a);
      && Shape(t) && OthersSame(q, t, a) && t.age == q.age && t.nextAge == q.nextAge && t.req == q.req
      && t.status == q.status[a := InJs] && t.started == q.started && t.code == q.code && t.willFail == q.willFail
  {
    var v := SetStatus(q, a, InJs);
    UnlinkShape(v, 0, a);
    UnlinkShape(Unlink(v, 0, a), 1, a);
  }

  lemma SubmitStays(s: Jd, h: Hist, op: Op, t: Jd)
    requires HistInv(s, h) && Follows(s, op, t) && op.Submit? && FateOf(s, op.a, op.u, op.ans) == Runs
    requires var kind := ReqOf(op.u.coreReq).kind; kind == Gpu || (kind == Soft && !op.soft[op.a].finished)
    ensures HistBut(t, Record(h, s, op, t), {}) && !t.dying
  {
    hide HistBut, Inv, Append, Queue, Submitted, FateOf, Tainted, SelfLink, Links, Close, FencedRefusal, KilledOnEntry, WaitOk;
    HistFacts(s, h);
    RunsAs(s, op, t);
    StaysAs(s, op, t);
    var a, u := op.a, op.u;
    AppendKeeps(s, h, t, a, u);
    if t.status[a] == Queued {
      QueueWaits(s, h, t, a, u, DONE);
    }
    LeftAlone(t, Append(h, s, a, u), a, Own(Append(h, s, a, u), s, op, t));
  }

  lemma SubmitKeepsHist(s: Jd, h: Hist, op: Op, t: Jd)
    requires HistInv(s, h) && Follows(s, op, t) && op.Submit?
    ensures HistInv(t, Record(h, s, op, t))
  {
    hide HistBut, Inv, Submitted, FateOf, Record;
    HistFacts(s, h);
    match FateOf(s, op.a, op.u, op.ans)
    case BadDependency => SubmitBadEntry(s, h, op, t);
    case FailsNow => SubmitRefused(s, h, op, t);
    case FailsLater => SubmitWaits(s, h, op, t);
    case Refused => SubmitRefused(s, h, op, t);
    case Invalid => SubmitRefused(s, h, op, t);
    case Waits => SubmitWaits(s, h, op, t);
    case Runs =>
      if ReqOf(op.u.coreReq).kind == DepOnly || (ReqOf(op.u.coreReq).kind == Soft && op.soft[op.a].finished) {
        SubmitFinishes(s, h, op, t);
      } else {
        SubmitStays(s, h, op, t);
      }
  }

  // ------------------------------------------------------- the other steps

  /** q is s, except for what concerns the unfinished atom a only. */
  ghost predicate Touched(s: Jd, q: Jd, a: Id) {
    && Shape(s) && Shape(q) && Live(s.status[a])
    && q.age == s.age && q.nextAge == s.nextAge && q.req == s.req
    && (q.status[a] == InJs || q.status[a] == HwCompleted ==> q.req[a].kind == Gpu)
    && OthersSame(s, q, a)
  }

  lemma TouchedHist(s: Jd, h: Hist, q: Jd, a: Id)
    requires HistInv(s, h) && Touched(s, q, a)
    ensures HistBut(q, h, {a}) && !q.dying
    ensures s.age[a] < |h.entries| && h.entries[s.age[a]].kind == s.req[a].kind
    ensures s.status[a] != Queued ==> s.req[a].kind == Gpu
    ensures s.status[a] == Queued ==> WaitOk(s, h, a)
  {
    hide EntriesOk, Inv, Reached, Settled;
    assert SlotOk(s, h, {}, a);
    forall b: Id
      ensures SlotOk(q, h, {a}, b)
    {
      assert SlotOk(s, h, {}, b);
    }
    forall b: Id | b != a && q.status[b] == Queued
      ensures q.age[b] < |h.entries| && WaitOk(q, h, b)
    {
      assert WaitOk(s, h, b);
    }
  }

  /** Only GPU atoms are ever with the scheduler. */
  lemma OnlyGpuGone(s: Jd, h: Hist, a: Id)
    requires HistInv(s, h)
    ensures s.status[a] == InJs || s.status[a] == HwCompleted ==> s.req[a].kind == Gpu
  {
    hide EntriesOk, WaitsOk, Inv;
    assert SlotOk(s, h, {}, a);
  }

  lemma CompleteKeepsHist(s: Jd, h: Hist, op: Op, t: Jd)
    requires HistInv(s, h) && Follows(s, op, t) && op.CompleteJob?
    ensures HistInv(t, Record(h, s, op, t))
  {
    hide HistBut, Graph, Count, Ages, Codes, Runnable, Pinned, Completable, Completion, Aftermath, Close, Reached;
    var q := s.(code := s.code[op.a := op.code]);
    OnlyGpuGone(s, h, op.a);
    TouchedHist(s, h, q, op.a);
    FinalisedFrame(q, t, op.a, op.soft);
    CompletionKeepsHist(q, h, t, op.a, op.soft, Own(h, s, op, t));
  }

  lemma FenceCancelKeepsHist(s: Jd, h: Hist, op: Op, t: Jd)
    requires HistInv(s, h) && Follows(s, op, t) && op.FenceCancel?
    ensures HistInv(t, Record(h, s, op, t))
  {
    hide HistBut, Graph, Count, Ages, Lists, Completable, Completion, Aftermath, Close, Reached;
    var q := s.(code := s.code[op.a := JOB_CANCELLED], fenced := s.fenced[op.a := false]);
    FenceCleared(s, op.a);
    TouchedHist(s, h, q, op.a);
    FinalisedFrame(q, t, op.a, op.soft);
    CompletionKeepsHist(q, h, t, op.a, op.soft, Own(h, s, op, t));
  }

  /** An atom whose fences have signalled is completed, ... */
  lemma ClearedEnds(s: Jd, h: Hist, op: Op, t: Jd, accepted: bool)
    requires HistInv(s, h) && Follows(s, op, t) && op.FenceWork?
    requires var q := s.(fenced := s.fenced[op.a := false]);
      && RanTo(q, t, op.a, op.soft, accepted) && Ran(q, op.a, op.soft[op.a], accepted).status[op.a] == Completed
      && (q.req[op.a].kind == Gpu || Unlinked(q, op.a))
    ensures HistInv(t, Record(h, s, op, t))
  {
    hide HistBut, Graph, Count, Ages, Runnable, Completable, Completion, Aftermath, Close, Reached, Cleared;
    var q := s.(fenced := s.fenced[op.a := false]);
    var r := Ran(q, op.a, op.soft[op.a], accepted);
    FenceCleared(s, op.a);
    TouchedHist(s, h, r, op.a);
    FinalisedFrame(r, t, op.a, op.soft);
    if r.req[op.a].kind == Soft {
      SettledReached(h, t, {}, h.entries[s.age[op.a]]);
    }
    CompletionKeepsHist(r, h, t, op.a, op.soft, Own(h, s, op, t));
  }

  /** ... or goes to the scheduler, or starts, or waits on. */
  lemma ClearedStays(s: Jd, h: Hist, op: Op, t: Jd, accepted: bool)
    requires HistInv(s, h) && Follows(s, op, t) && op.FenceWork?
    requires var q := s.(fenced := s.fenced[op.a := false]);
      || t == q
      || (Ran(q, op.a, op.soft[op.a], accepted).status[op.a] != Completed && t == Ran(q, op.a, op.soft[op.a], accepted))
    ensures HistInv(t, Record(h, s, op, t))
  {
    hide HistBut, Inv, Close, Reached, Cleared, Touched, Ran, WaitOk;
    HistFacts(s, h);
    RanTouches(s, t, op.a, op.soft[op.a], accepted);
    TouchedHist(s, h, t, op.a);
    if t.status[op.a] == Queued {
      RanStillWaits(s, h, t, op.a, op.soft[op.a], accepted);
    }
    LeftAlone(t, h, op.a, Own(h, s, op, t));
  }

  lemma RanTouches(s: Jd, t: Jd, a: Id, step: SoftStep, accepted: bool)
    requires Inv(s) && s.fenced[a]
    requires var q := s.(fenced := s.fenced[a := false]);
             t == q || (Ran(q, a, step, accepted).status[a] != Completed && t == Ran(q, a, step, accepted))
    ensures Shape(t) && Touched(s, t, a) && Live(t.status[a]) && s.status[a] == Queued
  {
    hide Graph, Count, Ages, Lists, Pinned, UnlinkBoth;
    InvFacts(s, a);
    TakenSame(s.(fenced := s.fenced[a := false]), a);
  }

  lemma RanStillWaits(s: Jd, h: Hist, t: Jd, a: Id, step: SoftStep, accepted: bool)
    requires Inv(s) && s.fenced[a] && s.age[a] < |h.entries| && WaitOk(s, h, a) && Shape(t) && t.status[a] == Queued
    requires var q := s.(fenced := s.fenced[a := false]);
             t == q || (Ran(q, a, step, accepted).status[a] != Completed && t == Ran(q, a, step, accepted))
    ensures t.age[a] < |h.entries| && WaitOk(t, h, a)
  {
    hide Graph, Count, Ages, Codes, Runnable, Settled, Reached;
    UnlinkShape(SetStatus(s.(fenced := s.fenced[a := false]), a, InJs), 0, a);
  }

  lemma FenceWorkKeepsHist(s: Jd, h: Hist, op: Op, t: Jd)
    requires HistInv(s, h) && Follows(s, op, t) && op.FenceWork?
    ensures HistInv(t, Record(h, s, op, t))
  {
    hide HistInv, Inv, Completable, Completion, Aftermath, Record, Ran;
    HistFacts(s, h);
    var q := s.(fenced := s.fenced[op.a := false]);
    if t == q {
      ClearedStays(s, h, op, t, true);
    } else {
      var accepted := !RanTo(q, t, op.a, op.soft, false);
      assert RanTo(q, t, op.a, op.soft, accepted);
      if Ran(q, op.a, op.soft[op.a], accepted).status[op.a] == Completed {
        ClearedEnds(s, h, op, t, accepted);
      } else {
        ClearedStays(s, h, op, t, accepted);
      }
    }
  }

  /** Steps of the scheduler and of user space close nothing. */
  lemma OtherKeepsHist(s: Jd, h: Hist, op: Op, t: Jd)
    requires HistInv(s, h) && Follows(s, op, t) && (op.HwComplete? || op.MarkToFail? || op.Release?)
    ensures HistInv(t, Record(h, s, op, t))
  {
    hide EntriesOk, Graph, Count, Ages, Lists, Pinned, Close, Reached, Settled;
    forall b: Id
      ensures SlotOk(t, h, {}, b)
    {
      assert SlotOk(s, h, {}, b);
    }
    forall b: Id | t.status[b] == Queued
      ensures t.age[b] < |h.entries| && WaitOk(t, h, b)
    {
      assert WaitOk(s, h, b);
    }
    assert HistBut(t, h, {});
    NothingClosed(t, h, Own(h, s, op, t));
  }

  lemma StepKeepsHist(s: Jd, h: Hist, op: Op, t: Jd)
    requires HistInv(s, h) && Follows(s, op, t)
    ensures HistInv(t, Record(h, s, op, t))
  {
    hide HistInv, Follows, Record;
    match op
    case Submit(_, _, _, _) => SubmitKeepsHist(s, h, op, t);
    case CompleteJob(_, _, _, _) => CompleteKeepsHist(s, h, op, t);
    case FenceWork(_, _, _) => FenceWorkKeepsHist(s, h, op, t);
    case FenceCancel(_, _) => FenceCancelKeepsHist(s, h, op, t);
    case _ => OtherKeepsHist(s, h, op, t);
  }

  // ------------------------------------------------------------------ runs

  ghost predicate Recorded(s: Jd, h: Hist, op: Op, t: Jd, k: Hist) {
    Follows(s, op, t) && k == Record(h, s, op, t)
  }

  /** The states and histories of a run of a new context that is not torn down. */
  ghost predicate Run(states: seq<Jd>, hists: seq<Hist>, ops: seq<Op>) {
    && |states| == |hists| == |ops| + 1 && states[0] == Initial() && hists[0] == Hist([], {})
    && forall i :: 0 <= i < |ops| ==> Recorded(states[i], hists[i], ops[i], states[i + 1], hists[i + 1])
  }

  /** Tables and history agree all along. */
  lemma {:induction false} RunHist(states: seq<Jd>, hists: seq<Hist>, ops: seq<Op>, n: nat)
    requires Run(states, hists, ops) && n <= |ops|
    ensures HistInv(states[n], hists[n])
  {
    hide HistInv, Follows, Record;
    if n == 0 {
      InitialHist();
    } else {
      RunHist(states, hists, ops, n - 1);
      assert Recorded(states[n - 1], hists[n - 1], ops[n - 1], states[n], hists[n]);
      StepKeepsHist(states[n - 1], hists[n - 1], ops[n - 1], states[n]);
    }
  }

  lemma InitialHist()
    ensures HistInv(Initial(), Hist([], {}))
  {
    InitialInv();
  }

  // --------------------------------------------------- failure propagation

  /** Failure passes from submission p over this name. */
  predicate PassesOver(n: Named, p: nat) {
    match n
    case NoPred => false
    case Early(q, code, typ) => q == p && (typ != Order || code <= ACTIVE)
    case Late(q, typ) => q == p && typ != Order
  }

  predicate Passes(h: Hist, p: nat, g: nat)
    requires g < |h.entries|
  {
    PassesOver(h.entries[g].pre0, p) || PassesOver(h.entries[g].pre1, p)
  }

  /** The name is that of an atom number that had never been used. */
  predicate NeverUsed(h: Hist, n: Named) {
    n.Early? && n.pred < 0 && Failing(h, n)
  }

  /** A submission that fails without help: for a reason of its own, as a GPU atom, or because it
      names a number that had never been used. */
  predicate FailsByItself(h: Hist, g: nat)
    requires g < |h.entries|
  {
    var e := h.entries[g];
    && e.end.Ended?
    && (if e.kind == Gpu then e.end.code != DONE else e.own || NeverUsed(h, e.pre0) || NeverUsed(h, e.pre1))
  }

  /** A chain of links that pass failure on, from a submission that fails by itself to g. */
  ghost predicate FailurePath(h: Hist, path: seq<nat>, g: nat) {
    && path != [] && path[|path| - 1] == g
    && (forall i :: 0 <= i < |path| ==> path[i] < |h.entries|)
    && FailsByItself(h, path[0])
    && forall i :: 0 < i < |path| ==>
         h.entries[path[i]].end.Ended? && h.entries[path[i]].kind != Gpu && Passes(h, path[i - 1], path[i])
  }

  lemma {:induction false} PathFails(h: Hist, path: seq<nat>, g: nat)
    requires EntriesOk(h) && FailurePath(h, path, g)
    ensures h.entries[g].end.Ended? && h.entries[g].end.code != DONE
    decreases |path|
  {
    assert EntryOk(h, g);
    if |path| > 1 {
      PathFails(h, path[..|path| - 1], path[|path| - 2]);
      assert Passes(h, path[|path| - 1 - 1], path[|path| - 1]);
    }
  }

  lemma {:induction false} FailureHasPath(h: Hist, g: nat) returns (path: seq<nat>)
    requires EntriesOk(h) && g < |h.entries| && h.entries[g].end.Ended? && h.entries[g].end.code != DONE
    ensures FailurePath(h, path, g)
    decreases g
  {
    assert EntryOk(h, g);
    if FailsByItself(h, g) {
      path := [g];
    } else {
      var e := h.entries[g];
      var n := if Failing(h, e.pre0) then e.pre0 else e.pre1;
      path := FailureHasPath(h, n.pred);
      path := path + [g];
    }
  }

  /** In every run, an atom other than a GPU atom that has ended has failed if and only if a chain
      of links that pass failure on leads to it from an atom that failed by itself: DATA links,
      and links to atoms that were over with a code up to ACTIVE when they were named. */
  lemma FailureIsDataReachability(states: seq<Jd>, hists: seq<Hist>, ops: seq<Op>, n: nat, g: nat)
    requires Run(states, hists, ops) && n <= |ops|
    requires g < |hists[n].entries| && hists[n].entries[g].end.Ended? && hists[n].entries[g].kind != Gpu
    ensures hists[n].entries[g].end.code != DONE <==> exists path :: FailurePath(hists[n], path, g)
  {
    hide Recorded, EntriesOk, SlotsOk, WaitsOk, FailurePath;
    RunHist(states, hists, ops, n);
    if hists[n].entries[g].end.code != DONE {
      var path := FailureHasPath(hists[n], g);
    }
    forall path | FailurePath(hists[n], path, g)
      ensures hists[n].entries[g].end.code != DONE
    {
      PathFails(hists[n], path, g);
    }
  }

  /** In every run, a waiting atom is marked to fail if and only if failure has come over one of
      its links, and a soft job over whose links failure has come is never started. */
  lemma MarkedIff(states: seq<Jd>, hists: seq<Hist>, ops: seq<Op>, n: nat, b: Id)
    requires Run(states, hists, ops) && n <= |ops| && Shape(states[n]) && states[n].status[b] == Queued
    ensures states[n].age[b] < |hists[n].entries|
    ensures var e := hists[n].entries[states[n].age[b]];
      && e.end.Open?
      && (b in states[n].started ==> !Reached(hists[n], e))
      && (b !in states[n].started ==> (states[n].willFail[b] != 0 <==> Reached(hists[n], e)))
  {
    hide Recorded, EntriesOk, Reached, LinkOk, Inv;
    RunHist(states, hists, ops, n);
    assert SlotOk(states[n], hists[n], {}, b);
    assert WaitOk(states[n], hists[n], b);
  }

  /** What the tables show of an atom that is over is how it ended. */
  lemma EndedCode(states: seq<Jd>, hists: seq<Hist>, ops: seq<Op>, n: nat, b: Id)
    requires Run(states, hists, ops) && n <= |ops| && Shape(states[n]) && !Live(states[n].status[b]) && b in hists[n].used
    ensures states[n].age[b] < |hists[n].entries|
    ensures hists[n].entries[states[n].age[b]].end == Ended(states[n].code[b])
  {
    hide Recorded, EntriesOk, WaitsOk, Inv;
    RunHist(states, hists, ops, n);
    assert SlotOk(states[n], hists[n], {}, b);
  }

  // ------------------------------------------- early and late submission

  /** The code that a named predecessor has ended with, whether before or after it was named. */
  function FinalCode(h: Hist, n: Named): nat
    requires !n.NoPred? && Settled(h, n)
  {
    if n.Early? then n.code else h.entries[n.pred].end.code
  }

  /** A DATA predecessor that has failed. */
  predicate FailedData(h: Hist, n: Named)
    requires Settled(h, n)
  {
    !n.NoPred? && n.typ != Order && FinalCode(h, n) != DONE
  }

  /** An ORDER predecessor that has ended with a code up to ACTIVE other than DONE. */
  predicate StoppedOrder(h: Hist, n: Named)
    requires Settled(h, n)
  {
    !n.NoPred? && n.typ == Order && FinalCode(h, n) != DONE && FinalCode(h, n) <= ACTIVE
  }

  /** A dependency-only atom that has ended, and was neither refused nor cancelled. */
  predicate PlainEnd(h: Hist, g: nat) {
    && g < |h.entries| && h.entries[g].kind == DepOnly && h.entries[g].end.Ended? && !h.entries[g].own
    && AllSettled(h, h.entries[g])
  }

  predicate AnyFailedData(h: Hist, e: Entry)
    requires AllSettled(h, e)
  {
    FailedData(h, e.pre0) || FailedData(h, e.pre1)
  }

  predicate AnyEarlyStopped(h: Hist, e: Entry)
    requires AllSettled(h, e)
  {
    (e.pre0.Early? && StoppedOrder(h, e.pre0)) || (e.pre1.Early? && StoppedOrder(h, e.pre1))
  }

  /** How a dependency-only atom ends follows from how its predecessors ended, and for ORDER
      predecessors from whether they were over when it was submitted. */
  lemma FinalVerdict(s: Jd, h: Hist, g: nat)
    requires HistInv(s, h) && g < |h.entries| && h.entries[g].kind == DepOnly && h.entries[g].end.Ended?
    requires !h.entries[g].own
    ensures PlainEnd(h, g)
    ensures h.entries[g].end.code == DONE <==> !AnyFailedData(h, h.entries[g]) && !AnyEarlyStopped(h, h.entries[g])
  {
    hide SlotsOk, WaitsOk, Inv;
    assert EntryOk(h, g);
  }

  /** The same predecessor by what counts: the same type of link, and the same code in the end. */
  predicate SamePred(h: Hist, n: Named, k: Hist, m: Named)
    requires Settled(h, n) && Settled(k, m)
  {
    if n.NoPred? || m.NoPred? then n == m else n.typ == m.typ && FinalCode(h, n) == FinalCode(k, m)
  }

  /** Two dependency-only atoms of any two contexts whose predecessors end alike end alike, whenever
      each of them was submitted and whatever happened in between, if and only if a DATA
      predecessor fails both, or both of them or neither named an ORDER predecessor that was over
      by then with a code up to ACTIVE other than DONE. */
  lemma EarlyLateAgreement(s: Jd, h: Hist, g: nat, t: Jd, k: Hist, f: nat)
    requires HistInv(s, h) && HistInv(t, k) && PlainEnd(h, g) && PlainEnd(k, f)
    requires SamePred(h, h.entries[g].pre0, k, k.entries[f].pre0)
    requires SamePred(h, h.entries[g].pre1, k, k.entries[f].pre1)
    ensures (h.entries[g].end.code == DONE <==> k.entries[f].end.code == DONE) <==>
              AnyFailedData(h, h.entries[g])
              || (AnyEarlyStopped(h, h.entries[g]) <==> AnyEarlyStopped(k, k.entries[f]))
  {
    hide HistInv;
    FinalVerdict(s, h, g);
    FinalVerdict(t, k, f);
  }
}
