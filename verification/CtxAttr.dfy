/** The two-level attribute reference counts of mali_kbase_js_ctx_attr.c. */
module CtxAttr {
  import opened CoreReqs

  type Ctx = nat

  const ATTR_COMPUTE: nat := 0
  const ATTR_NON_COMPUTE: nat := 1
  const ATTR_COMPUTE_ALL_CORES: nat := 2
  const ATTR_COUNT: nat := 3

  type Attr = i: nat | i < ATTR_COUNT

  const S8_MAX: int := 127
  const U32_MAX: int := 0xFFFF_FFFF
  const MAX_RUNPOOL_CTXS: nat := 16

  /** The atom can run on a slot other than the first, and can use all cores. */
  predicate AllCores(r: CoreReq) {
    r & (REQ_CS | REQ_ONLY_COMPUTE | REQ_T) != 0 && r & (REQ_COHERENT_GROUP | REQ_SPECIFIC_COHERENT_GROUP) == 0
  }

  /** Whether an atom with these requirements carries the attribute. */
  predicate Carries(r: CoreReq, attr: Attr) {
    if attr == ATTR_COMPUTE then r & REQ_ONLY_COMPUTE != 0
    else if attr == ATTR_NON_COMPUTE then r & REQ_ONLY_COMPUTE == 0
    else AllCores(r)
  }

  /** By the numbers of the bits: COMPUTE goes with bit 10 (compute only), NON_COMPUTE without it, and
      COMPUTE_ALL_CORES with bit 1, 2 or 10 (compute shaders, tiling, compute only) unless bit 6 or
      11 restricts the atom to a coherent group. */
  lemma CarriesIs(r: CoreReq)
    ensures Carries(r, 0) <==> Bit(r, 10)
    ensures Carries(r, 1) <==> !Bit(r, 10)
    ensures Carries(r, 2) <==> (Bit(r, 1) || Bit(r, 2) || Bit(r, 10)) && !Bit(r, 6) && !Bit(r, 11)
  {
  }

  /** How many of the atoms carry the attribute. */
  ghost function Carriers(atoms: seq<CoreReq>, attr: Attr): (n: nat)
    ensures n <= |atoms|
  {
    if atoms == [] then 0
    else Carriers(atoms[..|atoms| - 1], attr) + if Carries(atoms[|atoms| - 1], attr) then 1 else 0
  }

  lemma {:induction false} CarriersDrop(atoms: seq<CoreReq>, i: nat, attr: Attr)
    requires i < |atoms|
    ensures Carriers(atoms[..i] + atoms[i + 1..], attr) == Carriers(atoms, attr) - if Carries(atoms[i], attr) then 1 else 0
  {
    var n := |atoms| - 1;
    if i == n {
      assert atoms[..i] + atoms[i + 1..] == atoms[..n];
    } else {
      CarriersDrop(atoms[..n], i, attr);
      var r := atoms[..i] + atoms[i + 1..];
      assert r[..|r| - 1] == atoms[..n][..i] + atoms[..n][i + 1..];
      assert r[|r| - 1] == atoms[n];
    }
  }

  /** The scheduled contexts that have the attribute. */
  ghost function Holders(scheduled: set<Ctx>, counts: map<Ctx, seq<int>>, attr: Attr): set<Ctx>
    requires scheduled <= counts.Keys && forall c :: c in counts ==> |counts[c]| == ATTR_COUNT
  {
    set c | c in scheduled && counts[c][attr] > 0
  }

  lemma HoldersFew(scheduled: set<Ctx>, counts: map<Ctx, seq<int>>, attr: Attr)
    requires scheduled <= counts.Keys && forall c :: c in counts ==> |counts[c]| == ATTR_COUNT
    ensures |Holders(scheduled, counts, attr)| <= |scheduled|
  {
    SubsetSize(Holders(scheduled, counts, attr), scheduled);
  }

  /** For each attribute, how many scheduled contexts have it. */
  ghost function RunCounts(scheduled: set<Ctx>, counts: map<Ctx, seq<int>>): (r: seq<int>)
    requires scheduled <= counts.Keys && forall c :: c in counts ==> |counts[c]| == ATTR_COUNT
    ensures |r| == ATTR_COUNT && forall attr: Attr :: r[attr] == |Holders(scheduled, counts, attr)|
  {
    seq(ATTR_COUNT, (i: int) requires 0 <= i < ATTR_COUNT => |Holders(scheduled, counts, i)|)
  }

  function One(b: bool): int {
    if b then 1 else 0
  }

  /** Changing one count of a context leaves the holders of the other attributes alone. */
  lemma OtherHolders(scheduled: set<Ctx>, counts: map<Ctx, seq<int>>, c: Ctx, attr: Attr, n: int, b: Attr)
    requires scheduled <= counts.Keys && c in counts && forall x :: x in counts ==> |counts[x]| == ATTR_COUNT
    ensures b != attr ==> Holders(scheduled, counts[c := counts[c][attr := n]], b) == Holders(scheduled, counts, b)
  {
  }

  /** It moves the context in or out of the holders of that attribute. */
  lemma OwnHolders(scheduled: set<Ctx>, counts: map<Ctx, seq<int>>, c: Ctx, attr: Attr, n: int)
    requires scheduled <= counts.Keys && c in counts && forall x :: x in counts ==> |counts[x]| == ATTR_COUNT
    ensures |Holders(scheduled, counts[c := counts[c][attr := n]], attr)| ==
      |Holders(scheduled, counts, attr)| + One(c in scheduled && n > 0) - One(c in scheduled && counts[c][attr] > 0)
  {
    var h, h' := Holders(scheduled, counts, attr), Holders(scheduled, counts[c := counts[c][attr := n]], attr);
    assert c in h <==> c in scheduled && counts[c][attr] > 0;
    assert h' == if c in scheduled && n > 0 then h + {c} else h - {c};
  }

  /** Changing one count of a context changes the number of holders of that attribute only. */
  lemma CountChanges(scheduled: set<Ctx>, counts: map<Ctx, seq<int>>, c: Ctx, attr: Attr, n: int)
    requires scheduled <= counts.Keys && c in counts && forall x :: x in counts ==> |counts[x]| == ATTR_COUNT
    ensures var r := RunCounts(scheduled, counts);
            RunCounts(scheduled, counts[c := counts[c][attr := n]]) ==
              r[attr := r[attr] + One(c in scheduled && n > 0) - One(c in scheduled && counts[c][attr] > 0)]
  {
    hide Holders;
    var r, r' := RunCounts(scheduled, counts), RunCounts(scheduled, counts[c := counts[c][attr := n]]);
    var m := r[attr] + One(c in scheduled && n > 0) - One(c in scheduled && counts[c][attr] > 0);
    OwnHolders(scheduled, counts, c, attr, n);
    forall b: Attr
      ensures r'[b] == r[attr := m][b]
    {
      OtherHolders(scheduled, counts, c, attr, n, b);
    }
    assert r' == r[attr := m];
  }

  /** Scheduling a context in adds it to the holders of the attributes it has. */
  lemma ScheduledIn(scheduled: set<Ctx>, counts: map<Ctx, seq<int>>, c: Ctx, attr: Attr)
    requires scheduled + {c} <= counts.Keys && c !in scheduled && forall x :: x in counts ==> |counts[x]| == ATTR_COUNT
    ensures RunCounts(scheduled + {c}, counts)[attr] == RunCounts(scheduled, counts)[attr] + One(counts[c][attr] > 0)
  {
    var h := Holders(scheduled, counts, attr);
    assert Holders(scheduled + {c}, counts, attr) == if counts[c][attr] > 0 then h + {c} else h;
  }

  lemma SubsetSize(a: set<Ctx>, b: set<Ctx>)
    requires a <= b
    ensures |a| <= |b|
  {
    assert b == a + (b - a);
  }

  class Runpool {
    var runpool: seq<int>
    var counts: map<Ctx, seq<int>>
    var scheduled: set<Ctx>
    /** the atoms that each context has retained and not yet released */
    ghost var atoms: map<Ctx, seq<CoreReq>>

    ghost predicate Sized()
      reads this
    {
      && |runpool| == ATTR_COUNT && scheduled <= counts.Keys == atoms.Keys
      && (forall c :: c in counts ==> |counts[c]| == ATTR_COUNT)
    }

    /** The runpool counts, for each attribute, the scheduled contexts that have it, and a
        context counts its live atoms that carry it. */
    ghost predicate Valid()
      reads this
    {
      && Sized() && |scheduled| <= MAX_RUNPOOL_CTXS
      && runpool == RunCounts(scheduled, counts)
      && (forall c, attr: Attr :: c in counts ==> counts[c][attr] == Carriers(atoms[c], attr))
    }

    constructor ()
      ensures Valid() && counts == map[] && scheduled == {} && runpool == [0, 0, 0]
    {
      runpool, counts, scheduled, atoms := [0, 0, 0], map[], {}, map[];
    }

    method CreateContext(c: Ctx)
      requires Valid() && c !in counts
      modifies this
      ensures Valid() && counts == old(counts)[c := [0, 0, 0]] && scheduled == old(scheduled) && runpool == old(runpool)
      ensures atoms == old(atoms)[c := []]
    {
      counts, atoms := counts[c := [0, 0, 0]], atoms[c := []];
      forall attr: Attr
        ensures runpool[attr] == RunCounts(scheduled, counts)[attr]
      {
        assert Holders(scheduled, counts, attr) == old(Holders(scheduled, counts, attr));
      }
    }

    predicate IsAttrOnCtx(c: Ctx, attr: Attr)
      reads this
      requires Sized() && c in counts
    {
      counts[c][attr] != 0
    }

    /** kbasep_js_ctx_attr_runpool_retain_attr; the assertions are its own. */
    method RunpoolRetainAttr(c: Ctx, attr: Attr) returns (changed: bool)
      requires Sized() && c in scheduled && 0 <= runpool[attr] < S8_MAX
      modifies this`runpool
      ensures runpool == if counts[c][attr] != 0 then old(runpool)[attr := old(runpool[attr]) + 1] else old(runpool)
      ensures changed <==> old(runpool[attr]) == 0 && runpool[attr] > 0
    {
      changed := false;
      if IsAttrOnCtx(c, attr) {
        assert runpool[attr] < S8_MAX;
        runpool := runpool[attr := runpool[attr] + 1];
        if runpool[attr] == 1 {
          changed := true;
        }
      }
    }

    /** kbasep_js_ctx_attr_runpool_release_attr; the assertions are its own. */
    method RunpoolReleaseAttr(c: Ctx, attr: Attr) returns (changed: bool)
      requires Sized() && c in scheduled && (IsAttrOnCtx(c, attr) ==> runpool[attr] > 0)
      modifies this`runpool
      ensures runpool == if counts[c][attr] != 0 then old(runpool)[attr := old(runpool[attr]) - 1] else old(runpool)
      ensures changed <==> old(runpool[attr]) > 0 && runpool[attr] == 0
    {
      changed := false;
      if IsAttrOnCtx(c, attr) {
        assert runpool[attr] > 0;
        runpool := runpool[attr := runpool[attr] - 1];
        if runpool[attr] == 0 {
          changed := true;
        }
      }
    }

    /** kbasep_js_ctx_attr_ctx_retain_attr */
    method CtxRetainAttr(c: Ctx, attr: Attr) returns (changed: bool)
      requires Sized() && |scheduled| <= MAX_RUNPOOL_CTXS && c in counts && 0 <= counts[c][attr] < U32_MAX
      requires runpool == RunCounts(scheduled, counts)
      modifies this`runpool, this`counts
      ensures Sized() && counts == old(counts)[c := old(counts[c])[attr := old(counts[c][attr]) + 1]]
      ensures runpool == RunCounts(scheduled, counts) && runpool == old(runpool)[attr := runpool[attr]]
      ensures changed <==> old(runpool[attr]) == 0 && runpool[attr] > 0
    {
      CountChanges(scheduled, counts, c, attr, counts[c][attr] + 1);
      HoldersFew(scheduled, counts, attr);
      changed := false;
      counts := counts[c := counts[c][attr := counts[c][attr] + 1]];
      if c in scheduled && counts[c][attr] == 1 {
        changed := RunpoolRetainAttr(c, attr);
      }
    }

    /** kbasep_js_ctx_attr_ctx_release_attr */
    method CtxReleaseAttr(c: Ctx, attr: Attr) returns (changed: bool)
      requires Sized() && c in counts && counts[c][attr] > 0
      requires runpool == RunCounts(scheduled, counts)
      modifies this`runpool, this`counts
      ensures Sized() && counts == old(counts)[c := old(counts[c])[attr := old(counts[c][attr]) - 1]]
      ensures runpool == RunCounts(scheduled, counts) && runpool == old(runpool)[attr := runpool[attr]]
      ensures changed <==> old(runpool[attr]) > 0 && runpool[attr] == 0
    {
      CountChanges(scheduled, counts, c, attr, counts[c][attr] - 1);
      changed := false;
      if c in scheduled && counts[c][attr] == 1 {
        assert c in Holders(scheduled, counts, attr);
        changed := RunpoolReleaseAttr(c, attr);
      }
      counts := counts[c := counts[c][attr := counts[c][attr] - 1]];
    }

    /** The context is scheduled in, and kbasep_js_ctx_attr_runpool_retain_ctx is called. */
    method RunpoolRetainCtx(c: Ctx)
      requires Valid() && c in counts && c !in scheduled && |scheduled| < MAX_RUNPOOL_CTXS
      modifies this`scheduled, this`runpool
      ensures Valid() && scheduled == old(scheduled) + {c}
    {
      hide Holders, Carriers;
      ghost var before := scheduled;
      scheduled := scheduled + {c};
      for i := 0 to ATTR_COUNT
        invariant Sized() && scheduled == before + {c}
        invariant forall attr: Attr :: attr < i ==> runpool[attr] == RunCounts(scheduled, counts)[attr]
        invariant forall attr: Attr :: attr >= i ==> runpool[attr] == RunCounts(before, counts)[attr]
      {
        ScheduledIn(before, counts, c, i);
        HoldersFew(before, counts, i);
        CountsNatural(c, i);
        if IsAttrOnCtx(c, i) {
          var changed := RunpoolRetainAttr(c, i);
        }
      }
    }

    lemma CountsNatural(c: Ctx, attr: Attr)
      requires Sized() && (forall c, attr: Attr :: c in counts ==> counts[c][attr] == Carriers(atoms[c], attr))
      requires c in counts
      ensures counts[c][attr] >= 0
    {
    }

    /** kbasep_js_ctx_attr_runpool_release_ctx is called, and the context is scheduled out.
        The result tells whether some attribute is gone from the runpool. */
    method RunpoolReleaseCtx(c: Ctx) returns (changed: bool)
      requires Valid() && c in scheduled
      modifies this`scheduled, this`runpool
      ensures Valid() && scheduled == old(scheduled) - {c}
      ensures changed <==> exists attr: Attr :: old(runpool[attr]) > 0 && runpool[attr] == 0
    {
      hide Holders, Carriers;
      changed := false;
      ghost var after := scheduled - {c};
      assert after + {c} == scheduled;
      for i := 0 to ATTR_COUNT
        invariant Sized() && scheduled == old(scheduled)
        invariant forall attr: Attr :: attr < i ==> runpool[attr] == RunCounts(after, counts)[attr]
        invariant forall attr: Attr :: attr >= i ==> runpool[attr] == RunCounts(scheduled, counts)[attr]
        invariant changed <==> exists attr: Attr :: attr < i && old(runpool[attr]) > 0 && runpool[attr] == 0
      {
        ScheduledIn(after, counts, c, i);
        CountsNatural(c, i);
        if IsAttrOnCtx(c, i) {
          var gone := RunpoolReleaseAttr(c, i);
          changed := changed || gone;
        }
      }
      scheduled := scheduled - {c};
    }

    /** The counts of a context after an atom has come or gone. */
    ghost predicate Shifted(before: seq<int>, now: seq<int>, r: CoreReq, delta: int) {
      && |before| == ATTR_COUNT && |now| == ATTR_COUNT
      && forall attr: Attr :: now[attr] == before[attr] + (if Carries(r, attr) then delta else 0)
    }

    /** kbasep_js_ctx_attr_ctx_retain_atom */
    method CtxRetainAtom(c: Ctx, r: CoreReq)
      requires Valid() && c in counts && |atoms[c]| < U32_MAX
      modifies this`runpool, this`counts, this`atoms
      ensures Valid() && atoms == old(atoms)[c := old(atoms[c]) + [r]]
    {
      ghost var before := counts[c];
      var changed := RetainAttrs(c, r);
      atoms := atoms[c := atoms[c] + [r]];
      assert atoms[c][..|atoms[c]| - 1] == old(atoms[c]);
    }

    method RetainAttrs(c: Ctx, r: CoreReq) returns (changed: bool)
      requires Sized() && |scheduled| <= MAX_RUNPOOL_CTXS && runpool == RunCounts(scheduled, counts) && c in counts
      requires forall attr: Attr :: 0 <= counts[c][attr] < U32_MAX
      modifies this`runpool, this`counts
      ensures Sized() && runpool == RunCounts(scheduled, counts)
      ensures counts == old(counts)[c := counts[c]] && Shifted(old(counts[c]), counts[c], r, 1)
    {
      hide Holders, Carriers;
      if r & REQ_ONLY_COMPUTE != 0 {
        changed := CtxRetainAttr(c, ATTR_COMPUTE);
      } else {
        changed := CtxRetainAttr(c, ATTR_NON_COMPUTE);
      }
      if AllCores(r) {
        var more := CtxRetainAttr(c, ATTR_COMPUTE_ALL_CORES);
        changed := changed || more;
      }
    }

    method ReleaseAttrs(c: Ctx, r: CoreReq) returns (changed: bool)
      requires Sized() && runpool == RunCounts(scheduled, counts) && c in counts
      requires forall attr: Attr :: Carries(r, attr) ==> counts[c][attr] > 0
      modifies this`runpool, this`counts
      ensures Sized() && runpool == RunCounts(scheduled, counts)
      ensures counts == old(counts)[c := counts[c]] && Shifted(old(counts[c]), counts[c], r, -1)
      ensures changed <==> exists attr: Attr :: old(runpool[attr]) > 0 && runpool[attr] == 0
    {
      hide Holders, Carriers;
      if r & REQ_ONLY_COMPUTE != 0 {
        assert Carries(r, ATTR_COMPUTE);
        changed := CtxReleaseAttr(c, ATTR_COMPUTE);
      } else {
        assert Carries(r, ATTR_NON_COMPUTE);
        changed := CtxReleaseAttr(c, ATTR_NON_COMPUTE);
      }
      if AllCores(r) {
        assert Carries(r, ATTR_COMPUTE_ALL_CORES);
        var more := CtxReleaseAttr(c, ATTR_COMPUTE_ALL_CORES);
        changed := changed || more;
      }
    }

    /** kbasep_js_ctx_attr_ctx_release_atom, for retained state number i of the context or
        for an invalid one. The result tells whether some attribute is gone from the runpool. */
    method CtxReleaseAtom(c: Ctx, i: nat, r: CoreReq, valid: bool) returns (changed: bool)
      requires Valid() && c in counts && (valid ==> i < |atoms[c]| && atoms[c][i] == r)
      modifies this`runpool, this`counts, this`atoms
      ensures Valid()
      ensures atoms == if valid then old(atoms)[c := old(atoms[c])[..i] + old(atoms[c])[i + 1..]] else old(atoms)
      ensures changed <==> exists attr: Attr :: old(runpool[attr]) > 0 && runpool[attr] == 0
    {
      if !valid {
        return false;
      }
      ghost var left := atoms[c][..i] + atoms[c][i + 1..];
      forall attr: Attr
        ensures Carriers(left, attr) == counts[c][attr] - if Carries(r, attr) then 1 else 0
      {
        CarriersDrop(atoms[c], i, attr);
      }
      changed := ReleaseAttrs(c, r);
      atoms := atoms[c := left];
    }
  }
}
