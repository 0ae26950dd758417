/** The coherent core groups of kbase_gpuprops_construct_coherent_groups. */
module CoherentGroups {
  type Mask = bv64

  const MAX_COHERENT_GROUPS: nat := 16
  const GROUPS_L2_COHERENT: bv32 := 0x1

  // ------------------------------------------------------- bits of a mask

  function Odd(x: Mask): bool {
    x & 1 == 1
  }

  function Half(x: Mask): Mask {
    x >> 1
  }

  /** The lowest bit that is set, or 0. */
  function LowBit(x: Mask): Mask {
    x & !(x - 1)
  }

  function Clear(x: Mask, bit: Mask): Mask {
    x - bit
  }

  /** hweight64 */
  function Weight(x: Mask): nat
    decreases x
  {
    if x == 0 then 0
    else
      HalfShrinks(x);
      (if Odd(x) then 1 else 0) + Weight(Half(x))
  }

  lemma HalfShrinks(x: Mask)
    requires x != 0
    ensures Half(x) < x
  {
  }

  lemma WeightUnfold(x: Mask)
    ensures Weight(x) == (if Odd(x) then 1 else 0) + Weight(Half(x))
  {
  }

  lemma OddStep(x: Mask)
    requires Odd(x)
    ensures !Odd(Clear(x, LowBit(x))) && Half(Clear(x, LowBit(x))) == Half(x)
  {
  }

  lemma EvenStep(x: Mask)
    requires x != 0 && !Odd(x)
    ensures Half(x) != 0 && !Odd(Clear(x, LowBit(x)))
    ensures Half(Clear(x, LowBit(x))) == Clear(Half(x), LowBit(Half(x)))
  {
  }

  /** The position above the highest bit that is set. */
  ghost function Width(x: Mask): nat
    decreases x
  {
    if x == 0 then 0
    else
      HalfShrinks(x);
      1 + Width(Half(x))
  }

  lemma WidthShrinks(x: Mask)
    requires x != 0
    ensures Width(Half(x)) < Width(x)
  {
  }

  /** Taking away the lowest bit takes away one bit. */
  lemma {:induction false} WeightWithoutLowBit(x: Mask)
    requires x != 0
    ensures Weight(x) == 1 + Weight(Clear(x, LowBit(x)))
    decreases Width(x)
  {
    hide Weight, Width, LowBit, Clear, Odd, Half;
    WidthShrinks(x);
    WeightUnfold(x);
    WeightUnfold(Clear(x, LowBit(x)));
    if Odd(x) {
      OddStep(x);
    } else {
      EvenStep(x);
      WeightWithoutLowBit(Half(x));
    }
  }

  // -------------------------------------------------------- masks in order

  /** The cores of s from position f up to but not including f'; 0 stands for no limit. */
  function Window(f: Mask, f': Mask, s: Mask): Mask {
    (f' - 1) & !(f - 1) & s
  }

  function Or(a: Mask, b: Mask): Mask {
    a | b
  }

  /** Position f is not above f'. */
  predicate Upto(f: Mask, f': Mask) {
    (f - 1) & (f' - 1) == f - 1
  }

  predicate Disjoint(a: Mask, b: Mask) {
    a & b == 0
  }

  /** All bits of a lie below all bits of b. */
  predicate Below(a: Mask, b: Mask) {
    a == 0 || b == 0 || a < LowBit(b)
  }

  /** All bits of a lie below position f. */
  predicate Under(a: Mask, f: Mask) {
    a & !(f - 1) == 0
  }

  /** The next group starts above the start of this one. */
  lemma NextStart(g: Mask)
    requires g != 0
    ensures Upto(LowBit(g), LowBit(Clear(g, LowBit(g))))
  {
  }

  lemma UptoTrans(lo: Mask, f: Mask, f': Mask)
    requires Upto(lo, f) && Upto(f, f')
    ensures Upto(lo, f')
  {
  }

  lemma WindowsJoin(lo: Mask, f: Mask, f': Mask, s: Mask)
    requires Upto(lo, f) && Upto(f, f')
    ensures Or(Window(lo, f, s), Window(f, f', s)) == Window(lo, f', s)
  {
  }

  lemma WindowToTop(f: Mask, s: Mask)
    ensures Window(f, 0, s) == s & !(f - 1)
  {
  }

  lemma WindowEmpty(f: Mask, s: Mask)
    ensures Window(f, f, s) == 0 && Upto(f, f)
  {
  }

  lemma WindowUnder(f: Mask, f': Mask, s: Mask)
    ensures Under(Window(f, f', s), f')
  {
  }

  lemma UnderUpto(a: Mask, f: Mask, f': Mask)
    requires Under(a, f) && Upto(f, f')
    ensures Under(a, f')
  {
  }

  /** What lies under the lowest bit of g is disjoint from and below a window that starts there. */
  lemma Separate(a: Mask, g: Mask, f': Mask, s: Mask)
    requires g != 0 && Under(a, LowBit(g))
    ensures Disjoint(a, Window(LowBit(g), f', s)) && Below(a, Window(LowBit(g), f', s))
  {
  }

  /** g without its n lowest bits. */
  ghost function Rest(g: Mask, n: nat): Mask {
    if n == 0 then g else Clear(Rest(g, n - 1), LowBit(Rest(g, n - 1)))
  }

  /** Bit number n of g, counted from below, or 0. */
  ghost function Start(g: Mask, n: nat): Mask {
    LowBit(Rest(g, n))
  }

  lemma RestStep(g: Mask, n: nat)
    ensures Rest(g, 0) == g && Rest(g, n + 1) == Clear(Rest(g, n), LowBit(Rest(g, n)))
  {
    hide Clear, LowBit;
  }

  // ---------------------------------------------------------------- groups

  ghost function Union(ms: seq<Mask>): Mask {
    if ms == [] then 0 else Or(Union(ms[..|ms| - 1]), ms[|ms| - 1])
  }

  lemma UnionNil()
    ensures Union([]) == 0
  {
  }

  lemma UnionAdd(ms: seq<Mask>, m: Mask)
    ensures Union(ms + [m]) == Or(Union(ms), m)
  {
    hide Or;
    assert (ms + [m])[..|ms|] == ms;
  }

  /** The masks are pairwise disjoint, and each lies below the later ones. */
  ghost predicate Ascending(ms: seq<Mask>) {
    forall i, j :: 0 <= i < j < |ms| ==> Disjoint(ms[i], ms[j]) && Below(ms[i], ms[j])
  }

  ghost predicate AllUnder(ms: seq<Mask>, f: Mask) {
    forall i :: 0 <= i < |ms| ==> Under(ms[i], f)
  }

  /** The first groups of g: each takes the cores from one bit of g up to the next. */
  ghost predicate Groups(ms: seq<Mask>, g: Mask, s: Mask) {
    && Ascending(ms) && AllUnder(ms, Start(g, |ms|)) && Upto(LowBit(g), Start(g, |ms|))
    && Union(ms) == Window(LowBit(g), Start(g, |ms|), s)
    && forall i :: 0 <= i < |ms| ==> ms[i] == Window(Start(g, i), Start(g, i + 1), s)
  }

  /** One more group keeps the masks disjoint and in order. */
  lemma InOrderStep(ms: seq<Mask>, r: Mask, f': Mask, s: Mask)
    requires r != 0 && Upto(LowBit(r), f') && Ascending(ms) && AllUnder(ms, LowBit(r))
    ensures Ascending(ms + [Window(LowBit(r), f', s)]) && AllUnder(ms + [Window(LowBit(r), f', s)], f')
  {
    hide LowBit, Under, Below, Disjoint, Window, Upto;
    var m := Window(LowBit(r), f', s);
    WindowUnder(LowBit(r), f', s);
    forall i | 0 <= i < |ms|
      ensures Under(ms[i], f') && Disjoint(ms[i], m) && Below(ms[i], m)
    {
      UnderUpto(ms[i], LowBit(r), f');
      Separate(ms[i], r, f', s);
    }
  }

  lemma GroupsStep(ms: seq<Mask>, g: Mask, s: Mask)
    requires Groups(ms, g, s) && Rest(g, |ms|) != 0
    ensures Groups(ms + [Window(Start(g, |ms|), Start(g, |ms| + 1), s)], g, s)
  {
    hide LowBit, Under, Below, Disjoint, Window, Upto, Or, Clear, Rest, Union, Ascending, AllUnder;
    var n := |ms|;
    RestStep(g, n);
    NextStart(Rest(g, n));
    InOrderStep(ms, Rest(g, n), Start(g, n + 1), s);
    UptoTrans(LowBit(g), Start(g, n), Start(g, n + 1));
    WindowsJoin(LowBit(g), Start(g, n), Start(g, n + 1), s);
    UnionAdd(ms, Window(Start(g, n), Start(g, n + 1), s));
  }

  lemma GroupsStart(g: Mask, s: Mask)
    ensures Groups([], g, s)
  {
    hide LowBit, Window, Upto, Or;
    RestStep(g, 0);
    UnionNil();
    WindowEmpty(LowBit(g), s);
  }

  /** The cores of s from position f on. */
  function From(f: Mask, s: Mask): Mask {
    s & !(f - 1)
  }

  /** Without a bit of g left, the groups cover all cores from the lowest bit of g on. */
  lemma GroupsCover(ms: seq<Mask>, g: Mask, s: Mask)
    requires Groups(ms, g, s) && Rest(g, |ms|) == 0
    ensures Union(ms) == if g == 0 then 0 else From(LowBit(g), s)
  {
    hide Union, Ascending, AllUnder, Rest;
    NoBits();
    WindowToTop(LowBit(g), s);
    WindowEmpty(0, s);
  }

  lemma NoBits()
    ensures Weight(0) == 0 && LowBit(0) == 0
  {
  }

  datatype CoherencyInfo = CoherencyInfo(coherency: bv32, numCoreGroups: nat, coreMask: seq<Mask>, numCores: seq<nat>)

  lemma L2Bit(memFeatures: bv32)
    ensures memFeatures & GROUPS_L2_COHERENT != 0 <==> memFeatures & 1 == 1
  {
  }

  /** Core c, one bit, is in the group from start f up to f' exactly if it is present, not below f,
      and below f', where 0 stands for no limit. */
  lemma WindowIs(f: Mask, f': Mask, s: Mask, c: Mask)
    requires c & (c - 1) == 0
    ensures Window(f, f', s) & c != 0 <==> s & c != 0 && (f - 1) & c == 0 && (f' - 1) & c != 0
  {
    hide Window;
    WindowBetween(f, f', f - 1, f' - 1, s, c);
  }

  lemma WindowBetween(f: Mask, f': Mask, a: Mask, b: Mask, s: Mask, c: Mask)
    requires c & (c - 1) == 0 && a == f - 1 && b == f' - 1
    ensures Window(f, f', s) & c != 0 <==> s & c != 0 && a & c == 0 && b & c != 0
  {
    WindowOf(f, f', a, b, s);
    hide Window;
    Picked(a, b, s, c);
  }

  lemma WindowOf(f: Mask, f': Mask, a: Mask, b: Mask, s: Mask)
    requires a == f - 1 && b == f' - 1
    ensures Window(f, f', s) == b & !a & s
  {
  }

  lemma Picked(a: Mask, b: Mask, s: Mask, c: Mask)
    requires c & (c - 1) == 0
    ensures b & !a & s & c != 0 <==> s & c != 0 && a & c == 0 && b & c != 0
  {
    OneBit(c, s);
    OneBit(c, a);
    OneBit(c, b);
    Gather(a, b, s, c);
    PickOne(a & c, b & c, s & c, c);
  }

  lemma PickOne(x: Mask, y: Mask, z: Mask, c: Mask)
    requires (x == 0 || x == c) && (y == 0 || y == c) && (z == 0 || z == c)
    ensures y & (z & !x) == (if z == c && x == 0 && y == c then c else 0)
  {
  }

  lemma OneBit(c: Mask, m: Mask)
    requires c & (c - 1) == 0
    ensures m & c == 0 || m & c == c
  {
  }

  lemma Gather(a: Mask, b: Mask, s: Mask, c: Mask)
    ensures (b & !a & s) & c == (b & c) & ((s & c) & !(a & c))
  {
  }

  /** kbase_gpuprops_construct_coherent_groups. Groups start at every level-2 cache if these share
      one, which bit 0 of the memory features tells, or else at every core. */
  method ConstructCoherentGroups(memFeatures: bv32, l2Present: Mask, shaderPresent: Mask) returns (info: CoherencyInfo)
    ensures info.coherency == memFeatures && info.numCoreGroups == Weight(l2Present)
    ensures var g, n := if memFeatures & 1 == 1 then l2Present else shaderPresent, |info.coreMask|;
      && n == (if Weight(g) < 16 then Weight(g) else 16)
      && Groups(info.coreMask, g, shaderPresent)
      && n == |info.numCores| && (forall i :: 0 <= i < n ==> info.numCores[i] == Weight(info.coreMask[i]))
      && (Weight(g) <= 16 ==> Union(info.coreMask) == if g == 0 then 0 else From(LowBit(g), shaderPresent))
  {
    hide Weight, LowBit, Window, Clear, Union, Rest, Groups, From;
    var g0 := if memFeatures & GROUPS_L2_COHERENT != 0 then l2Present else shaderPresent;
    L2Bit(memFeatures);
    var groupPresent, firstSet := g0, LowBit(g0);
    var coreMask: seq<Mask>, numCores: seq<nat> := [], [];
    GroupsStart(g0, shaderPresent);
    RestStep(g0, 0);
    while groupPresent != 0 && |coreMask| < MAX_COHERENT_GROUPS
      invariant |coreMask| <= MAX_COHERENT_GROUPS && Weight(groupPresent) + |coreMask| == Weight(g0)
      invariant groupPresent == Rest(g0, |coreMask|) && firstSet == LowBit(groupPresent)
      invariant Groups(coreMask, g0, shaderPresent)
      invariant |numCores| == |coreMask| && forall i :: 0 <= i < |coreMask| ==> numCores[i] == Weight(coreMask[i])
      decreases MAX_COHERENT_GROUPS - |coreMask|
    {
      WeightWithoutLowBit(groupPresent);
      RestStep(g0, |coreMask|);
      GroupsStep(coreMask, g0, shaderPresent);
      groupPresent := Clear(groupPresent, firstSet);
      var firstSetPrev := firstSet;
      firstSet := LowBit(groupPresent);
      var mask := Window(firstSetPrev, firstSet, shaderPresent);
      coreMask, numCores := coreMask + [mask], numCores + [Weight(mask)];
    }
    NoBits();
    if groupPresent != 0 {
      WeightWithoutLowBit(groupPresent);
    } else {
      GroupsCover(coreMask, g0, shaderPresent);
    }
    info := CoherencyInfo(memFeatures, Weight(l2Present), coreMask, numCores);
  }
}
