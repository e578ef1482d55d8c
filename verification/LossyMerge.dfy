/**
  Parent links when acceptances of MERGEs get lost. The link to a requester that has not heard of its
  acceptance is level, so heights no longer rule out cycles by themselves; but only roots are asked for, and
  that is enough.
 */
module LossyMerge {
  import opened Basics
  import opened Versions
  import opened VaultNode
  import opened Vault

  /** A step as before, or only the target's half of a MERGE. */
  datatype LossyStep = Whole(step: Step) | HalfMerge(root: NodeID, target: NodeID, version: Version, rootAddr: Addr)

  predicate CanHappen(w: World, s: LossyStep) {
    match s
    case Whole(step) => Enabled(w, step)
    case HalfMerge(r, t, _, _) => r in w.vks && t in w.vks && r != t && IsRoot(w.vks[r])
  }

  function Happen(w: World, s: LossyStep): World
    requires CanHappen(w, s)
  {
    match s
    case Whole(step) => Take(w, step)
    case HalfMerge(r, t, version, rAddr) => w.(vks := w.vks[t := OfferMerge(w, r, t, version, rAddr).0])
  }

  // ---- heights do not fall along parent links -----------------------------------------------------

  /** The parent is higher, or level and with room to rise. */
  predicate LinkHolds(w: World, v: NodeID)
    requires v in w.vks
  {
    var p := w.vks[v].parentID;
    && (w.vks[v].parentAddr.Some? <==> p != 0)
    && (p == 0 || (p in w.vks && (w.vks[p].height > w.vks[v].height
                                  || w.vks[p].height == w.vks[v].height < MAX_UINT16)))
  }

  ghost predicate NotFalling(w: World) {
    && Named(w)
    && (forall v {:trigger LinkHolds(w, v)} | v in w.vks :: LinkHolds(w, v))
    && (forall m | m in w.wire :: m.from in w.vks && m.newHeight < w.vks[m.from].height)
  }

  /** A step that lowers no height only has to account for the links and heights it changes. */
  lemma NotFallingKept(w: World, w': World)
    requires NotFalling(w) && Named(w') && HeightsGrow(w, w')
    requires forall v {:trigger LinkHolds(w', v)} | v in w.vks ::
               LinkHolds(w', v) || (w'.vks[v].height == w.vks[v].height && w'.vks[v].parentID == w.vks[v].parentID
                                    && w'.vks[v].parentAddr == w.vks[v].parentAddr)
    requires forall m | m in w'.wire :: m in w.wire || (m.from in w.vks && m.newHeight < w'.vks[m.from].height)
    ensures NotFalling(w')
  {
    forall v | v in w'.vks
      ensures LinkHolds(w', v)
    {
      assert LinkHolds(w, v);
    }
  }

  lemma LocalHolds(w: World, v: NodeID, e: Event)
    requires NotFalling(w) && Enabled(w, Local(v, e))
    ensures NotFalling(Take(w, Local(v, e)))
  {
    LocalKeepsStructure(w.vks[v], e);
    assert LinkHolds(w, v);
    NotFallingKept(w, Take(w, Local(v, e)));
  }

  lemma JoinHolds(w: World, c: NodeID, p: NodeID, version: Version, cAddr: Addr, pAddr: Addr)
    requires NotFalling(w) && c in w.vks && p in w.vks && c != p
    ensures NotFalling(TakeJoin(w, c, p, version, cAddr, pAddr))
  {
    JoinLinks(w, c, p, version, cAddr, pAddr);
    JoinAddresses(w, c, p, version, cAddr, pAddr);
    assert LinkHolds(w, c) && LinkHolds(w, p);
    NotFallingKept(w, TakeJoin(w, c, p, version, cAddr, pAddr));
  }

  lemma JoinAddresses(w: World, c: NodeID, p: NodeID, version: Version, cAddr: Addr, pAddr: Addr)
    requires c in w.vks && p in w.vks && c != p
    ensures var w' := TakeJoin(w, c, p, version, cAddr, pAddr);
            && p in w'.vks && c in w'.vks && w'.vks[p].parentAddr == w.vks[p].parentAddr
            && (w'.vks[c] == w.vks[c] || (w'.vks[c].parentID == p && w'.vks[c].parentAddr.Some?))
  {
  }

  /** What a MERGE by r does to its target: nothing to its links, or it drops r, or it takes r as parent. */
  lemma TargetLinks(n: Node, r: NodeID, version: Version, h: uint16, rAddr: Addr)
    requires r != 0 && (n.parentAddr.Some? <==> n.parentID != 0)
    requires n.parentID == r && n.height == h ==> n.height < MAX_UINT16
    ensures var (n', reply) := ServeMerge(n, Request(false, version, r),
                                          Present(MergeBody(h, Some(Some(rAddr)))), None);
            && n'.id == n.id && n'.height == n.height
            && (reply.Accepted? ==> n'.parentID == r && n'.parentAddr.Some? && n.height == h < MAX_UINT16)
            && (!reply.Accepted? ==> (n'.parentID == n.parentID && n'.parentAddr == n.parentAddr)
                                     || (n'.parentID == 0 && n'.parentAddr == None))
            && (reply.Accepted? && n.parentID != r ==> n.parentID == 0)
  {
  }

  lemma OfferHolds(w: World, r: NodeID, t: NodeID, version: Version, rAddr: Addr)
    requires NotFalling(w) && r in w.vks && t in w.vks && r != t
    ensures NotFalling(w.(vks := w.vks[t := OfferMerge(w, r, t, version, rAddr).0]))
  {
    assert LinkHolds(w, t);
    TargetLinks(w.vks[t], r, version, w.vks[r].height, rAddr);
    NotFallingKept(w, w.(vks := w.vks[t := OfferMerge(w, r, t, version, rAddr).0]));
  }

  lemma MergeHolds(w: World, r: NodeID, t: NodeID, version: Version, rAddr: Addr, tAddr: Addr)
    requires NotFalling(w) && r in w.vks && t in w.vks && r != t && IsRoot(w.vks[r])
    ensures NotFalling(TakeMerge(w, r, t, version, rAddr, tAddr))
  {
    OfferHolds(w, r, t, version, rAddr);
    if OfferMerge(w, r, t, version, rAddr).1.Accepted? {
      var w1 := w.(vks := w.vks[t := OfferMerge(w, r, t, version, rAddr).0]);
      assert LinkHolds(w, t) && LinkHolds(w1, r);
      TargetLinks(w.vks[t], r, version, w.vks[r].height, rAddr);
      RequesterLinks(w.vks[r], t, tAddr);
      NotFallingKept(w1, TakeMerge(w, r, t, version, rAddr, tAddr));
    }
  }

  lemma RequesterLinks(n: Node, t: NodeID, tAddr: Addr)
    requires n.height < MAX_UINT16
    ensures var (n', sent, _) := MergeAccepted(n, t, tAddr);
            && n'.id == n.id && n'.height == n.height + 1
            && n'.parentID == n.parentID && n'.parentAddr == n.parentAddr
            && forall m | m in sent :: m.from == n.id && m.newHeight == n.height
  {
  }

  lemma DeliveryHolds(w: World, m: Increment, version: Version)
    requires NotFalling(w) && m in w.wire
    ensures NotFalling(TakeDelivery(w, m, version))
  {
    if m.dest in w.vks {
      DeliveryHeights(w, m, version);
      assert LinkHolds(w, m.dest);
    }
    NotFallingKept(w, TakeDelivery(w, m, version));
  }

  lemma StepHolds(w: World, s: LossyStep)
    requires NotFalling(w) && CanHappen(w, s)
    ensures NotFalling(Happen(w, s))
  {
    match s
    case Whole(Local(v, e)) => LocalHolds(w, v, e);
    case Whole(JoinVault(c, p, version, cAddr, pAddr)) => JoinHolds(w, c, p, version, cAddr, pAddr);
    case Whole(MergeVault(r, t, version, rAddr, tAddr)) => MergeHolds(w, r, t, version, rAddr, tAddr);
    case Whole(Deliver(m, version)) => DeliveryHolds(w, m, version);
    case Whole(Lose(m)) => NotFallingKept(w, Happen(w, s));
    case Whole(Repeat(m)) => NotFallingKept(w, Happen(w, s));
    case HalfMerge(r, t, version, rAddr) => OfferHolds(w, r, t, version, rAddr);
  }

  // ---- every chain of parents ends ----------------------------------------------------------------

  ghost predicate Ends(w: World, v: NodeID) {
    exists k: nat :: Up(w, v, k) == 0
  }

  ghost predicate AllEnd(w: World) {
    forall v | v in w.vks :: Ends(w, v)
  }

  lemma EndsAbove(w: World, v: NodeID)
    requires v in w.vks && Ends(w, w.vks[v].parentID)
    ensures Ends(w, v)
  {
    var k: nat :| Up(w, w.vks[v].parentID, k) == 0;
    UpShift(w, v, k);
    assert Up(w, v, k + 1) == 0;
  }

  /** Every link of `w'` but c's is one of `w`. */
  predicate OnlyRelinks(w: World, w': World, c: NodeID) {
    w'.vks.Keys == w.vks.Keys && 0 !in w.vks &&
    forall v | v in w.vks && v != c :: w'.vks[v].parentID in {w.vks[v].parentID, 0}
  }

  lemma ZeroEnds(w: World, v: NodeID)
    ensures v !in w.vks ==> Ends(w, v)
    ensures Ends(w, 0)
  {
    assert Up(w, 0, 0) == 0;
    assert v !in w.vks ==> Up(w, v, 0) == v && Up(w, v, 1) == 0;
  }

  /** A chain that ended and did not meet c still ends. */
  lemma {:induction false} AvoidingEnds(w: World, w': World, c: NodeID, v: NodeID, k: nat)
    requires OnlyRelinks(w, w', c) && Up(w, v, k) == 0 && forall j | 0 <= j < k :: Up(w, v, j) != c
    ensures Ends(w', v)
    decreases k
  {
    ZeroEnds(w', v);
    if v in w.vks && k > 0 {
      var p := w.vks[v].parentID;
      forall j | 0 <= j < k
        ensures Up(w, p, j) == Up(w, v, j + 1)
      {
        UpShift(w, v, j);
      }
      assert Up(w, v, 0) == v;
      AvoidingEnds(w, w', c, p, k - 1);
      EndsAbove(w', v);
    }
  }

  /** A chain that ended still ends if c's new one does. */
  lemma {:induction false} StillEnds(w: World, w': World, c: NodeID, v: NodeID, k: nat)
    requires OnlyRelinks(w, w', c) && Up(w, v, k) == 0 && Ends(w', c)
    ensures Ends(w', v)
    decreases k
  {
    ZeroEnds(w', v);
    if v in w.vks && v != c && k > 0 {
      UpShift(w, v, k - 1);
      StillEnds(w, w', c, w.vks[v].parentID, k - 1);
      EndsAbove(w', v);
    }
  }

  /** Linking c to a parent whose chain does not meet c keeps every chain ending. */
  lemma RelinkingKeepsEnds(w: World, w': World, c: NodeID, p: NodeID)
    requires AllEnd(w) && OnlyRelinks(w, w', c) && c in w.vks && p in w.vks
    requires w'.vks[c].parentID in {w.vks[c].parentID, p, 0} && forall j: nat :: Up(w, p, j) != c
    ensures AllEnd(w')
  {
    ZeroEnds(w', c);
    var k: nat :| Up(w, p, k) == 0;
    AvoidingEnds(w, w', c, p, k);
    if w'.vks[c].parentID in {p, 0} {
      EndsAbove(w', c);
    } else {
      OldLinkEnds(w, w', c);
    }
    forall v | v in w'.vks
      ensures Ends(w', v)
    {
      var i: nat :| Up(w, v, i) == 0;
      StillEnds(w, w', c, v, i);
    }
  }

  /** With its old parent c's chain ends as before: it does not come back to c. */
  lemma OldLinkEnds(w: World, w': World, c: NodeID)
    requires AllEnd(w) && OnlyRelinks(w, w', c) && c in w.vks && w'.vks[c].parentID == w.vks[c].parentID
    ensures Ends(w', c)
  {
    var k: nat :| Up(w, c, k) == 0;
    SameOrFewerEnd(w, w', c, k);
  }

  lemma {:induction false} SameOrFewerEnd(w: World, w': World, v: NodeID, k: nat)
    requires w'.vks.Keys == w.vks.Keys && Up(w, v, k) == 0
    requires forall x | x in w.vks :: w'.vks[x].parentID in {w.vks[x].parentID, 0}
    ensures Ends(w', v)
    decreases k
  {
    ZeroEnds(w', v);
    if v in w.vks && k > 0 {
      UpShift(w, v, k - 1);
      SameOrFewerEnd(w, w', w.vks[v].parentID, k - 1);
      EndsAbove(w', v);
    }
  }

  lemma FewerLinksEnd(w: World, w': World)
    requires AllEnd(w) && w'.vks.Keys == w.vks.Keys
    requires forall x | x in w.vks :: w'.vks[x].parentID in {w.vks[x].parentID, 0}
    ensures AllEnd(w')
  {
    forall v | v in w'.vks
      ensures Ends(w', v)
    {
      var k: nat :| Up(w, v, k) == 0;
      SameOrFewerEnd(w, w', v, k);
    }
  }

  // ---- steps keep chains ending -------------------------------------------------------------------

  lemma {:induction false} AncestorsAreNoLower(w: World, v: NodeID, j: nat)
    requires NotFalling(w) && v in w.vks && Up(w, v, j) in w.vks
    ensures w.vks[Up(w, v, j)].height >= w.vks[v].height
    decreases j
  {
    if j > 0 {
      ChainIsInside(w, v, j, j - 1);
      assert LinkHolds(w, Up(w, v, j - 1));
      AncestorsAreNoLower(w, v, j - 1);
    }
  }

  lemma JoinKeepsEnds(w: World, c: NodeID, p: NodeID, version: Version, cAddr: Addr, pAddr: Addr)
    requires NotFalling(w) && AllEnd(w) && c in w.vks && p in w.vks && c != p
    ensures AllEnd(TakeJoin(w, c, p, version, cAddr, pAddr))
  {
    var w' := TakeJoin(w, c, p, version, cAddr, pAddr);
    JoinLinks(w, c, p, version, cAddr, pAddr);
    if w'.vks[c].parentID == w.vks[c].parentID {
      FewerLinksEnd(w, w');
    } else {
      forall j: nat
        ensures Up(w, p, j) != c
      {
        if Up(w, p, j) == c {
          AncestorsAreNoLower(w, p, j);
        }
      }
      RelinkingKeepsEnds(w, w', c, p);
    }
  }

  lemma {:induction false} RootsChain(w: World, r: NodeID, j: nat)
    requires 0 !in w.vks && r in w.vks && IsRoot(w.vks[r])
    ensures Up(w, r, j) in {r, 0}
  {
    if j > 0 {
      RootsChain(w, r, j - 1);
    }
  }

  /** Whoever is linked under a root other than itself cannot be above that root. */
  lemma UnderARoot(w: World, w': World, r: NodeID, t: NodeID)
    requires AllEnd(w) && r in w.vks && t in w.vks && r != t && IsRoot(w.vks[r]) && OnlyRelinks(w, w', t)
    requires w'.vks[t].parentID in {w.vks[t].parentID, r, 0}
    ensures AllEnd(w')
  {
    forall j: nat
      ensures Up(w, r, j) != t
    {
      RootsChain(w, r, j);
    }
    RelinkingKeepsEnds(w, w', t, r);
  }

  lemma OfferKeepsEnds(w: World, r: NodeID, t: NodeID, version: Version, rAddr: Addr, w': World)
    requires NotFalling(w) && AllEnd(w) && r in w.vks && t in w.vks && r != t && IsRoot(w.vks[r])
    requires w'.vks.Keys == w.vks.Keys && w'.vks[t].parentID == OfferMerge(w, r, t, version, rAddr).0.parentID
    requires forall v | v in w.vks && v != t :: w'.vks[v].parentID == w.vks[v].parentID
    ensures AllEnd(w')
  {
    assert LinkHolds(w, t);
    TargetLinks(w.vks[t], r, version, w.vks[r].height, rAddr);
    UnderARoot(w, w', r, t);
  }

  lemma MergeKeepsEnds(w: World, r: NodeID, t: NodeID, version: Version, rAddr: Addr, tAddr: Addr)
    requires NotFalling(w) && AllEnd(w) && r in w.vks && t in w.vks && r != t && IsRoot(w.vks[r])
    ensures AllEnd(TakeMerge(w, r, t, version, rAddr, tAddr))
  {
    MergedHeights(w.vks[r], t, tAddr);
    OfferKeepsEnds(w, r, t, version, rAddr, TakeMerge(w, r, t, version, rAddr, tAddr));
  }

  lemma DeliveryKeepsEnds(w: World, m: Increment, version: Version)
    requires NotFalling(w) && AllEnd(w) && m in w.wire
    ensures AllEnd(TakeDelivery(w, m, version))
  {
    if m.dest in w.vks {
      DeliveryHeights(w, m, version);
    }
    FewerLinksEnd(w, TakeDelivery(w, m, version));
  }

  lemma StepKeepsEnds(w: World, s: LossyStep)
    requires NotFalling(w) && AllEnd(w) && CanHappen(w, s)
    ensures AllEnd(Happen(w, s))
  {
    match s
    case Whole(Local(v, e)) =>
      LocalKeepsStructure(w.vks[v], e);
      FewerLinksEnd(w, Happen(w, s));
    case Whole(JoinVault(c, p, version, cAddr, pAddr)) => JoinKeepsEnds(w, c, p, version, cAddr, pAddr);
    case Whole(MergeVault(r, t, version, rAddr, tAddr)) => MergeKeepsEnds(w, r, t, version, rAddr, tAddr);
    case Whole(Deliver(m, version)) => DeliveryKeepsEnds(w, m, version);
    case Whole(Lose(m)) => FewerLinksEnd(w, Happen(w, s));
    case Whole(Repeat(m)) => FewerLinksEnd(w, Happen(w, s));
    case HalfMerge(r, t, version, rAddr) => OfferKeepsEnds(w, r, t, version, rAddr, Happen(w, s));
  }

  // ---- every run ----------------------------------------------------------------------------------

  ghost predicate CanAllHappen(w: World, ss: seq<LossyStep>)
    decreases |ss|
  {
    ss == [] || (CanHappen(w, ss[0]) && CanAllHappen(Happen(w, ss[0]), ss[1..]))
  }

  function HappenAll(w: World, ss: seq<LossyStep>): World
    requires CanAllHappen(w, ss)
    decreases |ss|
  {
    if ss == [] then w else HappenAll(Happen(w, ss[0]), ss[1..])
  }

  lemma {:induction false} ChainsEndAlways(w: World, ss: seq<LossyStep>)
    requires NotFalling(w) && AllEnd(w) && CanAllHappen(w, ss)
    ensures NotFalling(HappenAll(w, ss)) && AllEnd(HappenAll(w, ss))
    decreases |ss|
  {
    if ss != [] {
      StepHolds(w, ss[0]);
      StepKeepsEnds(w, ss[0]);
      ChainsEndAlways(Happen(w, ss[0]), ss[1..]);
    }
  }

  /** Going round a cycle any number of times leads back to where it started, so it never ends. */
  lemma {:induction false} CyclesNeverEnd(w: World, v: NodeID, k: nat, i: nat)
    requires Named(w) && v in w.vks && k > 0 && Up(w, v, k) == v
    ensures Up(w, v, i) in w.vks
    decreases i
  {
    if i >= k {
      UpAdds(w, v, k, i - k);
      CyclesNeverEnd(w, v, k, i - k);
    } else {
      ChainIsInside(w, v, k, i);
    }
  }

  /**
    As long as only roots start MERGEs, no vaultkeeper ever becomes its own ancestor, even when
    acceptances of MERGEs and INCREMENTs are lost, late or repeated.
   */
  lemma NoCycleEver(w: World, ss: seq<LossyStep>, v: NodeID, k: nat)
    requires 0 !in w.vks && w.wire == multiset{}
    requires forall x | x in w.vks :: w.vks[x] == Fresh(x, w.vks[x].supported, w.vks[x].height)
    requires CanAllHappen(w, ss) && v in HappenAll(w, ss).vks && k > 0
    ensures Up(HappenAll(w, ss), v, k) != v
  {
    NewHolds(w);
    ChainsEndAlways(w, ss);
    var w' := HappenAll(w, ss);
    if Up(w', v, k) == v {
      var i: nat :| Up(w', v, i) == 0;
      CyclesNeverEnd(w', v, k, i);
    }
  }

  lemma NewHolds(w: World)
    requires 0 !in w.vks && w.wire == multiset{}
    requires forall x | x in w.vks :: w.vks[x] == Fresh(x, w.vks[x].supported, w.vks[x].height)
    ensures NotFalling(w) && AllEnd(w)
  {
    forall v | v in w.vks
      ensures w.vks[v].id == v && LinkHolds(w, v) && Ends(w, v)
    {
      assert w.vks[v] == Fresh(v, w.vks[v].supported, w.vks[v].height);
      assert Up(w, v, 0) == v && Up(w, v, 1) == 0;
    }
  }
}
