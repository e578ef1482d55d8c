/**
  Many vaultkeepers and the INCREMENTs in flight between them. JOIN and MERGE exchanges are single
  steps; INCREMENTs may be delivered late, lost, or duplicated.
 */
module Vault {
  import opened Basics
  import opened Versions
  import opened VaultNode

  datatype World = World(vks: map<NodeID, Node>, wire: multiset<Increment>)

  datatype Step =
    | Local(v: NodeID, event: Event)
    | JoinVault(child: NodeID, target: NodeID, version: Version, childAddr: Addr, targetAddr: Addr)
    | MergeVault(root: NodeID, target: NodeID, version: Version, rootAddr: Addr, targetAddr: Addr)
    | Deliver(m: Increment, version: Version)
    | Lose(m: Increment)
    | Repeat(m: Increment)

  /** IDs are nonzero and each vaultkeeper is filed under its own. */
  ghost predicate Named(w: World) {
    0 !in w.vks && forall v | v in w.vks :: w.vks[v].id == v
  }

  function JoinRequest(w: World, child: NodeID, addr: Addr): Body<JoinBody>
    requires child in w.vks
  {
    Present(JoinBody(true, w.vks[child].height, Some(addr)))
  }

  function MergeRequest(w: World, root: NodeID, addr: Addr): Body<MergeBody>
    requires root in w.vks
  {
    Present(MergeBody(w.vks[root].height, Some(Some(addr))))
  }

  function TakeJoin(w: World, c: NodeID, p: NodeID, version: Version, cAddr: Addr, pAddr: Addr): World
    requires c in w.vks && p in w.vks
  {
    var (p', reply) := ServeJoin(w.vks[p], Request(false, version, c), JoinRequest(w, c, cAddr));
    var vks := w.vks[p := p'];
    w.(vks := if reply.Accepted? then vks[c := JoinAccepted(w.vks[c], p, pAddr)] else vks)
  }

  /** The target's half of a MERGE. */
  function OfferMerge(w: World, r: NodeID, t: NodeID, version: Version, rAddr: Addr): (Node, Reply)
    requires r in w.vks && t in w.vks
  {
    ServeMerge(w.vks[t], Request(false, version, r), MergeRequest(w, r, rAddr), None)
  }

  function TakeMerge(w: World, r: NodeID, t: NodeID, version: Version, rAddr: Addr, tAddr: Addr): World
    requires r in w.vks && t in w.vks
  {
    var (t', reply) := OfferMerge(w, r, t, version, rAddr);
    if reply.Accepted? then
      var (r', sent, _) := MergeAccepted(w.vks[r], t, tAddr);
      World(w.vks[t := t'][r := r'], w.wire + multiset(sent))
    else w.(vks := w.vks[t := t'])
  }

  function TakeDelivery(w: World, m: Increment, version: Version): World {
    if m.dest !in w.vks then w.(wire := w.wire - multiset{m})
    else
      var (d', _, sent) := ServeIncrement(w.vks[m.dest], Request(false, version, m.from), Present(m.newHeight));
      World(w.vks[m.dest := d'], w.wire - multiset{m} + multiset(sent))
  }

  predicate IsRoot(n: Node) {
    n.parentID == 0
  }

  /** Steps that can be taken. MERGE is for roots only. */
  predicate Enabled(w: World, s: Step) {
    match s
    case Local(v, e) => v in w.vks && !e.Merge? && !e.MergedWith? && !e.JoinedUnder? && !e.Incr?
    case JoinVault(c, p, _, _, _) => c in w.vks && p in w.vks && c != p
    case MergeVault(r, t, _, _, _) => r in w.vks && t in w.vks && r != t && IsRoot(w.vks[r])
    case Deliver(m, _) => m in w.wire
    case Lose(m) => m in w.wire
    case Repeat(m) => m in w.wire
  }

  function Take(w: World, s: Step): World
    requires Enabled(w, s)
  {
    match s
    case Local(v, e) => w.(vks := w.vks[v := Apply(w.vks[v], e)])
    case JoinVault(c, p, version, cAddr, pAddr) => TakeJoin(w, c, p, version, cAddr, pAddr)
    case MergeVault(r, t, version, rAddr, tAddr) => TakeMerge(w, r, t, version, rAddr, tAddr)
    case Deliver(m, version) => TakeDelivery(w, m, version)
    case Lose(m) => w.(wire := w.wire - multiset{m})
    case Repeat(m) => w.(wire := w.wire + multiset{m})
  }

  // ---- heights rise along parent links ----------------------------------------------------------

  predicate LinkRises(w: World, v: NodeID)
    requires v in w.vks
  {
    var p := w.vks[v].parentID;
    p == 0 || (p in w.vks && w.vks[p].height > w.vks[v].height)
  }

  /** Every parent is higher than its child, and every INCREMENT in flight announces less than its sender's height. */
  ghost predicate Rising(w: World) {
    && Named(w)
    && (forall v {:trigger LinkRises(w, v)} | v in w.vks :: LinkRises(w, v))
    && (forall m | m in w.wire :: m.from in w.vks && m.newHeight < w.vks[m.from].height)
  }

  ghost predicate HeightsGrow(w: World, w': World) {
    w'.vks.Keys == w.vks.Keys && forall v | v in w.vks :: w'.vks[v].height >= w.vks[v].height
  }

  /** An event of one vaultkeeper that is not part of an exchange leaves its height alone and sets no parent. */
  lemma LocalKeepsStructure(n: Node, e: Event)
    requires !e.Merge? && !e.MergedWith? && !e.JoinedUnder? && !e.Incr?
    ensures var n' := Apply(n, e);
            && n'.id == n.id && n'.height == n.height && n'.supported == n.supported
            && (if e.LoseParent? then n'.parentID == 0 && n'.parentAddr == None
                else n'.parentID == n.parentID && n'.parentAddr == n.parentAddr)
  {
  }

  lemma JoinKeepsStructure(n: Node, req: Request, body: Body<JoinBody>)
    ensures var (n', reply) := ServeJoin(n, req, body);
            && n'.id == n.id && n'.height == n.height && n'.parentID == n.parentID
            && (reply.Accepted? && body.Present? && body.value.isVk ==>
                  body.value.height == Pred32(n.height) && req.id in n'.tables.cvks)
  {
  }

  /** A child that fits a 16-bit height joins exactly one level below, so nothing joins below height 0. */
  lemma JoinIsOneBelow(n: Node, req: Request, h: uint16, addr: Addr)
    ensures ServeJoin(n, req, Present(JoinBody(true, h, Some(addr)))).1.Accepted? ==> h + 1 == n.height
  {
  }

  /** A step that lowers no height only has to account for the links and heights it changes. */
  lemma RisingKept(w: World, w': World)
    requires Rising(w) && Named(w') && HeightsGrow(w, w')
    requires forall v {:trigger LinkRises(w', v)} | v in w.vks ::
               LinkRises(w', v) || (w'.vks[v].height == w.vks[v].height && w'.vks[v].parentID == w.vks[v].parentID)
    requires forall m | m in w'.wire :: m in w.wire || (m.from in w.vks && m.newHeight < w'.vks[m.from].height)
    ensures Rising(w')
  {
    forall v | v in w'.vks
      ensures LinkRises(w', v)
    {
      assert LinkRises(w, v);
    }
  }

  /** What a JOIN exchange changes: at most one link, to a parent exactly one level up. */
  lemma JoinLinks(w: World, c: NodeID, p: NodeID, version: Version, cAddr: Addr, pAddr: Addr)
    requires Named(w) && c in w.vks && p in w.vks && c != p
    ensures var w' := TakeJoin(w, c, p, version, cAddr, pAddr);
            && w'.vks.Keys == w.vks.Keys && w'.wire == w.wire && w'.vks[c].id == c && w'.vks[p].id == p
            && w'.vks[c].height == w.vks[c].height && w'.vks[p].height == w.vks[p].height
            && w'.vks[p].parentID == w.vks[p].parentID
            && (w'.vks[c].parentID == w.vks[c].parentID
                || (w'.vks[c].parentID == p && w.vks[c].height + 1 == w.vks[p].height))
            && forall v | v in w.vks && v != c && v != p :: w'.vks[v] == w.vks[v]
  {
    JoinKeepsStructure(w.vks[p], Request(false, version, c), JoinRequest(w, c, cAddr));
    JoinIsOneBelow(w.vks[p], Request(false, version, c), w.vks[c].height, cAddr);
  }

  lemma JoinRises(w: World, c: NodeID, p: NodeID, version: Version, cAddr: Addr, pAddr: Addr)
    requires Rising(w) && c in w.vks && p in w.vks && c != p
    ensures Rising(TakeJoin(w, c, p, version, cAddr, pAddr))
    ensures HeightsGrow(w, TakeJoin(w, c, p, version, cAddr, pAddr))
  {
    JoinLinks(w, c, p, version, cAddr, pAddr);
    RisingKept(w, TakeJoin(w, c, p, version, cAddr, pAddr));
  }

  /** Who a MERGE can be accepted from, and what acceptance changes at the target. */
  lemma MergeOffers(n: Node, req: Request, body: Body<MergeBody>, sender: Option<Addr>)
    ensures var (n', reply) := ServeMerge(n, req, body, sender);
            && n'.id == n.id && n'.height == n.height && n'.tables == n.tables
            && (reply.Accepted? ==> n'.parentID == req.id && MergeHeight(body) == n.height)
            && (reply.Accepted? && n.parentID != req.id ==> n.parentAddr.None? && n.height < MAX_UINT16)
            && (!reply.Accepted? ==> n'.parentID == n.parentID || n'.parentID == 0)
  {
  }

  lemma MergedHeights(n: Node, target: NodeID, addr: Addr)
    ensures var (n', sent, _) := MergeAccepted(n, target, addr);
            && n'.id == n.id && n'.height == Succ16(n.height) && n'.parentID == n.parentID
            && (forall m | m in sent :: m.from == n.id && m.newHeight == Pred32(n'.height) && m.dest != target)
  {
  }

  /** An accepted MERGE raises the requester by one without wrapping, and links the target under it. */
  lemma AcceptedMerge(w: World, r: NodeID, t: NodeID, version: Version, rAddr: Addr, tAddr: Addr)
    requires Rising(w) && r in w.vks && t in w.vks && r != t
    requires OfferMerge(w, r, t, version, rAddr).1.Accepted?
    ensures var w' := TakeMerge(w, r, t, version, rAddr, tAddr);
            && w.vks[r].height == w.vks[t].height < MAX_UINT16
            && w'.vks.Keys == w.vks.Keys
            && w'.vks[r].height == w.vks[r].height + 1 && w'.vks[t].height == w.vks[t].height
            && w'.vks[r].parentID == w.vks[r].parentID && w'.vks[t].parentID == r
            && (forall v | v in w.vks && v != r && v != t :: w'.vks[v] == w.vks[v])
            && w'.vks[r].id == r && w'.vks[t].id == t
            && (forall m | m in w'.wire ::
                  m in w.wire || (m.from == r && m.newHeight == w.vks[r].height && m.dest != t))
  {
    assert LinkRises(w, t);
    MergeOffers(w.vks[t], Request(false, version, r), MergeRequest(w, r, rAddr), None);
    MergedHeights(w.vks[r], t, tAddr);
  }

  /**
    A MERGE keeps heights rising exactly when the requester is a root, or its own parent happens to be
    more than one level above it. The requester itself never checks.
   */
  lemma MergeRisesIff(w: World, r: NodeID, t: NodeID, version: Version, rAddr: Addr, tAddr: Addr)
    requires Rising(w) && r in w.vks && t in w.vks && r != t
    requires OfferMerge(w, r, t, version, rAddr).1.Accepted?
    ensures Rising(TakeMerge(w, r, t, version, rAddr, tAddr)) <==>
            var p := w.vks[r].parentID; p == 0 || (p in w.vks && w.vks[p].height > w.vks[r].height + 1)
  {
    var w' := TakeMerge(w, r, t, version, rAddr, tAddr);
    AcceptedMerge(w, r, t, version, rAddr, tAddr);
    assert LinkRises(w, r) && LinkRises(w, t);
    if IsRoot(w.vks[r]) || w.vks[w.vks[r].parentID].height > w.vks[r].height + 1 {
      forall v | v in w'.vks
        ensures LinkRises(w', v)
      {
        assert LinkRises(w, v);
      }
    } else {
      assert !LinkRises(w', r);
    }
  }

  /** Vaultkeeper 2 has joined 1, one level up, and greeted 3, a root of its own height. */
  function ChildMeetsRoot(v: Version): World {
    var w0 := World(map[1 := Fresh(1, {v}, 2), 2 := Fresh(2, {v}, 1), 3 := Fresh(3, {v}, 1)], multiset{});
    var w1 := Take(w0, Local(1, Hello(Request(false, v, 2), false)));
    var w2 := Take(w1, JoinVault(2, 1, v, "vk2", "vk1"));
    Take(w2, Local(3, Hello(Request(false, v, 2), false)))
  }

  /** Such states are reached: from new vaultkeepers, a child's MERGE is accepted and puts it level with its parent. */
  lemma ChildMergeBreaksRising(v: Version)
    ensures var w := ChildMeetsRoot(v);
            Rising(w) && w.vks.Keys == {1, 2, 3} && w.vks[2].parentID == 1
            && OfferMerge(w, 2, 3, v, "vk2").1.Accepted?
    ensures var w' := TakeMerge(ChildMeetsRoot(v), 2, 3, v, "vk2", "vk3");
            !Rising(w') && w'.vks[2].parentID == 1 && w'.vks[2].height == w'.vks[1].height == 2
  {
    ChildMeetsRootIs(v);
    var w := ChildMeetsRoot(v);
    assert forall x | x in w.vks :: LinkRises(w, x);
    AcceptedMerge(w, 2, 3, v, "vk2", "vk3");
    MergeRisesIff(w, 2, 3, v, "vk2", "vk3");
  }

  lemma ChildMeetsRootIs(v: Version)
    ensures var w := ChildMeetsRoot(v);
            && w.vks.Keys == {1, 2, 3} && w.wire == multiset{}
            && w.vks[1].id == 1 && w.vks[1].height == 2 && w.vks[1].parentID == 0
            && w.vks[2] == JoinAccepted(Fresh(2, {v}, 1), 1, "vk1")
            && w.vks[3] == ServeHello(Fresh(3, {v}, 1), Request(false, v, 2), false).0
  {
    var n1 := ServeHello(Fresh(1, {v}, 2), Request(false, v, 2), false).0;
    assert ServeJoin(n1, Request(false, v, 2), Present(JoinBody(true, 1, Some("vk2")))).1.Accepted?;
  }

  lemma MergeRises(w: World, r: NodeID, t: NodeID, version: Version, rAddr: Addr, tAddr: Addr)
    requires Rising(w) && r in w.vks && t in w.vks && r != t && IsRoot(w.vks[r])
    ensures Rising(TakeMerge(w, r, t, version, rAddr, tAddr))
    ensures HeightsGrow(w, TakeMerge(w, r, t, version, rAddr, tAddr))
  {
    if OfferMerge(w, r, t, version, rAddr).1.Accepted? {
      AcceptedMerge(w, r, t, version, rAddr, tAddr);
      MergeRisesIff(w, r, t, version, rAddr, tAddr);
    } else {
      var w' := TakeMerge(w, r, t, version, rAddr, tAddr);
      MergeOffers(w.vks[t], Request(false, version, r), MergeRequest(w, r, rAddr), None);
      forall v | v in w'.vks
        ensures LinkRises(w', v)
      {
        assert LinkRises(w, v);
      }
    }
  }

  lemma IncrementOffers(n: Node, req: Request, newHeight: uint32)
    requires newHeight < TWO_TO_16
    ensures var (n', reply, sent) := ServeIncrement(n, req, Present(newHeight));
            && n' == n.(height := n'.height)
            && ((n'.height == n.height && sent == {})
                || (n.parentID == req.id && n'.height == newHeight == n.height + 1 && sent == FanOut(n', {})))
  {
  }

  /** What a delivery changes: at most one height, to that announced by the parent. */
  lemma DeliveryHeights(w: World, m: Increment, version: Version)
    requires Named(w) && m in w.wire && m.newHeight < TWO_TO_16 && m.dest in w.vks
    ensures var w' := TakeDelivery(w, m, version);
            && w'.vks.Keys == w.vks.Keys
            && (forall v | v in w.vks && v != m.dest :: w'.vks[v] == w.vks[v])
            && w'.vks[m.dest] == w.vks[m.dest].(height := w'.vks[m.dest].height)
            && (w'.vks[m.dest].height == w.vks[m.dest].height
                || (w.vks[m.dest].parentID == m.from
                    && w'.vks[m.dest].height == m.newHeight == w.vks[m.dest].height + 1))
            && forall x | x in w'.wire ::
                 x in w.wire || (x.from == m.dest && x.newHeight < w'.vks[m.dest].height)
  {
    IncrementOffers(w.vks[m.dest], Request(false, version, m.from), m.newHeight);
  }

  lemma DeliveryRises(w: World, m: Increment, version: Version)
    requires Rising(w) && m in w.wire
    ensures Rising(TakeDelivery(w, m, version)) && HeightsGrow(w, TakeDelivery(w, m, version))
  {
    if m.dest in w.vks {
      DeliveryHeights(w, m, version);
      assert LinkRises(w, m.dest);
    }
    RisingKept(w, TakeDelivery(w, m, version));
  }

  /** INCREMENTs may get lost or come again. */
  lemma OldMessagesRise(w: World, wire: multiset<Increment>)
    requires Rising(w) && forall m | m in wire :: m in w.wire
    ensures Rising(w.(wire := wire))
  {
    assert forall v | v in w.vks :: LinkRises(w, v) ==> LinkRises(w.(wire := wire), v);
  }

  /** A vaultkeeper may lose its parent, and change whatever else is not its height. */
  lemma SameHeightsRise(w: World, v: NodeID, n': Node)
    requires Rising(w) && v in w.vks
    requires n'.id == v && n'.height == w.vks[v].height && n'.parentID in {w.vks[v].parentID, 0}
    ensures Rising(w.(vks := w.vks[v := n']))
  {
    var w' := w.(vks := w.vks[v := n']);
    forall x | x in w'.vks
      ensures LinkRises(w', x)
    {
      assert LinkRises(w, x);
    }
  }

  /** Heights rise along parent links after every step, whatever happens to INCREMENTs, and never fall. */
  lemma StepRises(w: World, s: Step)
    requires Rising(w) && Enabled(w, s)
    ensures Rising(Take(w, s)) && HeightsGrow(w, Take(w, s))
  {
    match s
    case Local(v, e) =>
      LocalKeepsStructure(w.vks[v], e);
      SameHeightsRise(w, v, Apply(w.vks[v], e));
    case JoinVault(c, p, version, cAddr, pAddr) => JoinRises(w, c, p, version, cAddr, pAddr);
    case MergeVault(r, t, version, rAddr, tAddr) => MergeRises(w, r, t, version, rAddr, tAddr);
    case Deliver(m, version) => DeliveryRises(w, m, version);
    case Lose(m) => OldMessagesRise(w, w.wire - multiset{m});
    case Repeat(m) => OldMessagesRise(w, w.wire + multiset{m});
  }

  ghost predicate AllEnabled(w: World, ss: seq<Step>)
    decreases |ss|
  {
    ss == [] || (Enabled(w, ss[0]) && AllEnabled(Take(w, ss[0]), ss[1..]))
  }

  function TakeAll(w: World, ss: seq<Step>): World
    requires AllEnabled(w, ss)
    decreases |ss|
  {
    if ss == [] then w else TakeAll(Take(w, ss[0]), ss[1..])
  }

  lemma {:induction false} HeightsRiseAlways(w: World, ss: seq<Step>)
    requires Rising(w) && AllEnabled(w, ss)
    ensures Rising(TakeAll(w, ss)) && HeightsGrow(w, TakeAll(w, ss))
    decreases |ss|
  {
    if ss != [] {
      StepRises(w, ss[0]);
      HeightsRiseAlways(Take(w, ss[0]), ss[1..]);
    }
  }

  // ---- no height wraps --------------------------------------------------------------------------

  /** Every step leaves a height alone or adds exactly one to it: 16 bits never overflow. */
  lemma NoHeightWraps(w: World, s: Step, v: NodeID)
    requires Rising(w) && Enabled(w, s) && v in w.vks
    ensures v in Take(w, s).vks && Take(w, s).vks[v].height in {w.vks[v].height, w.vks[v].height + 1}
  {
    match s
    case Local(x, e) => LocalKeepsStructure(w.vks[x], e);
    case JoinVault(c, p, version, cAddr, pAddr) => JoinLinks(w, c, p, version, cAddr, pAddr);
    case MergeVault(r, t, version, rAddr, tAddr) =>
      if OfferMerge(w, r, t, version, rAddr).1.Accepted? {
        AcceptedMerge(w, r, t, version, rAddr, tAddr);
      } else {
        MergeOffers(w.vks[t], Request(false, version, r), MergeRequest(w, r, rAddr), None);
      }
    case Deliver(m, version) =>
      if m.dest in w.vks {
        DeliveryHeights(w, m, version);
      }
    case Lose(m) =>
    case Repeat(m) =>
  }

  /**
    The handler alone does not prevent it: its 32-bit comparison accepts 65536 at height 65535, and the
    16-bit height then wraps to 0. That takes a height no 16-bit parent can announce.
   */
  lemma IncrementWrapsIff(n: Node, req: Request, newHeight: uint32)
    ensures ServeIncrement(n, req, Present(newHeight)).0.height < n.height <==>
            && !req.shorthand && req.version in n.supported && n.parentID == req.id
            && n.height == MAX_UINT16 && newHeight == MAX_UINT16 + 1
  {
  }

  // ---- so there are no cycles -------------------------------------------------------------------

  /** The vaultkeeper k parent links above v; 0 once the links run out. */
  function Up(w: World, v: NodeID, k: nat): NodeID {
    if k == 0 then v
    else
      var u := Up(w, v, k - 1);
      if u in w.vks then w.vks[u].parentID else 0
  }

  lemma {:induction false} UpShift(w: World, v: NodeID, k: nat)
    requires v in w.vks
    ensures Up(w, v, k + 1) == Up(w, w.vks[v].parentID, k)
  {
    if k == 0 {
      assert Up(w, v, 0) == v;
    } else {
      UpShift(w, v, k - 1);
    }
  }

  lemma {:induction false} UpAdds(w: World, v: NodeID, i: nat, d: nat)
    ensures Up(w, Up(w, v, i), d) == Up(w, v, i + d)
  {
    if d > 0 {
      UpAdds(w, v, i, d - 1);
    }
  }

  lemma {:induction false} ChainIsInside(w: World, v: NodeID, d: nat, j: nat)
    requires Named(w) && Up(w, v, d) in w.vks && j <= d
    ensures Up(w, v, j) in w.vks
    decreases d - j
  {
    if j < d {
      ChainIsInside(w, v, d, j + 1);
    }
  }

  /** The parent, if there is one, has v on record; it has not when the record has expired. */
  predicate OnRecord(w: World, v: NodeID)
    requires v in w.vks
  {
    var p := w.vks[v].parentID;
    p in w.vks ==> v in w.vks[p].tables.cvks
  }

  ghost predicate EveryoneOnRecord(w: World) {
    forall v {:trigger OnRecord(w, v)} | v in w.vks :: OnRecord(w, v)
  }

  /** v is r or hangs, over any number of parent links, below r. */
  ghost predicate Below(w: World, v: NodeID, r: NodeID) {
    exists k: nat :: Up(w, v, k) == r
  }

  lemma ChildIsBelow(w: World, v: NodeID, r: NodeID)
    requires v in w.vks && Below(w, w.vks[v].parentID, r)
    ensures Below(w, v, r)
  {
    var k: nat :| Up(w, w.vks[v].parentID, k) == r;
    UpShift(w, v, k);
    assert Up(w, v, k + 1) == r;
  }

  lemma {:induction false} HeightGrowsUpward(w: World, v: NodeID, k: nat)
    requires Rising(w) && v in w.vks && Up(w, v, k) != 0
    ensures Up(w, v, k) in w.vks && w.vks[Up(w, v, k)].height >= w.vks[v].height + k
  {
    if k > 0 {
      HeightGrowsUpward(w, v, k - 1);
      assert LinkRises(w, Up(w, v, k - 1));
    }
  }

  /** No vaultkeeper is its own ancestor, and every chain of parents ends at a root within 65535 links. */
  lemma ParentLinksAreAcyclic(w: World, v: NodeID, k: nat)
    requires Rising(w) && v in w.vks
    ensures k > 0 ==> Up(w, v, k) != v
    ensures k > MAX_UINT16 - w.vks[v].height ==> Up(w, v, k) == 0
  {
    if Up(w, v, k) != 0 {
      HeightGrowsUpward(w, v, k);
    }
  }

  // ---- when the acceptance of a MERGE is lost -----------------------------------------------------

  /**
    If only the target's half of a MERGE happens, the new link is level: the invariant above fails.
    Repeating the MERGE is then accepted again and completes it. `LossyMerge` shows that no cycle comes of it.
   */
  lemma LostMergeAcceptance(w: World, r: NodeID, t: NodeID, version: Version, rAddr: Addr, tAddr: Addr)
    requires Rising(w) && r in w.vks && t in w.vks && r != t && IsRoot(w.vks[r])
    requires OfferMerge(w, r, t, version, rAddr).1.Accepted?
    ensures var half := w.(vks := w.vks[t := OfferMerge(w, r, t, version, rAddr).0]);
            && half.vks[t].parentID == r && half.vks[r].height == half.vks[t].height && !Rising(half)
            && OfferMerge(half, r, t, version, rAddr).1.Accepted?
            && TakeMerge(half, r, t, version, rAddr, tAddr) == TakeMerge(w, r, t, version, rAddr, tAddr)
            && Rising(TakeMerge(half, r, t, version, rAddr, tAddr))
  {
    AcceptedMerge(w, r, t, version, rAddr, tAddr);
    var half := w.(vks := w.vks[t := OfferMerge(w, r, t, version, rAddr).0]);
    MergeOffers(w.vks[t], Request(false, version, r), MergeRequest(w, r, rAddr), None);
    assert !LinkRises(half, t);
    RepeatedMerge(w.vks[t], Request(false, version, r), MergeRequest(w, r, rAddr));
    assert OfferMerge(half, r, t, version, rAddr) == (half.vks[t], OfferMerge(w, r, t, version, rAddr).1);
    assert half.vks[r] == w.vks[r] && half.vks[t := half.vks[t]] == half.vks;
    MergeRises(w, r, t, version, rAddr, tAddr);
  }

  lemma RepeatedMerge(n: Node, req: Request, body: Body<MergeBody>)
    requires ServeMerge(n, req, body, None).1.Accepted?
    ensures ServeMerge(ServeMerge(n, req, body, None).0, req, body, None) ==
            ServeMerge(n, req, body, None)
  {
  }
}
