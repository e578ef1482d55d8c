/**
  Runs from new vaultkeepers in which the structure of a vault goes wrong: a merge with a child that is
  still on record, and merges by vaultkeepers that are no roots.
 */
module StructureRuns {
  import opened Basics
  import opened Versions
  import opened ChildTables
  import opened VaultNode
  import opened Vault
  import Omnipotence

  // ---- runs ---------------------------------------------------------------------------------------

  /** As in `Enabled`, but with `anyone` set a MERGE may be started by a vaultkeeper that is no root. */
  predicate Permits(w: World, s: Step, anyone: bool) {
    match s
    case MergeVault(r, t, _, _, _) => r in w.vks && t in w.vks && r != t && (anyone || IsRoot(w.vks[r]))
    case _ => Enabled(w, s)
  }

  function Perform(w: World, s: Step, anyone: bool): World
    requires Permits(w, s, anyone)
  {
    match s
    case MergeVault(r, t, version, rAddr, tAddr) => TakeMerge(w, r, t, version, rAddr, tAddr)
    case _ => Take(w, s)
  }

  ghost predicate Performs(w: World, ss: seq<Step>, w': World, anyone: bool)
    decreases |ss|
  {
    if ss == [] then w == w'
    else Permits(w, ss[0], anyone) && Performs(Perform(w, ss[0], anyone), ss[1..], w', anyone)
  }

  lemma {:induction false} PerformsFurther(w0: World, ss: seq<Step>, w: World, s: Step, anyone: bool)
    requires Performs(w0, ss, w, anyone) && Permits(w, s, anyone)
    ensures Performs(w0, ss + [s], Perform(w, s, anyone), anyone)
    decreases |ss|
  {
    if ss == [] {
      assert [s][1..] == [];
    } else {
      PerformsFurther(Perform(w0, ss[0], anyone), ss[1..], w, s, anyone);
      assert (ss + [s])[1..] == ss[1..] + [s];
    }
  }

  ghost predicate AllNew(w: World) {
    && w.wire == multiset{} && 0 !in w.vks
    && forall v | v in w.vks :: w.vks[v] == Fresh(v, w.vks[v].supported, w.vks[v].height)
  }

  /** Some run of permitted steps leads here from new vaultkeepers. */
  ghost predicate ComesFromNew(w: World, anyone: bool) {
    exists w0, ss :: AllNew(w0) && Performs(w0, ss, w, anyone)
  }

  lemma NewComesFromNew(w: World, anyone: bool)
    requires AllNew(w)
    ensures ComesFromNew(w, anyone)
  {
    assert Performs(w, [], w, anyone);
  }

  lemma NextComesFromNew(w: World, s: Step, anyone: bool)
    requires ComesFromNew(w, anyone) && Permits(w, s, anyone)
    ensures ComesFromNew(Perform(w, s, anyone), anyone)
  {
    var w0, ss :| AllNew(w0) && Performs(w0, ss, w, anyone);
    PerformsFurther(w0, ss, w, s, anyone);
  }

  // ---- single steps -------------------------------------------------------------------------------

  /** A vaultkeeper without leaves that speaks v and whose parent address goes with its parent. */
  predicate Plain(n: Node, id: NodeID, v: Version) {
    n.id == id && v in n.supported && (n.parentAddr.Some? <==> n.parentID != 0) && n.tables.leaves == map[]
  }

  /** No vaultkeeper but these two differs. */
  predicate OnlyThese(w: World, w': World, a: NodeID, b: NodeID) {
    a in w.vks && b in w.vks && w'.vks.Keys == w.vks.Keys &&
    forall x | x in w.vks && x != a && x != b :: w'.vks[x] == w.vks[x]
  }

  lemma Happens(w: World, v: NodeID, e: Event, anyone: bool) returns (w': World)
    requires ComesFromNew(w, anyone) && Enabled(w, Local(v, e))
    ensures ComesFromNew(w', anyone) && w' == w.(vks := w.vks[v := Apply(w.vks[v], e)])
  {
    NextComesFromNew(w, Local(v, e), anyone);
    w' := Take(w, Local(v, e));
  }

  /** c greets v. */
  lemma Greets(w: World, v: NodeID, c: NodeID, version: Version, anyone: bool) returns (w': World)
    requires ComesFromNew(w, anyone) && Named(w) && v in w.vks
    ensures ComesFromNew(w', anyone) && Named(w') && OnlyThese(w, w', v, v) && w'.wire == w.wire
    ensures w'.vks[v] == ServeHello(w.vks[v], Request(false, version, c), false).0
  {
    w' := Happens(w, v, Hello(Request(false, version, c), false), anyone);
  }

  /** v gives its parent up for dead. */
  lemma GivesUp(w: World, v: NodeID, anyone: bool) returns (w': World)
    requires ComesFromNew(w, anyone) && Named(w) && v in w.vks
    ensures ComesFromNew(w', anyone) && Named(w') && OnlyThese(w, w', v, v) && w'.wire == w.wire
    ensures w'.vks[v] == DropParent(w.vks[v])
  {
    LoseParentIs(w.vks[v]);
    w' := Happens(w, v, LoseParent, anyone);
  }

  lemma LoseParentIs(n: Node)
    ensures Apply(n, LoseParent) == DropParent(n)
  {
  }

  /** What a JOIN leaves of the two vaultkeepers it concerns. */
  predicate AreJoined(c0: Node, c: Node, p0: Node, p: Node, v: Version) {
    && Plain(c, c0.id, v) && c.parentID == p0.id && c.height == c0.height && c.tables == c0.tables
    && Plain(p, p0.id, v) && p.parentID == p0.parentID && p.height == p0.height
    && p.tables == AddCVK(p0.tables, c0.id, "vk")
  }

  /** c joins p, which it has greeted. */
  lemma JoinsGreeted(w: World, c: NodeID, p: NodeID, v: Version, anyone: bool) returns (w': World)
    requires ComesFromNew(w, anyone) && Named(w) && c in w.vks && p in w.vks && c != p
    requires Plain(w.vks[c], c, v) && Plain(w.vks[p], p, v) && c in w.vks[p].hellos
    requires IsRoot(w.vks[c]) && w.vks[c].height + 1 == w.vks[p].height && c !in w.vks[p].tables.cvks
    ensures ComesFromNew(w', anyone) && Named(w') && OnlyThese(w, w', c, p) && w'.wire == w.wire
    ensures AreJoined(w.vks[c], w'.vks[c], w.vks[p], w'.vks[p], v)
  {
    JoinAcceptedIff(w.vks[p], Request(false, v, c), JoinBody(true, w.vks[c].height, Some("vk")));
    Omnipotence.JoinShape(w, c, p, "vk", "vk", v);
    NextComesFromNew(w, JoinVault(c, p, v, "vk", "vk"), anyone);
    w' := TakeJoin(w, c, p, v, "vk", "vk");
  }

  /** c greets p and joins it. */
  lemma Joins(w: World, c: NodeID, p: NodeID, v: Version, anyone: bool) returns (w': World)
    requires ComesFromNew(w, anyone) && Named(w) && c in w.vks && p in w.vks && c != p
    requires Plain(w.vks[c], c, v) && Plain(w.vks[p], p, v)
    requires IsRoot(w.vks[c]) && w.vks[c].height + 1 == w.vks[p].height && c !in w.vks[p].tables.cvks
    ensures ComesFromNew(w', anyone) && Named(w') && OnlyThese(w, w', c, p) && w'.wire == w.wire
    ensures AreJoined(w.vks[c], w'.vks[c], w.vks[p], w'.vks[p], v)
  {
    var w1 := Greets(w, p, c, v, anyone);
    w' := JoinsGreeted(w1, c, p, v, anyone);
  }

  /** What an accepted MERGE leaves of the two vaultkeepers it concerns. */
  predicate AreMerged(r0: Node, r: Node, t0: Node, t: Node, v: Version) {
    && Plain(t, t0.id, v) && t.parentID == r0.id && t.height == t0.height && t.tables == t0.tables
    && Plain(r, r0.id, v) && r.parentID == r0.parentID && r.height == r0.height + 1
    && r.tables == AddCVK(r0.tables, t0.id, "vk")
  }

  /** r merges with t, which it has greeted. */
  lemma MergesGreeted(w: World, r: NodeID, t: NodeID, v: Version, anyone: bool) returns (w': World)
    requires ComesFromNew(w, anyone) && Named(w) && r in w.vks && t in w.vks && r != t
    requires anyone || IsRoot(w.vks[r])
    requires Plain(w.vks[r], r, v) && Plain(w.vks[t], t, v) && r in w.vks[t].hellos
    requires IsRoot(w.vks[t]) && w.vks[r].height == w.vks[t].height < MAX_UINT16 && r !in w.vks[t].tables.cvks
    ensures ComesFromNew(w', anyone) && Named(w') && OnlyThese(w, w', r, t)
    ensures AreMerged(w.vks[r], w'.vks[r], w.vks[t], w'.vks[t], v)
    ensures w'.wire == w.wire + multiset(FanOut(w'.vks[r], {t}))
  {
    MergeAcceptedIff(w.vks[t], Request(false, v, r), MergeRequest(w, r, "vk"), None);
    MergeOutcome(w, r, t, v);
    NextComesFromNew(w, MergeVault(r, t, v, "vk", "vk"), anyone);
    w' := TakeMerge(w, r, t, v, "vk", "vk");
  }

  lemma MergeOutcome(w: World, r: NodeID, t: NodeID, v: Version)
    requires Named(w) && r in w.vks && t in w.vks && r != t && w.vks[r].height < MAX_UINT16
    requires Plain(w.vks[r], r, v) && Plain(w.vks[t], t, v) && IsRoot(w.vks[t])
    requires OfferMerge(w, r, t, v, "vk").1.Accepted?
    ensures var w' := TakeMerge(w, r, t, v, "vk", "vk");
            && OnlyThese(w, w', r, t) && Named(w')
            && AreMerged(w.vks[r], w'.vks[r], w.vks[t], w'.vks[t], v)
            && w'.wire == w.wire + multiset(FanOut(w'.vks[r], {t}))
  {
    Omnipotence.MergeShape(w, r, t, v, "vk", "vk");
    MergeSendsAndRises(w, r, t, v);
  }

  lemma MergeSendsAndRises(w: World, r: NodeID, t: NodeID, v: Version)
    requires r in w.vks && t in w.vks && r != t && w.vks[r].height < MAX_UINT16 && t !in w.vks[r].tables.leaves
    requires OfferMerge(w, r, t, v, "vk").1.Accepted?
    ensures var w' := TakeMerge(w, r, t, v, "vk", "vk");
            && r in w'.vks && w'.vks[r].height == w.vks[r].height + 1
            && w'.wire == w.wire + multiset(FanOut(w'.vks[r], {t}))
  {
  }

  /** r greets t and merges with it. */
  lemma Merges(w: World, r: NodeID, t: NodeID, v: Version, anyone: bool) returns (w': World)
    requires ComesFromNew(w, anyone) && Named(w) && r in w.vks && t in w.vks && r != t
    requires anyone || IsRoot(w.vks[r])
    requires Plain(w.vks[r], r, v) && Plain(w.vks[t], t, v)
    requires IsRoot(w.vks[t]) && w.vks[r].height == w.vks[t].height < MAX_UINT16 && r !in w.vks[t].tables.cvks
    ensures ComesFromNew(w', anyone) && Named(w') && OnlyThese(w, w', r, t)
    ensures AreMerged(w.vks[r], w'.vks[r], w.vks[t], w'.vks[t], v)
    ensures w'.wire == w.wire + multiset(FanOut(w'.vks[r], {t}))
  {
    var w1 := Greets(w, t, r, v, anyone);
    w' := MergesGreeted(w1, r, t, v, anyone);
  }

  // ---- a cycle of parents -------------------------------------------------------------------------

  predicate At(n: Node, id: NodeID, v: Version, height: nat, parentID: NodeID, kids: set<NodeID>) {
    Plain(n, id, v) && n.height == height && n.parentID == parentID && n.tables.cvks.Keys == kids
  }

  function FiveNew(v: Version): World {
    World(map[1 := Fresh(1, {v}, 2), 2 := Fresh(2, {v}, 1), 3 := Fresh(3, {v}, 1), 4 := Fresh(4, {v}, 0),
              5 := Fresh(5, {v}, 1)],
          multiset{})
  }

  /** 4 is below 2, which is below 1; 3 and 5 stand alone. */
  ghost predicate Chain(w: World, v: Version) {
    && w.vks.Keys == {1, 2, 3, 4, 5} && Named(w) && w.wire == multiset{}
    && At(w.vks[1], 1, v, 2, 0, {2}) && At(w.vks[2], 2, v, 1, 1, {4}) && At(w.vks[4], 4, v, 0, 2, {})
    && At(w.vks[3], 3, v, 1, 0, {}) && At(w.vks[5], 5, v, 1, 0, {})
  }

  lemma ChainIsReached(v: Version) returns (w: World)
    ensures ComesFromNew(w, true) && Chain(w, v)
  {
    var w0 := FiveNew(v);
    NewComesFromNew(w0, true);
    w := FirstJoin(w0, v);
    w := Joins(w, 4, 2, v, true);
  }

  lemma FirstJoin(w: World, v: Version) returns (w': World)
    requires ComesFromNew(w, true) && w == FiveNew(v)
    ensures ComesFromNew(w', true) && w'.vks.Keys == {1, 2, 3, 4, 5} && Named(w') && w'.wire == multiset{}
    ensures At(w'.vks[1], 1, v, 2, 0, {2}) && At(w'.vks[2], 2, v, 1, 1, {}) && At(w'.vks[3], 3, v, 1, 0, {})
    ensures At(w'.vks[4], 4, v, 0, 0, {}) && At(w'.vks[5], 5, v, 1, 0, {})
  {
    w' := Joins(w, 2, 1, v, true);
  }

  /** 2 has merged with 3 although it has a parent, and has told 4. */
  ghost predicate Level(w: World, v: Version) {
    && w.vks.Keys == {1, 2, 3, 4, 5} && Named(w) && Increment(2, 4, 1) in w.wire
    && At(w.vks[1], 1, v, 2, 0, {2}) && w.vks[2].parentID == 1 && At(w.vks[4], 4, v, 0, 2, {})
    && At(w.vks[5], 5, v, 1, 0, {})
  }

  lemma LevelIsReached(w: World, v: Version) returns (w': World)
    requires ComesFromNew(w, true) && Chain(w, v)
    ensures ComesFromNew(w', true) && Level(w', v)
  {
    w' := Merges(w, 2, 3, v, true);
    assert 4 in w'.vks[2].tables.cvks.Keys;
    assert Increment(2, 4, 1) in FanOut(w'.vks[2], {3});
  }

  /** 4 has risen with it. */
  ghost predicate Raised(w: World, v: Version) {
    && w.vks.Keys == {1, 2, 3, 4, 5} && Named(w)
    && At(w.vks[1], 1, v, 2, 0, {2}) && w.vks[2].parentID == 1 && At(w.vks[4], 4, v, 1, 2, {})
    && At(w.vks[5], 5, v, 1, 0, {})
  }

  lemma RaisedIsReached(w: World, v: Version) returns (w': World)
    requires ComesFromNew(w, true) && Level(w, v)
    ensures ComesFromNew(w', true) && Raised(w', v)
  {
    var m := Increment(2, 4, 1);
    IncrementRaises(w.vks[4], v);
    NextComesFromNew(w, Deliver(m, v), true);
    w' := TakeDelivery(w, m, v);
  }

  lemma IncrementRaises(n: Node, v: Version)
    requires At(n, 4, v, 0, 2, {})
    ensures ServeIncrement(n, Request(false, v, 2), Present(1)).0 == n.(height := 1)
  {
  }

  lemma CycleIsReached(w: World, v: Version) returns (w': World)
    requires ComesFromNew(w, true) && Raised(w, v)
    ensures ComesFromNew(w', true) && w'.vks.Keys == {1, 2, 3, 4, 5}
    ensures w'.vks[1].parentID == 4 && w'.vks[4].parentID == 2 && w'.vks[2].parentID == 1
  {
    var w1 := Merges(w, 4, 5, v, true);
    w' := Merges(w1, 4, 1, v, true);
  }

  /**
    When vaultkeepers that are no roots start merges, parents can form a cycle: from new vaultkeepers, 1
    ends up below 4, which is below 2, which is below 1.
   */
  lemma ChildMergesMakeCycle(v: Version) returns (w: World)
    ensures ComesFromNew(w, true) && w.vks.Keys == {1, 2, 3, 4, 5}
    ensures Up(w, 1, 1) == 4 && Up(w, 1, 2) == 2 && Up(w, 1, 3) == 1
  {
    w := ChainIsReached(v);
    w := LevelIsReached(w, v);
    w := RaisedIsReached(w, v);
    w := CycleIsReached(w, v);
    assert Up(w, 1, 0) == 1;
  }

  // ---- a merge with a child still on record -------------------------------------------------------

  function ThreeNew(v: Version): World {
    World(map[1 := Fresh(1, {v}, 0), 5 := Fresh(5, {v}, 0), 6 := Fresh(6, {v}, 0)], multiset{})
  }

  /** 5 is below 1 and has registered a service there. */
  ghost predicate ServiceOfChild(w: World, v: Version) {
    && w.vks.Keys == {1, 5, 6} && Named(w)
    && At(w.vks[1], 1, v, 1, 0, {5}) && At(w.vks[5], 5, v, 0, 1, {}) && At(w.vks[6], 6, v, 0, 0, {})
    && RegisteredBy5(w.vks[1].tables)
  }

  ghost predicate RegisteredBy5(t: Tables) {
    Agrees(t) && 5 in t.cvks && "dns" in t.cvks[5].services
  }

  lemma ServiceOfChildIsReached(v: Version) returns (w: World)
    ensures ComesFromNew(w, false) && ServiceOfChild(w, v)
  {
    NewComesFromNew(ThreeNew(v), false);
    w := FirstMerge(ThreeNew(v), v);
    w := ChildRegisters(w, v);
  }

  ghost predicate ChildOfMerge(w: World, v: Version) {
    && w.vks.Keys == {1, 5, 6} && Named(w)
    && At(w.vks[1], 1, v, 1, 0, {5}) && At(w.vks[5], 5, v, 0, 1, {}) && At(w.vks[6], 6, v, 0, 0, {})
    && w.vks[1].tables == AddCVK(EMPTY_TABLES, 5, "vk")
  }

  /** Three vaultkeepers of height 0 stand alone. */
  ghost predicate Alone(w: World, v: Version) {
    && w.vks.Keys == {1, 5, 6} && Named(w) && w.vks[1].tables == EMPTY_TABLES
    && At(w.vks[1], 1, v, 0, 0, {}) && At(w.vks[5], 5, v, 0, 0, {}) && At(w.vks[6], 6, v, 0, 0, {})
  }

  lemma FirstMerge(w: World, v: Version) returns (w': World)
    requires ComesFromNew(w, false) && Alone(w, v)
    ensures ComesFromNew(w', false) && ChildOfMerge(w', v)
  {
    w' := Merges(w, 1, 5, v, false);
  }

  lemma ChildRegisters(w: World, v: Version) returns (w': World)
    requires ComesFromNew(w, false) && ChildOfMerge(w, v)
    ensures ComesFromNew(w', false) && ServiceOfChild(w', v)
  {
    var e := Register(Request(false, v, 5), Present(RegisterBody("dns", Some(0), Some("host"))), true);
    RegistrationBy5(w.vks[1], v);
    w' := Happens(w, 1, e, false);
  }

  lemma RegistrationBy5(n: Node, v: Version)
    requires v in n.supported && n.tables == AddCVK(EMPTY_TABLES, 5, "vk")
    ensures var reg := Register(Request(false, v, 5), Present(RegisterBody("dns", Some(0), Some("host"))), true);
            var n' := Apply(n, reg);
            && n' == n.(tables := n'.tables) && RegisteredBy5(n'.tables)
            && n'.tables.cvks.Keys == {5} && n'.tables.leaves == map[]
  {
    var t := AddCVK(EMPTY_TABLES, 5, "vk");
    AddCVKAgreesIff(EMPTY_TABLES, 5, "vk");
    AddServiceAgrees(t, 5, "dns", "host", 0, true);
  }

  /** 5 has given its parent up, which still has it on record, and has merged with 6. */
  lemma RemergeIsReached(w: World, v: Version) returns (w': World)
    requires ComesFromNew(w, false) && ServiceOfChild(w, v)
    ensures ComesFromNew(w', false) && w'.vks.Keys == {1, 5, 6} && Named(w')
    ensures At(w'.vks[1], 1, v, 1, 0, {5}) && RegisteredBy5(w'.vks[1].tables)
    ensures At(w'.vks[5], 5, v, 1, 0, {6})
  {
    w' := ChildGivesUp(w, v);
    w' := Merges(w', 5, 6, v, false);
  }

  lemma ChildGivesUp(w: World, v: Version) returns (w': World)
    requires ComesFromNew(w, false) && ServiceOfChild(w, v)
    ensures ComesFromNew(w', false) && w'.vks.Keys == {1, 5, 6} && Named(w')
    ensures w'.vks[1] == w.vks[1] && At(w'.vks[5], 5, v, 0, 0, {}) && At(w'.vks[6], 6, v, 0, 0, {})
  {
    w' := GivesUp(w, 5, false);
  }

  /**
    Merging twice with the same child is possible between roots: from new vaultkeepers, 1 merges with 5,
    5 registers a service and loses its parent, merges with 6, and 1 merges with 5 again, whose record is
    replaced while the index keeps its service.
   */
  lemma RemergingHappens(v: Version) returns (w: World, w': World)
    ensures ComesFromNew(w, false) && 1 in w.vks && Agrees(w.vks[1].tables)
    ensures ComesFromNew(w', false) && 1 in w'.vks && !Agrees(w'.vks[1].tables)
    ensures w'.vks[1].tables == AddCVK(w.vks[1].tables, 5, "vk")
  {
    w := ServiceOfChildIsReached(v);
    w := RemergeIsReached(w, v);
    w' := Merges(w, 1, 5, v, false);
    AddCVKAgreesIff(w.vks[1].tables, 5, "vk");
  }
}
