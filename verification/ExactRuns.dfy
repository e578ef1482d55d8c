/**
  Exact heights over whole runs: while nothing is lost and no record expires, every parent is exactly one
  level above its child after every JOIN, every LEAVE and every completed MERGE.
 */
module ExactRuns {
  import opened Basics
  import opened Versions
  import opened ChildTables
  import opened VaultNode
  import opened Vault
  import opened MergeWave

  datatype OrderlyStep =
    | Works(v: NodeID, event: Event)
    | Joins(child: NodeID, parent: NodeID, version: Version, childAddr: Addr, parentAddr: Addr)
    | Leaves(child: NodeID, version: Version)
    | Merges(root: NodeID, target: NodeID, version: Version, rootAddr: Addr, targetAddr: Addr, wave: seq<Step>)

  /** No message is in flight, heights are exact, and every child is on record. */
  ghost predicate Orderly(w: World) {
    Exact(w) && EveryoneOnRecord(w) && w.wire == multiset{}
  }

  /**
    Anything that is not part of an exchange, short of losing a parent or a record; JOINs by roots; LEAVEs;
    and MERGEs by roots, whose wave, if they are accepted, is delivered to its end.
   */
  ghost predicate CanTake(w: World, s: OrderlyStep) {
    match s
    case Works(v, e) =>
      Enabled(w, Local(v, e)) && !e.LoseParent? && !ChangeOf(w.vks[v], e).CVKRemoved?
    case Joins(c, p, _, _, _) => c in w.vks && p in w.vks && c != p && IsRoot(w.vks[c])
    case Leaves(c, _) => c in w.vks && w.vks[c].parentID in w.vks
    case Merges(r, t, version, rAddr, tAddr, wave) =>
      && r in w.vks && t in w.vks && r != t && IsRoot(w.vks[r])
      && (OfferMerge(w, r, t, version, rAddr).1.Accepted? ==>
            && IsRoot(w.vks[t]) && t !in w.vks[r].tables.leaves
            && AllWaveSteps(TakeMerge(w, r, t, version, rAddr, tAddr), wave)
            && Ripple(TakeMerge(w, r, t, version, rAddr, tAddr), wave).wire == multiset{})
  }

  function TakeLeave(w: World, c: NodeID, version: Version): World
    requires c in w.vks && w.vks[c].parentID in w.vks
  {
    var p := w.vks[c].parentID;
    var w1 := w.(vks := w.vks[p := ServeLeave(w.vks[p], Request(false, version, c), false, {}, false).0]);
    w1.(vks := w1.vks[c := DropParent(w1.vks[c])])
  }

  function TakeOrderly(w: World, s: OrderlyStep): World
    requires CanTake(w, s)
  {
    match s
    case Works(v, e) => Take(w, Local(v, e))
    case Joins(c, p, version, cAddr, pAddr) => TakeJoin(w, c, p, version, cAddr, pAddr)
    case Leaves(c, version) => TakeLeave(w, c, version)
    case Merges(r, t, version, rAddr, tAddr, wave) =>
      if OfferMerge(w, r, t, version, rAddr).1.Accepted?
      then Ripple(TakeMerge(w, r, t, version, rAddr, tAddr), wave)
      else TakeMerge(w, r, t, version, rAddr, tAddr)
  }

  /** A vaultkeeper that keeps its height, and its parent or none, and forgets only children that left. */
  lemma StaysOrderly(w: World, w': World)
    requires Orderly(w) && w'.vks.Keys == w.vks.Keys && w'.wire == multiset{}
    requires forall v | v in w.vks ::
               && w'.vks[v].id == v && w'.vks[v].height == w.vks[v].height
               && w'.vks[v].parentID in {w.vks[v].parentID, 0}
    requires forall v, c | v in w.vks && c in w.vks && w'.vks[c].parentID == v && c in w.vks[v].tables.cvks ::
               c in w'.vks[v].tables.cvks
    ensures Orderly(w')
  {
    forall v | v in w'.vks
      ensures ExactLink(w', v) && OnRecord(w', v)
    {
      assert ExactLink(w, v) && OnRecord(w, v);
    }
  }

  lemma WorkStaysOrderly(w: World, v: NodeID, e: Event)
    requires Orderly(w) && CanTake(w, Works(v, e))
    ensures Orderly(Take(w, Local(v, e)))
  {
    LocalKeepsStructure(w.vks[v], e);
    ApplyChanges(w.vks[v], e);
    ChangeKeepsCVKs(w.vks[v].tables, ChangeOf(w.vks[v], e));
    StaysOrderly(w, Take(w, Local(v, e)));
  }

  lemma ChangeKeepsCVKs(t: Tables, c: Change)
    requires !c.CVKRemoved?
    ensures t.cvks.Keys <= Changed(t, c).cvks.Keys
  {
    match c
    case Deregistered(id, s) => DeregisterLeaves(t, id, s);
    case ServicePruned(id, s, flag) =>
      FirePruneTables(t, id, s, flag);
      ForgetLeaves(t, id, s);
    case _ =>
  }

  lemma JoinStaysOrderly(w: World, c: NodeID, p: NodeID, version: Version, cAddr: Addr, pAddr: Addr)
    requires Orderly(w) && c in w.vks && p in w.vks && c != p && IsRoot(w.vks[c])
    ensures Orderly(TakeJoin(w, c, p, version, cAddr, pAddr))
  {
    JoinKeepsExact(w, c, p, version, cAddr, pAddr);
    JoinLinks(w, c, p, version, cAddr, pAddr);
    assert forall v | v in w.vks :: OnRecord(w, v);
  }

  lemma LeaveStaysOrderly(w: World, c: NodeID, version: Version)
    requires Orderly(w) && c in w.vks && w.vks[c].parentID in w.vks
    ensures Orderly(TakeLeave(w, c, version))
  {
    var p := w.vks[c].parentID;
    assert ExactLink(w, c);
    LeaveForgetsOne(w.vks[p], Request(false, version, c));
    StaysOrderly(w, TakeLeave(w, c, version));
  }

  lemma LeaveForgetsOne(n: Node, req: Request)
    ensures var n' := ServeLeave(n, req, false, {}, false).0;
            && n' == n.(tables := n'.tables)
            && n.tables.cvks.Keys - {req.id} <= n'.tables.cvks.Keys
  {
  }

  lemma MergeStaysOrderly(w: World, r: NodeID, t: NodeID, version: Version, rAddr: Addr, tAddr: Addr, wave: seq<Step>)
    requires Orderly(w) && CanTake(w, Merges(r, t, version, rAddr, tAddr, wave))
    ensures Orderly(TakeOrderly(w, Merges(r, t, version, rAddr, tAddr, wave)))
  {
    if OfferMerge(w, r, t, version, rAddr).1.Accepted? {
      OrderlyRises(w);
      var w1 := TakeMerge(w, r, t, version, rAddr, tAddr);
      assert AllOnRecord(w, r);
      MergeWaveIsExact(w, r, t, version, rAddr, tAddr, wave);
      MergeStartsWave(w, r, t, version, rAddr, tAddr);
      var up := WaveGoesOn(w, r, t, {r}, w1, wave);
      LiftedKeepsRecords(w, r, t, up, Ripple(w1, wave));
    } else {
      MergeOffers(w.vks[t], Request(false, version, r), MergeRequest(w, r, rAddr), None);
      StaysOrderly(w, TakeMerge(w, r, t, version, rAddr, tAddr));
    }
  }

  lemma OrderlyRises(w: World)
    requires Orderly(w)
    ensures Rising(w) && forall v | v in w.vks :: OnRecord(w, v)
  {
    assert forall v | v in w.vks :: ExactLink(w, v) ==> LinkRises(w, v);
  }

  lemma LiftedKeepsRecords(w0: World, r: NodeID, t: NodeID, up: set<NodeID>, w: World)
    requires EveryoneOnRecord(w0) && Lifted(w0, r, t, up, w) && r in w0.vks && t in w0.vks && r != t
    ensures EveryoneOnRecord(w)
  {
    forall v | v in w.vks
      ensures OnRecord(w, v)
    {
      assert OnRecord(w0, v) && LiftedNode(w0, r, t, up, w, v);
      var p := w.vks[v].parentID;
      assert p in w.vks ==> LiftedNode(w0, r, t, up, w, p);
    }
  }

  lemma StepStaysOrderly(w: World, s: OrderlyStep)
    requires Orderly(w) && CanTake(w, s)
    ensures Orderly(TakeOrderly(w, s))
  {
    match s
    case Works(v, e) => WorkStaysOrderly(w, v, e);
    case Joins(c, p, version, cAddr, pAddr) => JoinStaysOrderly(w, c, p, version, cAddr, pAddr);
    case Leaves(c, version) => LeaveStaysOrderly(w, c, version);
    case Merges(r, t, version, rAddr, tAddr, wave) => MergeStaysOrderly(w, r, t, version, rAddr, tAddr, wave);
  }

  ghost predicate CanTakeAll(w: World, ss: seq<OrderlyStep>)
    decreases |ss|
  {
    ss == [] || (CanTake(w, ss[0]) && CanTakeAll(TakeOrderly(w, ss[0]), ss[1..]))
  }

  function TakeAllOrderly(w: World, ss: seq<OrderlyStep>): World
    requires CanTakeAll(w, ss)
    decreases |ss|
  {
    if ss == [] then w else TakeAllOrderly(TakeOrderly(w, ss[0]), ss[1..])
  }

  /** After every such run, in particular from new vaultkeepers, heights are exact. */
  lemma {:induction false} ExactAlways(w: World, ss: seq<OrderlyStep>)
    requires Orderly(w) && CanTakeAll(w, ss)
    ensures Orderly(TakeAllOrderly(w, ss))
    decreases |ss|
  {
    if ss != [] {
      StepStaysOrderly(w, ss[0]);
      ExactAlways(TakeOrderly(w, ss[0]), ss[1..]);
    }
  }

  lemma NewIsOrderly(w: World)
    requires 0 !in w.vks && w.wire == multiset{}
    requires forall v | v in w.vks :: w.vks[v] == Fresh(v, w.vks[v].supported, w.vks[v].height)
    ensures Orderly(w)
  {
    forall v | v in w.vks
      ensures ExactLink(w, v) && OnRecord(w, v) && w.vks[v].id == v
    {
      assert w.vks[v] == Fresh(v, w.vks[v].supported, w.vks[v].height);
    }
  }
}
