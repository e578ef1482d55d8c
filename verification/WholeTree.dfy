/**
  Root omnipotence for the tree of parent links. A child whose record has expired still belongs to its
  parent's tree, and what is registered under it may be unknown above.
 */
module WholeTree {
  import opened Basics
  import opened Versions
  import opened ChildTables
  import opened VaultNode
  import opened Vault
  import opened Omnipotence

  /** Some leaf anywhere in the tree below r, r included, has registered s. */
  ghost predicate RegisteredBelow(w: World, r: NodeID, s: Service) {
    exists u, leaf :: u in w.vks && Below(w, u, r) && LeafOffers(w, u, leaf, s)
  }

  /** r lists exactly what is registered anywhere in the tree below it. */
  ghost predicate KnowsItsTree(w: World, r: NodeID)
    requires r in w.vks
  {
    forall s :: s in w.vks[r].tables.all <==> RegisteredBelow(w, r, s)
  }

  /** Whatever is listed by a vaultkeeper below r that is off record, r lists as well. */
  ghost predicate OffRecordIsKnown(w: World, r: NodeID)
    requires r in w.vks
  {
    forall v | v in w.vks && v != r && Below(w, v, r) && !OnRecord(w, v) ::
      w.vks[v].tables.all.Keys <= w.vks[r].tables.all.Keys
  }

  lemma {:induction false} UnderIsBelow(w: World, u: NodeID, v: NodeID)
    requires Rising(w) && u in w.vks && Under(w, u, v)
    ensures Below(w, u, v)
    decreases TWO_TO_16 - w.vks[u].height
  {
    if u == v {
      assert Up(w, u, 0) == v;
    } else {
      assert LinkRises(w, u);
      UnderIsBelow(w, w.vks[u].parentID, v);
      ChildIsBelow(w, u, v);
    }
  }

  lemma BelowIsTransitive(w: World, u: NodeID, v: NodeID, r: NodeID)
    requires Below(w, u, v) && Below(w, v, r)
    ensures Below(w, u, r)
  {
    var i: nat :| Up(w, u, i) == v;
    var d: nat :| Up(w, v, d) == r;
    UpAdds(w, u, i, d);
  }

  lemma ParentIsBelow(w: World, v: NodeID, r: NodeID)
    requires v in w.vks && v != r && Below(w, v, r)
    ensures Below(w, w.vks[v].parentID, r)
  {
    var k: nat :| Up(w, v, k) == r;
    assert k != 0;
    UpShift(w, v, k - 1);
  }

  /** What a vaultkeeper lists is registered in the tree below it. */
  lemma ListedIsRegisteredBelow(w: World, version: Version, v: NodeID, s: Service)
    requires Sound(w, version) && AllInSync(w) && v in w.vks && s in w.vks[v].tables.all
    ensures RegisteredBelow(w, v, s)
  {
    ListsExactlyWhatIsBelow(w, version, v, s);
    var u, leaf :| u in w.vks && Under(w, u, v) && LeafOffers(w, u, leaf, s);
    UnderIsBelow(w, u, v);
  }

  /** A listed name climbs from parent to parent; where a record is missing, r is known to list it anyway. */
  lemma {:induction false} NamesClimb(w: World, version: Version, v: NodeID, r: NodeID, s: Service)
    requires Sound(w, version) && AllInSync(w) && v in w.vks && r in w.vks && Below(w, v, r)
    requires OffRecordIsKnown(w, r) && s in w.vks[v].tables.all
    ensures s in w.vks[r].tables.all
    decreases TWO_TO_16 - w.vks[v].height
  {
    if v != r && OnRecord(w, v) {
      var p := w.vks[v].parentID;
      ParentIsBelow(w, v, r);
      ZeroIsBelowNobody(w, r);
      assert LinkRises(w, v) && InSync(w, v);
      assert p in w.vks;
      assert NodeOk(w, p, version);
      OffersAreListed(w.vks[p].tables, v, s);
      NamesClimb(w, version, p, r, s);
    }
  }

  /** 0, the parent of a root, is below nobody. */
  lemma ZeroIsBelowNobody(w: World, r: NodeID)
    requires Named(w) && r in w.vks
    ensures !Below(w, 0, r)
  {
    forall k: nat
      ensures Up(w, 0, k) == 0
    {
      ZeroStays(w, k);
    }
  }

  lemma {:induction false} ZeroStays(w: World, k: nat)
    requires Named(w)
    ensures Up(w, 0, k) == 0
  {
    if k > 0 {
      ZeroStays(w, k - 1);
    }
  }

  /**
    In a vault where parents and children are in sync, a vaultkeeper lists exactly what is registered in
    the tree below it if and only if it happens to list whatever the vaultkeepers off record there list.
   */
  lemma KnowsItsTreeIff(w: World, version: Version, r: NodeID)
    requires Sound(w, version) && AllInSync(w) && r in w.vks
    ensures KnowsItsTree(w, r) <==> OffRecordIsKnown(w, r)
  {
    if KnowsItsTree(w, r) {
      forall v, s | v in w.vks && v != r && Below(w, v, r) && !OnRecord(w, v) && s in w.vks[v].tables.all
        ensures s in w.vks[r].tables.all
      {
        ListedIsRegisteredBelow(w, version, v, s);
        var u, leaf :| u in w.vks && Below(w, u, v) && LeafOffers(w, u, leaf, s);
        BelowIsTransitive(w, u, v, r);
      }
    }
    if OffRecordIsKnown(w, r) {
      forall s
        ensures s in w.vks[r].tables.all <==> RegisteredBelow(w, r, s)
      {
        KnownIsRegistered(w, version, r, s);
      }
    }
  }

  lemma KnownIsRegistered(w: World, version: Version, r: NodeID, s: Service)
    requires Sound(w, version) && AllInSync(w) && r in w.vks && OffRecordIsKnown(w, r)
    ensures s in w.vks[r].tables.all <==> RegisteredBelow(w, r, s)
  {
    if s in w.vks[r].tables.all {
      ListedIsRegisteredBelow(w, version, r, s);
    }
    if RegisteredBelow(w, r, s) {
      var u, leaf :| u in w.vks && Below(w, u, r) && LeafOffers(w, u, leaf, s);
      assert NodeOk(w, u, version);
      OffersAreListed(w.vks[u].tables, leaf, s);
      NamesClimb(w, version, u, r, s);
    }
  }

  // ---- runs without an expired record -------------------------------------------------------------

  /** A parent's record of a child VK expires. */
  predicate IsExpiry(s: VaultStep) {
    s.Loses? && s.change.CVKRemoved?
  }

  /** Links and records as before, or more of both, keep everyone on record who was. */
  lemma RecordsStay(w: World, w': World)
    requires EveryoneOnRecord(w) && w'.vks.Keys == w.vks.Keys
    requires forall v | v in w.vks ::
               w'.vks[v].parentID == w.vks[v].parentID && w.vks[v].tables.cvks.Keys <= w'.vks[v].tables.cvks.Keys
    ensures EveryoneOnRecord(w')
  {
    forall v | v in w'.vks
      ensures OnRecord(w', v)
    {
      assert OnRecord(w, v);
    }
  }

  /** Cascades change no link and no set of recorded children. */
  lemma NotifyAllKeepsShape(w: World, v: NodeID, order: seq<Service>, version: Version)
    requires Sound(w, version) && v in w.vks
    ensures SameShape(w, NotifyAll(w, v, order, version))
    decreases |order|
  {
    if order != [] && w.vks[v].parentID != 0 {
      ParentIsAbove(w, v, order[0], version);
      DeregisterUpKeepsSync(w, w.vks[v].parentID, v, order[0], version);
      NotifyAllKeepsShape(DeregisterUp(w, w.vks[v].parentID, v, order[0], version), v, order[1..], version);
    }
  }

  lemma RegisterAllKeepsShape(w: World, p: NodeID, c: NodeID, sent: seq<(Service, Addr)>, version: Version)
    requires Sound(w, version) && p in w.vks && c != p
    ensures SameShape(w, RegisterAll(w, p, c, sent, version))
    decreases |sent|
  {
    if sent != [] {
      RegisterUpKeepsSync(w, p, c, sent[0].0, sent[0].1, 0, false, version);
      RegisterAllKeepsShape(RegisterUp(w, p, c, sent[0].0, sent[0].1, 0, false, version), p, c, sent[1..], version);
    }
  }

  lemma ShapeKeepsRecords(w: World, w': World)
    requires EveryoneOnRecord(w) && SameShape(w, w')
    ensures EveryoneOnRecord(w')
  {
    forall v | v in w'.vks
      ensures OnRecord(w', v)
    {
      assert OnRecord(w, v);
    }
  }

  lemma LossKeepsRecords(w: World, v: NodeID, c: Change, order: seq<Service>, version: Version)
    requires Sound(w, version) && EveryoneOnRecord(w) && Possible(w, Loses(v, c, order), version) && !c.CVKRemoved?
    ensures EveryoneOnRecord(Advance(w, Loses(v, c, order), version))
  {
    var t := w.vks[v].tables;
    var w1 := SetTables(w, v, Changed(t, c));
    LossIsSound(w, v, c, version);
    LossKeepsCVKs(t, c);
    RecordsStay(w, w1);
    NotifyAllKeepsShape(w1, v, order, version);
    ShapeKeepsRecords(w1, NotifyAll(w1, v, order, version));
  }

  lemma LossKeepsCVKs(t: Tables, c: Change)
    requires IsLoss(t, c) && !c.CVKRemoved?
    ensures Changed(t, c).cvks == t.cvks
  {
    match c
    case ServicePruned(id, s, flag) =>
      FirePruneTables(t, id, s, flag);
      ForgetLeaves(t, id, s);
    case _ =>
  }

  lemma DepartureKeepsRecords(w: World, c: NodeID, order: seq<Service>, version: Version)
    requires Sound(w, version) && EveryoneOnRecord(w) && Possible(w, ChildLeaves(c, order), version)
    ensures EveryoneOnRecord(Advance(w, ChildLeaves(c, order), version))
  {
    var p, w1 := w.vks[c].parentID, Departed(w, c);
    DepartureIsSound(w, c, version);
    assert LinkRises(w, c);
    forall v | v in w1.vks
      ensures OnRecord(w1, v)
    {
      assert OnRecord(w, v);
    }
    NotifyAllKeepsShape(w1, p, order, version);
    ShapeKeepsRecords(w1, NotifyAll(w1, p, order, version));
  }

  lemma JoinKeepsRecords(w: World, c: NodeID, p: NodeID, cAddr: Addr, pAddr: Addr, sent: seq<(Service, Addr)>,
                         version: Version)
    requires Sound(w, version) && EveryoneOnRecord(w)
    requires Possible(w, ChildJoins(c, p, cAddr, pAddr, sent), version)
    ensures EveryoneOnRecord(Advance(w, ChildJoins(c, p, cAddr, pAddr, sent), version))
  {
    var w1 := TakeJoin(w, c, p, version, cAddr, pAddr);
    JoinIsSound(w, c, p, cAddr, pAddr, version);
    JoinShape(w, c, p, cAddr, pAddr, version);
    forall v | v in w1.vks
      ensures OnRecord(w1, v)
    {
      assert OnRecord(w, v);
    }
    if w1.vks[c].parentID == p {
      RegisterAllKeepsShape(w1, p, c, sent, version);
      ShapeKeepsRecords(w1, RegisterAll(w1, p, c, sent, version));
    }
  }

  lemma MergeKeepsRecords(w: World, r: NodeID, t: NodeID, rAddr: Addr, tAddr: Addr, version: Version)
    requires Sound(w, version) && EveryoneOnRecord(w)
    requires Possible(w, RootsMerge(r, t, rAddr, tAddr), version)
    ensures EveryoneOnRecord(TakeMerge(w, r, t, version, rAddr, tAddr))
  {
    var w' := TakeMerge(w, r, t, version, rAddr, tAddr);
    assert NodeOk(w, r, version);
    if OfferMerge(w, r, t, version, rAddr).1.Accepted? {
      MergeShape(w, r, t, version, rAddr, tAddr);
      forall v | v in w'.vks
        ensures OnRecord(w', v)
      {
        assert OnRecord(w, v);
      }
    } else {
      RefusedMerge(w.vks[t], Request(false, version, r), MergeRequest(w, r, rAddr), None);
      RecordsStay(w, w');
    }
  }

  /** Every step but the expiry of a record keeps everyone on record. */
  lemma AdvanceKeepsRecords(w: World, s: VaultStep, version: Version)
    requires Sound(w, version) && EveryoneOnRecord(w) && Possible(w, s, version) && !IsExpiry(s)
    ensures EveryoneOnRecord(Advance(w, s, version))
  {
    match s
    case Quiet(v, e) =>
      QuietKeepsLinks(w, w.vks[v], e);
      RecordsStay(w, ApplyAt(w, v, e));
    case LeafRegisters(v, leaf, s, addr, stale, stopped) =>
      RegisterUpKeepsSync(w, v, leaf, s, addr, stale, stopped, version);
      ShapeKeepsRecords(w, RegisterUp(w, v, leaf, s, addr, stale, stopped, version));
    case LeafDeregisters(v, leaf, s) =>
      DeregisterUpKeepsSync(w, v, leaf, s, version);
      ShapeKeepsRecords(w, DeregisterUp(w, v, leaf, s, version));
    case Loses(v, change, order) => LossKeepsRecords(w, v, change, order, version);
    case ChildLeaves(c, order) => DepartureKeepsRecords(w, c, order, version);
    case GivesUpParent(c) => GivingUpKeepsRecords(w, c);
    case ChildJoins(c, p, cAddr, pAddr, sent) => JoinKeepsRecords(w, c, p, cAddr, pAddr, sent, version);
    case RootsMerge(r, t, rAddr, tAddr) => MergeKeepsRecords(w, r, t, rAddr, tAddr, version);
    case Carries(s) =>
      CarryingMovesHeights(w, s);
      RecordsStay(w, Take(w, s));
  }

  lemma GivingUpKeepsRecords(w: World, c: NodeID)
    requires Named(w) && EveryoneOnRecord(w) && c in w.vks
    ensures EveryoneOnRecord(ApplyAt(w, c, LoseParent))
  {
    var w' := ApplyAt(w, c, LoseParent);
    forall v | v in w'.vks
      ensures OnRecord(w', v)
    {
      assert OnRecord(w, v);
    }
  }

  lemma {:induction false} RecordsKeptAlways(w: World, ss: seq<VaultStep>, w': World, version: Version)
    requires Sound(w, version) && AllInSync(w) && EveryoneOnRecord(w)
    requires Reaches(w, ss, w', version) && forall s | s in ss :: !IsExpiry(s)
    ensures EveryoneOnRecord(w')
    decreases |ss|
  {
    if ss != [] {
      AdvanceKeepsRecords(w, ss[0], version);
      AdvanceKeepsSync(w, ss[0], version);
      RecordsKeptAlways(Advance(w, ss[0], version), ss[1..], w', version);
    }
  }

  /**
    Root omnipotence in full: in every vault reached from new vaultkeepers without a record expiring, each
    vaultkeeper lists exactly the services that leaves anywhere in the tree below it have registered.
   */
  lemma EveryoneKnowsItsTree(w: World, ss: seq<VaultStep>, w': World, version: Version, r: NodeID)
    requires Newborn(w, version) && Reaches(w, ss, w', version) && r in w'.vks
    requires forall s | s in ss :: !IsExpiry(s)
    ensures KnowsItsTree(w', r)
  {
    NewbornIsSound(w, version);
    forall v | v in w.vks
      ensures OnRecord(w, v)
    {
      assert w.vks[v] == Fresh(v, w.vks[v].supported, w.vks[v].height);
    }
    ReachedIsInSync(w, ss, w', version);
    RecordsKeptAlways(w, ss, w', version);
    assert forall v | v in w'.vks :: OnRecord(w', v);
    KnowsItsTreeIff(w', version, r);
  }
}
