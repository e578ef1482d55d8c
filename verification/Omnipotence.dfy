/**
  Root omnipotence. In a vault that grows by JOIN, and by MERGE with roots that list nothing, with every
  message about services delivered, each vaultkeeper lists exactly the service names registered by leaves
  at or below it that are on record all the way. Other MERGEs lose this, in exactly the cases given at the end.

  Every step runs its whole cascade of REGISTERs or DEREGISTERs before the next step starts. The
  DEREGISTERs of a bulk removal are sent once the child's entries are gone; they only reach ancestors.
 */
module Omnipotence {
  import opened Basics
  import opened Versions
  import opened ChildTables
  import opened VaultNode
  import opened Vault

  // ---- the invariant ----------------------------------------------------------------------------

  ghost predicate NodeOk(w: World, v: NodeID, version: Version)
    requires v in w.vks
  {
    var n := w.vks[v];
    && version in n.supported
    && (n.parentAddr.Some? <==> n.parentID != 0)
    && Agrees(n.tables)
    && KindsKept(n.tables, w.vks.Keys)
    && "" !in n.tables.all
    && (forall c | c in n.tables.cvks :: w.vks[c].parentID == v)
  }

  ghost predicate Sound(w: World, version: Version) {
    Rising(w) && forall v {:trigger NodeOk(w, v, version)} | v in w.vks :: NodeOk(w, v, version)
  }

  /** The parent's record of v, if it has one, holds exactly the names v lists. */
  predicate InSync(w: World, v: NodeID)
    requires v in w.vks
  {
    var p := w.vks[v].parentID;
    p in w.vks && v in w.vks[p].tables.cvks ==>
      w.vks[p].tables.cvks[v].services.Keys == w.vks[v].tables.all.Keys
  }

  ghost predicate AllInSync(w: World) {
    forall v {:trigger InSync(w, v)} | v in w.vks :: InSync(w, v)
  }

  // ---- omnipotence of a state that satisfies it ---------------------------------------------------

  /** u is v or hangs below it on record: parent links and child records agree all the way up. */
  ghost predicate Under(w: World, u: NodeID, v: NodeID)
    requires Rising(w) && u in w.vks
    decreases TWO_TO_16 - w.vks[u].height
  {
    u == v ||
    (LinkRises(w, u) && var p := w.vks[u].parentID; p in w.vks && u in w.vks[p].tables.cvks && Under(w, p, v))
  }

  predicate LeafOffers(w: World, u: NodeID, leaf: NodeID, s: Service)
    requires u in w.vks
  {
    leaf in w.vks[u].tables.leaves && s in w.vks[u].tables.leaves[leaf]
  }

  /** Some leaf at or below v, on record all the way, has registered s. */
  ghost predicate RegisteredUnder(w: World, v: NodeID, s: Service)
    requires Rising(w)
  {
    exists u, leaf :: u in w.vks && Under(w, u, v) && LeafOffers(w, u, leaf, s)
  }

  lemma {:induction false} NamesReachAncestors(w: World, version: Version, u: NodeID, v: NodeID, s: Service)
    requires Sound(w, version) && AllInSync(w) && u in w.vks && Under(w, u, v)
    requires s in w.vks[u].tables.all
    ensures v in w.vks && s in w.vks[v].tables.all
    decreases TWO_TO_16 - w.vks[u].height
  {
    if u != v {
      var p := w.vks[u].parentID;
      assert InSync(w, u) && LinkRises(w, u) && NodeOk(w, p, version);
      OffersAreListed(w.vks[p].tables, u, s);
      NamesReachAncestors(w, version, p, v, s);
    }
  }

  lemma OffersAreListed(t: Tables, id: NodeID, s: Service)
    requires Agrees(t)
    ensures Offers(t, id, s).Some? ==> s in t.all && id in t.all[s]
  {
    assert Listed(t.all, s, id) == Offers(t, id, s);
  }

  lemma ListedHasProvider(t: Tables, s: Service) returns (id: NodeID)
    requires Agrees(t) && s in t.all
    ensures Offers(t, id, s).Some?
  {
    id :| id in t.all[s];
    assert Listed(t.all, s, id) == Offers(t, id, s);
  }

  lemma {:induction false} UnderExtends(w: World, u: NodeID, c: NodeID, v: NodeID)
    requires Rising(w) && u in w.vks && Under(w, u, c)
    requires c in w.vks && w.vks[c].parentID == v && v in w.vks && c in w.vks[v].tables.cvks
    ensures Under(w, u, v)
    decreases TWO_TO_16 - w.vks[u].height
  {
    assert LinkRises(w, u) && LinkRises(w, c);
    if u == c {
      assert Under(w, v, v);
    } else {
      UnderExtends(w, w.vks[u].parentID, c, v);
    }
  }

  lemma {:induction false} NamesComeFromLeaves(w: World, version: Version, v: NodeID, s: Service)
    requires Sound(w, version) && AllInSync(w) && v in w.vks && s in w.vks[v].tables.all
    ensures RegisteredUnder(w, v, s)
    decreases w.vks[v].height
  {
    var t := w.vks[v].tables;
    assert NodeOk(w, v, version);
    var id := ListedHasProvider(t, s);
    if id in t.leaves && s in t.leaves[id] {
      assert Under(w, v, v) && LeafOffers(w, v, id, s);
    } else {
      assert w.vks[id].parentID == v;
      assert InSync(w, id) && LinkRises(w, id);
      NamesComeFromLeaves(w, version, id, s);
      var u, leaf :| u in w.vks && Under(w, u, id) && LeafOffers(w, u, leaf, s);
      UnderExtends(w, u, id, v);
    }
  }

  /** A vaultkeeper lists a service name exactly when some leaf at or below it has registered it. */
  lemma ListsExactlyWhatIsBelow(w: World, version: Version, v: NodeID, s: Service)
    requires Sound(w, version) && AllInSync(w) && v in w.vks
    ensures s in w.vks[v].tables.all <==> RegisteredUnder(w, v, s)
  {
    if s in w.vks[v].tables.all {
      NamesComeFromLeaves(w, version, v, s);
    }
    if RegisteredUnder(w, v, s) {
      var u, leaf :| u in w.vks && Under(w, u, v) && LeafOffers(w, u, leaf, s);
      assert NodeOk(w, u, version);
      OffersAreListed(w.vks[u].tables, leaf, s);
      NamesReachAncestors(w, version, u, v, s);
    }
  }

  // ---- cascades -----------------------------------------------------------------------------------

  function SetTables(w: World, v: NodeID, t: Tables): World
    requires v in w.vks
  {
    w.(vks := w.vks[v := w.vks[v].(tables := t)])
  }

  /** Nothing but child tables differs, and the same child VKs are on record everywhere. */
  ghost predicate SameShape(w: World, w': World) {
    && w'.vks.Keys == w.vks.Keys && w'.wire == w.wire
    && forall v {:trigger w'.vks[v]} | v in w.vks ::
         && w'.vks[v] == w.vks[v].(tables := w'.vks[v].tables)
         && w'.vks[v].tables.cvks.Keys == w.vks[v].tables.cvks.Keys
  }

  lemma ShapeKeepsRising(w: World, w': World)
    requires Rising(w) && SameShape(w, w')
    ensures Rising(w')
  {
    forall v | v in w'.vks
      ensures LinkRises(w', v)
    {
      assert LinkRises(w, v);
    }
  }

  /** Replacing the tables of one vaultkeeper by sound ones. */
  lemma SetTablesSound(w: World, v: NodeID, t: Tables, version: Version)
    requires Sound(w, version) && v in w.vks
    requires Agrees(t) && KindsKept(t, w.vks.Keys) && "" !in t.all
    requires t.cvks.Keys == w.vks[v].tables.cvks.Keys
    ensures Sound(SetTables(w, v, t), version) && SameShape(w, SetTables(w, v, t))
  {
    var w' := SetTables(w, v, t);
    ShapeKeepsRising(w, w');
    forall x | x in w'.vks
      ensures NodeOk(w', x, version)
    {
      assert NodeOk(w, x, version);
    }
  }

  /** v knows c, so a registration from it is accepted. */
  predicate Registers(w: World, v: NodeID, c: NodeID, s: Service)
    requires v in w.vks
  {
    s != "" && (c in w.vks[v].tables.leaves || c in w.vks[v].tables.cvks)
  }

  function AfterRegister(w: World, v: NodeID, c: NodeID, s: Service, addr: Addr, stale: int, stopped: bool): World
    requires v in w.vks
  {
    SetTables(w, v, AddService(w.vks[v].tables, c, s, addr, stale, stopped))
  }

  /** A REGISTER of child c arrives at v and is repeated up the tree. */
  function RegisterUp(w: World, v: NodeID, c: NodeID, s: Service, addr: Addr, stale: int, stopped: bool,
                      version: Version): World
    requires Sound(w, version) && v in w.vks
    decreases TWO_TO_16 - w.vks[v].height
  {
    if !Registers(w, v, c, s) then w
    else
      RegisterHop(w, v, c, s, addr, stale, stopped, version);
      var w1 := AfterRegister(w, v, c, s, addr, stale, stopped);
      if w.vks[v].parentID == 0 then w1
      else RegisterUp(w1, w.vks[v].parentID, v, s, addr, 0, false, version)
  }

  /** Each hop of a REGISTER is what the handler does with it, and it goes on exactly when the handler says so. */
  lemma RegisterHopIsHandler(w: World, v: NodeID, c: NodeID, s: Service, addr: Addr, stale: int, stopped: bool,
                             version: Version)
    requires Sound(w, version) && v in w.vks
    ensures var (n, reply, up) := ServeRegister(w.vks[v], Request(false, version, c),
                                                Present(RegisterBody(s, Some(stale), Some(addr))), stopped);
            && (reply.Accepted? <==> Registers(w, v, c, s))
            && w.(vks := w.vks[v := n]) ==
               (if Registers(w, v, c, s) then AfterRegister(w, v, c, s, addr, stale, stopped) else w)
            && (up <==> Registers(w, v, c, s) && w.vks[v].parentID != 0)
  {
    assert NodeOk(w, v, version);
    assert w.vks[v := w.vks[v]] == w.vks;
  }

  lemma RegisterHop(w: World, v: NodeID, c: NodeID, s: Service, addr: Addr, stale: int, stopped: bool,
                    version: Version)
    requires Sound(w, version) && v in w.vks && Registers(w, v, c, s)
    ensures var w1 := AfterRegister(w, v, c, s, addr, stale, stopped);
            && Sound(w1, version) && SameShape(w, w1)
            && LinkRises(w, v)
  {
    var t := w.vks[v].tables;
    assert NodeOk(w, v, version) && LinkRises(w, v);
    AddServiceAgrees(t, c, s, addr, stale, stopped);
    RegisteredTables(t, c, s, addr, stale, stopped);
    ChangeKeepsKinds(t, ServiceAdded(c, s, addr, stale, stopped), w.vks.Keys);
    SetTablesSound(w, v, AddService(t, c, s, addr, stale, stopped), version);
  }

  function AfterDeregister(w: World, v: NodeID, c: NodeID, s: Service): World
    requires v in w.vks
  {
    SetTables(w, v, Deregister(w.vks[v].tables, c, s).0)
  }

  /** A DEREGISTER of child c arrives at v, and goes on up whenever it removed the last provider. */
  function DeregisterUp(w: World, v: NodeID, c: NodeID, s: Service, version: Version): World
    requires Sound(w, version) && v in w.vks
    decreases TWO_TO_16 - w.vks[v].height
  {
    DeregisterHop(w, v, c, s, version);
    var w1 := AfterDeregister(w, v, c, s);
    if s in w.vks[v].tables.all && s !in w1.vks[v].tables.all && w.vks[v].parentID != 0 then
      DeregisterUp(w1, w.vks[v].parentID, v, s, version)
    else w1
  }

  /** Each hop of a DEREGISTER is what the handler does; it goes on when the handler counts a DEREGISTER sent. */
  lemma DeregisterHopIsHandler(w: World, v: NodeID, c: NodeID, s: Service, version: Version)
    requires Sound(w, version) && v in w.vks
    ensures var n := ServeDeregister(w.vks[v], Request(false, version, c), Present(s)).0;
            w.(vks := w.vks[v := n]) == AfterDeregister(w, v, c, s)
    ensures var t, t' := w.vks[v].tables, AfterDeregister(w, v, c, s).vks[v].tables;
            t'.deregs == t.deregs + if s in t.all && s !in t'.all then multiset{s} else multiset{}
  {
    assert NodeOk(w, v, version);
    DeregisterCounts(w.vks[v].tables, c, s);
  }

  lemma DeregisterCounts(t: Tables, c: NodeID, s: Service)
    ensures var t' := Deregister(t, c, s).0;
            t'.deregs == t.deregs + if s in t.all && s !in t'.all then multiset{s} else multiset{}
  {
    RemoveProviderIsUnlist(t, s, c);
    assert SoleProvided(t.all, {s}, c) == if s in t.all && t.all[s].Keys == {c} then {s} else {};
  }

  lemma DeregisterHop(w: World, v: NodeID, c: NodeID, s: Service, version: Version)
    requires Sound(w, version) && v in w.vks
    ensures var w1 := AfterDeregister(w, v, c, s);
            && Sound(w1, version) && SameShape(w, w1)
            && LinkRises(w, v)
  {
    var t := w.vks[v].tables;
    assert NodeOk(w, v, version) && LinkRises(w, v);
    DeregisterAgrees(t, c, s);
    DeregisteredTables(t, c, s);
    ChangeKeepsKinds(t, Deregistered(c, s), w.vks.Keys);
    SetTablesSound(w, v, Deregister(t, c, s).0, version);
  }

  /** DEREGISTER takes s from c's record and at most s from the names listed. */
  lemma DeregisteredTables(t: Tables, c: NodeID, s: Service)
    requires Agrees(t)
    ensures var t' := Deregister(t, c, s).0;
            && t'.cvks.Keys == t.cvks.Keys
            && (forall x | x in t.cvks ::
                  t'.cvks[x].services.Keys == t.cvks[x].services.Keys - if x == c then {s} else {})
            && t'.all.Keys <= t.all.Keys && t.all.Keys <= t'.all.Keys + {s}
  {
    RemoveProviderIsUnlist(t, s, c);
  }

  lemma RegisteredTables(t: Tables, c: NodeID, s: Service, addr: Addr, stale: int, stopped: bool)
    requires t.leaves.Keys !! t.cvks.Keys
    requires c in t.leaves || c in t.cvks
    ensures var t' := AddService(t, c, s, addr, stale, stopped);
            && t'.cvks.Keys == t.cvks.Keys
            && (forall x | x in t.cvks ::
                  t'.cvks[x].services.Keys == t.cvks[x].services.Keys + if x == c then {s} else {})
            && t'.all.Keys == t.all.Keys + {s}
  {
  }

  /** Everyone except c who was in sync still is. */
  ghost predicate SyncBut(w: World, w': World, c: NodeID) {
    w'.vks.Keys == w.vks.Keys &&
    forall x {:trigger InSync(w', x)} | x in w.vks && x != c && InSync(w, x) :: InSync(w', x)
  }

  /** Everyone except v and c who was in sync still is. */
  ghost predicate OthersSync(w: World, w': World, v: NodeID, c: NodeID) {
    w'.vks.Keys == w.vks.Keys &&
    forall x {:trigger InSync(w', x)} | x in w.vks && x != c && x != v && InSync(w, x) :: InSync(w', x)
  }

  /** The names v has on record for c; none when it has no record. */
  function Held(w: World, v: NodeID, c: NodeID): set<Service>
    requires v in w.vks
  {
    if c in w.vks[v].tables.cvks then w.vks[v].tables.cvks[c].services.Keys else {}
  }

  /** Vaultkeepers no higher than the receiver, other than itself, are not touched by a cascade. */
  ghost predicate LowerUntouched(w: World, w': World, v: NodeID)
    requires v in w.vks
  {
    w'.vks.Keys == w.vks.Keys &&
    forall x {:trigger w'.vks[x]} | x in w.vks && x != v && w.vks[x].height <= w.vks[v].height :: w'.vks[x] == w.vks[x]
  }

  /** What a cascade from c through v guarantees: soundness, and everyone but c still in sync. */
  ghost predicate Cascaded(w: World, w': World, v: NodeID, c: NodeID, version: Version)
    requires v in w.vks
  {
    Sound(w', version) && SameShape(w, w') && SyncBut(w, w', c) && LowerUntouched(w, w', v)
  }

  /** The local half of a REGISTER hop. */
  lemma RegisterLocally(w: World, v: NodeID, c: NodeID, s: Service, addr: Addr, stale: int, stopped: bool, w1: World)
    requires Rising(w) && v in w.vks && c != v && Registers(w, v, c, s) && Agrees(w.vks[v].tables)
    requires w1 == AfterRegister(w, v, c, s, addr, stale, stopped)
    ensures OthersSync(w, w1, v, c) && LowerUntouched(w, w1, v)
    ensures Held(w1, v, c) == Held(w, v, c) + if c in w.vks[v].tables.cvks then {s} else {}
    ensures w1.vks[v].tables.all.Keys == w.vks[v].tables.all.Keys + {s}
  {
    RegisteredTables(w.vks[v].tables, c, s, addr, stale, stopped);
    LocalSync(w, v, AddService(w.vks[v].tables, c, s, addr, stale, stopped), c);
  }

  lemma {:induction false} RegisterUpKeepsSync(w: World, v: NodeID, c: NodeID, s: Service, addr: Addr, stale: int,
                                               stopped: bool, version: Version)
    requires Sound(w, version) && v in w.vks && c != v
    ensures var w' := RegisterUp(w, v, c, s, addr, stale, stopped, version);
            && Cascaded(w, w', v, c, version)
            && Held(w', v, c) == Held(w, v, c) + if c in w.vks[v].tables.cvks && s != "" then {s} else {}
    decreases TWO_TO_16 - w.vks[v].height
  {
    assert LinkRises(w, v);
    if Registers(w, v, c, s) {
      var w1 := AfterRegister(w, v, c, s, addr, stale, stopped);
      assert NodeOk(w, v, version);
      RegisterHop(w, v, c, s, addr, stale, stopped, version);
      RegisterLocally(w, v, c, s, addr, stale, stopped, w1);
      var p := w.vks[v].parentID;
      if p == 0 {
        RootsEndCascades(w, w1, v, c, version);
      } else {
        RegisterUpKeepsSync(w1, p, v, s, addr, 0, false, version);
        CascadeAbove(w, w1, RegisterUp(w1, p, v, s, addr, 0, false, version), v, p, c, version,
                     w1.vks[v].tables.all.Keys);
      }
    }
  }

  lemma RootsEndCascades(w: World, w1: World, v: NodeID, c: NodeID, version: Version)
    requires Sound(w1, version) && SameShape(w, w1) && v in w.vks && w.vks[v].parentID == 0
    requires OthersSync(w, w1, v, c) && LowerUntouched(w, w1, v)
    ensures Cascaded(w, w1, v, c, version)
  {
    assert InSync(w1, v);
  }

  /** The cascade above v repairs v, keeps everyone else, and does not come back down. */
  lemma CascadeAbove(w: World, w1: World, w2: World, v: NodeID, p: NodeID, c: NodeID, version: Version,
                     names: set<Service>)
    requires Rising(w) && v in w.vks && w.vks[v].parentID == p && p in w.vks && c != v
    requires SameShape(w, w1) && LowerUntouched(w, w1, v) && Cascaded(w1, w2, p, v, version)
    requires OthersSync(w, w1, v, c)
    requires w1.vks[v].tables.all.Keys == names
    requires InSync(w, v) && v in w.vks[p].tables.cvks ==> Held(w2, p, v) == names
    ensures Cascaded(w, w2, v, c, version)
    ensures w2.vks[v] == w1.vks[v]
  {
    assert LinkRises(w, v) && v != p;
    assert w1.vks[v].height == w.vks[v].height && w1.vks[p].height == w.vks[p].height;
    assert w2.vks[v] == w1.vks[v];
    assert InSync(w, v) ==> InSync(w2, v);
    LowerStays(w, w1, w2, v, p);
  }

  lemma LowerStays(w: World, w1: World, w2: World, v: NodeID, p: NodeID)
    requires v in w.vks && p in w.vks && w.vks[p].height > w.vks[v].height
    requires SameShape(w, w1) && LowerUntouched(w, w1, v) && LowerUntouched(w1, w2, p)
    ensures LowerUntouched(w, w2, v)
  {
  }

  /** After a local change at v everyone is in sync who was, except the child it concerned and v itself. */
  lemma LocalSync(w: World, v: NodeID, t1: Tables, c: NodeID)
    requires Rising(w) && v in w.vks
    requires t1.cvks.Keys == w.vks[v].tables.cvks.Keys
    requires forall x | x in t1.cvks && x != c :: t1.cvks[x].services.Keys == w.vks[v].tables.cvks[x].services.Keys
    ensures var w1 := SetTables(w, v, t1);
            && OthersSync(w, w1, v, c) && LowerUntouched(w, w1, v)
            && (t1.all.Keys == w.vks[v].tables.all.Keys && v != c && InSync(w, v) ==> InSync(w1, v))
  {
    assert LinkRises(w, v);
  }

  /** The local half of a DEREGISTER hop. */
  lemma DeregisterLocally(w: World, v: NodeID, c: NodeID, s: Service, w1: World)
    requires Rising(w) && v in w.vks && c != v && Agrees(w.vks[v].tables)
    requires w1 == AfterDeregister(w, v, c, s)
    ensures OthersSync(w, w1, v, c) && LowerUntouched(w, w1, v)
    ensures Held(w1, v, c) == Held(w, v, c) - {s}
    ensures w1.vks[v].tables.all.Keys == w.vks[v].tables.all.Keys && InSync(w, v) ==> InSync(w1, v)
  {
    DeregisteredTables(w.vks[v].tables, c, s);
    LocalSync(w, v, Deregister(w.vks[v].tables, c, s).0, c);
  }

  /** A hop takes at most the one name from the names listed. */
  lemma LastProviderGone(w: World, v: NodeID, c: NodeID, s: Service, version: Version)
    requires Sound(w, version) && v in w.vks
    ensures var names, names' := w.vks[v].tables.all.Keys, AfterDeregister(w, v, c, s).vks[v].tables.all.Keys;
            if s in names && s !in names' then names' == names - {s} else names' == names
  {
    assert NodeOk(w, v, version);
    DeregisteredTables(w.vks[v].tables, c, s);
  }

  lemma {:induction false} DeregisterUpKeepsSync(w: World, v: NodeID, c: NodeID, s: Service, version: Version)
    requires Sound(w, version) && v in w.vks && c != v
    ensures var w' := DeregisterUp(w, v, c, s, version);
            && Cascaded(w, w', v, c, version)
            && Held(w', v, c) == Held(w, v, c) - {s}
    decreases TWO_TO_16 - w.vks[v].height
  {
    var w1 := AfterDeregister(w, v, c, s);
    assert NodeOk(w, v, version);
    DeregisterHop(w, v, c, s, version);
    DeregisterLocally(w, v, c, s, w1);
    var p := w.vks[v].parentID;
    assert LinkRises(w, v);
    if s in w.vks[v].tables.all && s !in w1.vks[v].tables.all && p != 0 {
      DeregisterUpKeepsSync(w1, p, v, s, version);
      LastProviderGone(w, v, c, s, version);
      CascadeAbove(w, w1, DeregisterUp(w1, p, v, s, version), v, p, c, version, w1.vks[v].tables.all.Keys);
    } else if p == 0 {
      RootsEndCascades(w, w1, v, c, version);
    } else {
      LastProviderGone(w, v, c, s, version);
    }
  }

  // ---- several notifications in a row -------------------------------------------------------------

  function Elements<T>(xs: seq<T>): set<T> {
    set x | x in xs
  }

  /** v tells its parent, one DEREGISTER after the other, about names it no longer lists. */
  function NotifyAll(w: World, v: NodeID, order: seq<Service>, version: Version): World
    requires Sound(w, version) && v in w.vks
    decreases |order|
  {
    if order == [] || w.vks[v].parentID == 0 then w
    else
      ParentIsAbove(w, v, order[0], version);
      NotifyAll(DeregisterUp(w, w.vks[v].parentID, v, order[0], version), v, order[1..], version)
  }

  lemma ParentIsAbove(w: World, v: NodeID, s: Service, version: Version)
    requires Sound(w, version) && v in w.vks && w.vks[v].parentID != 0
    ensures var p := w.vks[v].parentID;
            && p in w.vks && p != v && w.vks[p].height > w.vks[v].height
            && Sound(DeregisterUp(w, p, v, s, version), version) && v in DeregisterUp(w, p, v, s, version).vks
  {
    assert LinkRises(w, v);
    DeregisterUpKeepsSync(w, w.vks[v].parentID, v, s, version);
  }

  lemma {:induction false} NotifyAllKeepsSync(w: World, v: NodeID, order: seq<Service>, version: Version)
    requires Sound(w, version) && v in w.vks
    ensures var w', p := NotifyAll(w, v, order, version), w.vks[v].parentID;
            && Sound(w', version) && SyncBut(w, w', v) && w'.vks[v] == w.vks[v]
            && (p != 0 ==> p in w.vks && Held(w', p, v) == Held(w, p, v) - Elements(order)
                           && (v in w'.vks[p].tables.cvks <==> v in w.vks[p].tables.cvks))
    decreases |order|
  {
    var p := w.vks[v].parentID;
    assert LinkRises(w, v);
    if order != [] && p != 0 {
      ParentIsAbove(w, v, order[0], version);
      var w1 := DeregisterUp(w, p, v, order[0], version);
      DeregisterUpKeepsSync(w, p, v, order[0], version);
      assert w1.vks[v] == w.vks[v] && w1.vks[p].tables.cvks.Keys == w.vks[p].tables.cvks.Keys;
      NotifyAllKeepsSync(w1, v, order[1..], version);
      ElementsSplit(order);
    }
  }

  lemma ElementsSplit<T>(xs: seq<T>)
    requires xs != []
    ensures Elements(xs) == {xs[0]} + Elements(xs[1..])
  {
  }

  /** c hands its services up to its new parent p, one REGISTER after the other. */
  function RegisterAll(w: World, p: NodeID, c: NodeID, sent: seq<(Service, Addr)>, version: Version): World
    requires Sound(w, version) && p in w.vks && c != p
    decreases |sent|
  {
    if sent == [] then w
    else
      RegisterUpKeepsSync(w, p, c, sent[0].0, sent[0].1, 0, false, version);
      RegisterAll(RegisterUp(w, p, c, sent[0].0, sent[0].1, 0, false, version), p, c, sent[1..], version)
  }

  lemma {:induction false} RegisterAllKeepsSync(w: World, p: NodeID, c: NodeID, sent: seq<(Service, Addr)>,
                                                version: Version)
    requires Sound(w, version) && p in w.vks && c in w.vks && w.vks[c].height < w.vks[p].height
    requires c in w.vks[p].tables.cvks && forall m | m in sent :: m.0 != ""
    ensures var w' := RegisterAll(w, p, c, sent, version);
            && Sound(w', version) && SyncBut(w, w', c) && w'.vks[c] == w.vks[c]
            && c in w'.vks[p].tables.cvks
            && Held(w', p, c) == Held(w, p, c) + (set m | m in sent :: m.0)
    decreases |sent|
  {
    if sent != [] {
      var w1 := RegisterUp(w, p, c, sent[0].0, sent[0].1, 0, false, version);
      RegisterUpKeepsSync(w, p, c, sent[0].0, sent[0].1, 0, false, version);
      assert w1.vks[c] == w.vks[c] && w1.vks[p].tables.cvks.Keys == w.vks[p].tables.cvks.Keys;
      RegisterAllKeepsSync(w1, p, c, sent[1..], version);
      NamesSplit(sent);
    }
  }

  lemma NamesSplit(sent: seq<(Service, Addr)>)
    requires sent != []
    ensures (set m | m in sent :: m.0) == {sent[0].0} + set m | m in sent[1..] :: m.0
  {
  }

  // ---- steps of a vault ---------------------------------------------------------------------------

  datatype VaultStep =
    | Quiet(v: NodeID, event: Event)
    | LeafRegisters(v: NodeID, leaf: NodeID, service: Service, addr: Addr, stale: int, stopped: bool)
    | LeafDeregisters(v: NodeID, leaf: NodeID, service: Service)
    | Loses(v: NodeID, change: Change, order: seq<Service>)
    | ChildLeaves(child: NodeID, order: seq<Service>)
    | GivesUpParent(child: NodeID)
    | ChildJoins(child: NodeID, parent: NodeID, childAddr: Addr, parentAddr: Addr, sent: seq<(Service, Addr)>)
    | RootsMerge(root: NodeID, target: NodeID, rootAddr: Addr, targetAddr: Addr)
    | Carries(step: Step)

  /** Events that change neither the index nor the child VKs. */
  predicate IsQuiet(w: World, e: Event) {
    match e
    case Hello(_, _) => true
    case ForgetHello(_) => true
    case Join(req, body) => req.id !in w.vks && body.Present? && !body.value.isVk
    case ServicelessLeaf(_) => true
    case List(_, _, _) => true
    case ForgetToken(_) => true
    case _ => false
  }

  /** A leaf leaves, a leaf service goes stale, or a child VK expires. */
  predicate IsLoss(t: Tables, c: Change) {
    match c
    case LeafRemoved(_, _, _) => true
    case ServicePruned(id, s, _) => (id, s) in t.prunes
    case CVKRemoved(_) => true
    case _ => false
  }

  /** What v's parent must be told, each name once or more, in any order. */
  predicate Announces(t: Tables, t': Tables, order: seq<Service>) {
    Elements(order) == t.all.Keys - t'.all.Keys
  }

  ghost predicate Possible(w: World, s: VaultStep, version: Version) {
    match s
    case Quiet(v, e) => v in w.vks && IsQuiet(w, e)
    case LeafRegisters(v, leaf, _, _, _, _) => v in w.vks && leaf !in w.vks
    case LeafDeregisters(v, leaf, _) => v in w.vks && leaf !in w.vks
    case Loses(v, change, order) =>
      v in w.vks && var t := w.vks[v].tables; IsLoss(t, change) && Announces(t, Changed(t, change), order)
    case ChildLeaves(c, order) =>
      c in w.vks && var p := w.vks[c].parentID;
      p in w.vks && var t := w.vks[p].tables; Announces(t, RemoveCVK(t, c), order)
    case GivesUpParent(c) =>  // only heartbeats to a parent that no longer has c on record go unanswered
      c in w.vks && (w.vks[c].parentID in w.vks ==> c !in w.vks[w.vks[c].parentID].tables.cvks)
    case ChildJoins(c, p, _, _, sent) =>
      c in w.vks && p in w.vks && c != p && IsRoot(w.vks[c]) && HandsUp(w.vks[c].tables.all, sent)
    case RootsMerge(r, t, rAddr, tAddr) =>  // the target is not the root's child, and lists nothing if it accepts
      && r in w.vks && t in w.vks && r != t && IsRoot(w.vks[r]) && w.vks[t].parentID != r
      && (OfferMerge(w, r, t, version, rAddr).1.Accepted? ==> w.vks[t].tables.all.Keys == {})
    case Carries(s) => (s.Deliver? || s.Lose? || s.Repeat?) && Enabled(w, s)
  }

  function ApplyAt(w: World, v: NodeID, e: Event): World
    requires v in w.vks
  {
    w.(vks := w.vks[v := Apply(w.vks[v], e)])
  }

  function Departed(w: World, c: NodeID): World
    requires c in w.vks && w.vks[c].parentID in w.vks
  {
    var p := w.vks[c].parentID;
    var w1 := SetTables(w, p, RemoveCVK(w.vks[p].tables, c));
    w1.(vks := w1.vks[c := DropParent(w1.vks[c])])
  }

  function Advance(w: World, s: VaultStep, version: Version): World
    requires Sound(w, version) && Possible(w, s, version)
  {
    match s
    case Quiet(v, e) => ApplyAt(w, v, e)
    case LeafRegisters(v, leaf, s, addr, stale, stopped) => RegisterUp(w, v, leaf, s, addr, stale, stopped, version)
    case LeafDeregisters(v, leaf, s) => DeregisterUp(w, v, leaf, s, version)
    case Loses(v, change, order) =>
      LossIsSound(w, v, change, version);
      NotifyAll(SetTables(w, v, Changed(w.vks[v].tables, change)), v, order, version)
    case ChildLeaves(c, order) =>
      DepartureIsSound(w, c, version);
      NotifyAll(Departed(w, c), w.vks[c].parentID, order, version)
    case GivesUpParent(c) => ApplyAt(w, c, LoseParent)
    case ChildJoins(c, p, cAddr, pAddr, sent) =>
      var w1 := TakeJoin(w, c, p, version, cAddr, pAddr);
      JoinIsSound(w, c, p, cAddr, pAddr, version);
      if w1.vks[c].parentID == p then RegisterAll(w1, p, c, sent, version) else w1
    case RootsMerge(r, t, rAddr, tAddr) => TakeMerge(w, r, t, version, rAddr, tAddr)
    case Carries(s) => Take(w, s)
  }

  /** Steps that pass no service on are steps of `Vault`. */
  lemma AdvanceTakesSteps(w: World, s: VaultStep, version: Version)
    requires Sound(w, version) && Possible(w, s, version)
    ensures s.Quiet? ==> Enabled(w, Local(s.v, s.event)) && Advance(w, s, version) == Take(w, Local(s.v, s.event))
    ensures s.GivesUpParent? ==> Advance(w, s, version) == Take(w, Local(s.child, LoseParent))
    ensures s.RootsMerge? ==>
              Advance(w, s, version) == Take(w, MergeVault(s.root, s.target, version, s.rootAddr, s.targetAddr))
    ensures s.Carries? ==> Advance(w, s, version) == Take(w, s.step)
  {
  }

  /** A LEAVE is what the parent's handler does with it, whatever timers it could stop, and the child's own step. */
  lemma DepartureIsHandler(w: World, c: NodeID, version: Version, armed: set<Service>, recheck: bool)
    requires Sound(w, version) && c in w.vks && w.vks[c].parentID in w.vks
    ensures var p := w.vks[c].parentID;
            var (n, reply) := ServeLeave(w.vks[p], Request(false, version, c), false, armed, recheck);
            && Departed(w, c) == w.(vks := w.vks[p := n][c := DropParent(w.vks[c])])
            && (reply.Accepted? <==> c in w.vks[p].tables.cvks)
  {
    var p := w.vks[c].parentID;
    assert NodeOk(w, p, version) && LinkRises(w, c);
    if c !in w.vks[p].tables.cvks {
      assert w.vks[p] == w.vks[p].(tables := w.vks[p].tables);
    }
  }

  /** Sound again after the tables of one vaultkeeper have lost entries. */
  lemma SmallerIsSound(w: World, v: NodeID, t': Tables, version: Version)
    requires Sound(w, version) && v in w.vks
    requires Agrees(t') && KindsKept(t', w.vks.Keys) && t'.all.Keys <= w.vks[v].tables.all.Keys
    requires t'.cvks.Keys <= w.vks[v].tables.cvks.Keys
    ensures Sound(SetTables(w, v, t'), version)
  {
    var w' := SetTables(w, v, t');
    assert w'.vks.Keys == w.vks.Keys;
    SameHeightsRise(w, v, w'.vks[v]);
    forall x | x in w'.vks
      ensures NodeOk(w', x, version)
    {
      SmallerNodeOk(w, v, t', version, x);
    }
  }

  lemma SmallerNodeOk(w: World, v: NodeID, t': Tables, version: Version, x: NodeID)
    requires Sound(w, version) && v in w.vks && x in w.vks
    requires Agrees(t') && KindsKept(t', w.vks.Keys) && t'.all.Keys <= w.vks[v].tables.all.Keys
    requires t'.cvks.Keys <= w.vks[v].tables.cvks.Keys
    ensures NodeOk(SetTables(w, v, t'), x, version)
  {
    assert SetTables(w, v, t').vks.Keys == w.vks.Keys;
    assert NodeOk(w, v, version) && NodeOk(w, x, version);
  }

  /** A loss keeps the tables in agreement and touches no other child's record. */
  lemma LossOfTables(t: Tables, c: Change, vks: set<NodeID>)
    requires Agrees(t) && KindsKept(t, vks) && IsLoss(t, c)
    ensures var t' := Changed(t, c);
            && Agrees(t') && KindsKept(t', vks) && t'.all.Keys <= t.all.Keys
            && t'.cvks.Keys <= t.cvks.Keys && forall x | x in t'.cvks :: t'.cvks[x] == t.cvks[x]
  {
    ChangeAgreesIff(t, c);
    assert RightKind(c, vks);
    ChangeKeepsKinds(t, c, vks);
    match c
    case ServicePruned(id, s, flag) =>
      FirePruneTables(t, id, s, flag);
      ForgetIsUnlist(t, id, s);
    case _ =>
  }

  lemma LossIsSound(w: World, v: NodeID, c: Change, version: Version)
    requires Sound(w, version) && v in w.vks && IsLoss(w.vks[v].tables, c)
    ensures Sound(SetTables(w, v, Changed(w.vks[v].tables, c)), version)
  {
    assert NodeOk(w, v, version);
    LossOfTables(w.vks[v].tables, c, w.vks.Keys);
    SmallerIsSound(w, v, Changed(w.vks[v].tables, c), version);
  }

  /** Losing entries at v and announcing the lost names leaves everyone in sync. */
  lemma LossKeepsSync(w: World, v: NodeID, w1: World, order: seq<Service>, version: Version)
    requires Sound(w, version) && AllInSync(w) && v in w.vks
    requires Sound(w1, version) && w1.vks.Keys == w.vks.Keys && w1.vks[v].parentID == w.vks[v].parentID
    requires forall x | x in w.vks && x != v :: InSync(w1, x)
    requires Elements(order) == w.vks[v].tables.all.Keys - w1.vks[v].tables.all.Keys
    requires w1.vks[v].tables.all.Keys <= w.vks[v].tables.all.Keys
    requires var p := w.vks[v].parentID; p in w.vks ==>
               w1.vks[p].tables == w.vks[p].tables
    ensures Sound(NotifyAll(w1, v, order, version), version) && AllInSync(NotifyAll(w1, v, order, version))
  {
    NotifyAllKeepsSync(w1, v, order, version);
    var w2 := NotifyAll(w1, v, order, version);
    assert InSync(w, v) && LinkRises(w1, v);
    assert InSync(w2, v);
  }

  lemma LossStep(w: World, v: NodeID, c: Change, order: seq<Service>, version: Version)
    requires Sound(w, version) && AllInSync(w) && Possible(w, Loses(v, c, order), version)
    ensures Sound(Advance(w, Loses(v, c, order), version), version)
    ensures AllInSync(Advance(w, Loses(v, c, order), version))
  {
    var t := w.vks[v].tables;
    assert NodeOk(w, v, version) && LinkRises(w, v);
    LossOfTables(t, c, w.vks.Keys);
    LossIsSound(w, v, c, version);
    var w1 := SetTables(w, v, Changed(t, c));
    forall x | x in w.vks && x != v
      ensures InSync(w1, x)
    {
      assert InSync(w, x);
    }
    LossKeepsSync(w, v, w1, order, version);
  }

  lemma DepartureIsSound(w: World, c: NodeID, version: Version)
    requires Sound(w, version) && c in w.vks && w.vks[c].parentID in w.vks
    ensures Sound(Departed(w, c), version)
  {
    var p := w.vks[c].parentID;
    var t := w.vks[p].tables;
    assert NodeOk(w, p, version) && LinkRises(w, c);
    LossOfTables(t, CVKRemoved(c), w.vks.Keys);
    var w1 := SetTables(w, p, RemoveCVK(t, c));
    SmallerIsSound(w, p, RemoveCVK(t, c), version);
    RemoveCVKAgrees(t, c);
    RootedIsSound(w1, c, version);
  }

  /** A vaultkeeper nobody has on record can drop its parent. */
  lemma RootedIsSound(w: World, c: NodeID, version: Version)
    requires Sound(w, version) && c in w.vks
    requires w.vks[c].parentID in w.vks ==> c !in w.vks[w.vks[c].parentID].tables.cvks
    ensures Sound(w.(vks := w.vks[c := DropParent(w.vks[c])]), version)
  {
    var w' := w.(vks := w.vks[c := DropParent(w.vks[c])]);
    SameHeightsRise(w, c, w'.vks[c]);
    forall x | x in w'.vks
      ensures NodeOk(w', x, version)
    {
      assert NodeOk(w, x, version);
      forall y | y in w'.vks[x].tables.cvks
        ensures w'.vks[y].parentID == x
      {
        assert w.vks[y].parentID == x;
      }
    }
  }

  /** Only the parent may be out of sync after a departure. */
  lemma DepartedSync(w: World, c: NodeID)
    requires Named(w) && AllInSync(w) && c in w.vks && w.vks[c].parentID in w.vks && w.vks[c].parentID != c
    ensures forall x | x in w.vks && x != w.vks[c].parentID :: InSync(Departed(w, c), x)
  {
    var p := w.vks[c].parentID;
    var t' := RemoveCVK(w.vks[p].tables, c);
    assert t'.cvks == w.vks[p].tables.cvks - {c};
    forall x | x in w.vks && x != p
      ensures InSync(Departed(w, c), x)
    {
      assert InSync(w, x);
    }
  }

  lemma DepartureStep(w: World, c: NodeID, order: seq<Service>, version: Version)
    requires Sound(w, version) && AllInSync(w) && Possible(w, ChildLeaves(c, order), version)
    ensures Sound(Advance(w, ChildLeaves(c, order), version), version)
    ensures AllInSync(Advance(w, ChildLeaves(c, order), version))
  {
    var p := w.vks[c].parentID;
    var t := w.vks[p].tables;
    assert LinkRises(w, c) && LinkRises(w, p);
    DepartureIsSound(w, c, version);
    DepartedSync(w, c);
    DepartedTables(w, c, version);
    LossKeepsSync(w, p, Departed(w, c), order, version);
  }

  lemma DepartedTables(w: World, c: NodeID, version: Version)
    requires Sound(w, version) && c in w.vks && w.vks[c].parentID in w.vks && w.vks[c].parentID != c
    ensures var p, w1 := w.vks[c].parentID, Departed(w, c);
            && w1.vks.Keys == w.vks.Keys && w1.vks[p] == w.vks[p].(tables := RemoveCVK(w.vks[p].tables, c))
            && w1.vks[p].tables.all.Keys <= w.vks[p].tables.all.Keys
            && forall x | x in w.vks && x != p && x != c :: w1.vks[x] == w.vks[x]
  {
    var p := w.vks[c].parentID;
    assert NodeOk(w, p, version);
    LossOfTables(w.vks[p].tables, CVKRemoved(c), w.vks.Keys);
  }

  /** A first JOIN of c under p changes c and p only. */
  lemma JoinShape(w: World, c: NodeID, p: NodeID, cAddr: Addr, pAddr: Addr, version: Version)
    requires Named(w) && c in w.vks && p in w.vks && c != p && IsRoot(w.vks[c]) && c !in w.vks[p].tables.cvks
    ensures var w1 := TakeJoin(w, c, p, version, cAddr, pAddr);
            var n, linked := w1.vks[p], w1.vks[c].parentID != 0;
            && w1.vks == w.vks[p := n][c := w1.vks[c]] && w1.wire == w.wire
            && w1.vks[c] == (if linked then JoinAccepted(w.vks[c], p, pAddr) else w.vks[c])
            && n == w.vks[p].(tables := n.tables, hellos := n.hellos, installed := n.installed)
            && n.tables == (if linked then AddCVK(w.vks[p].tables, c, cAddr) else w.vks[p].tables)
            && (linked ==> c !in w.vks[p].tables.leaves && w.vks[c].height < w.vks[p].height)
  {
    JoinOutcome(w.vks[p], Request(false, version, c), w.vks[c].height, cAddr);
    JoinIsOneBelow(w.vks[p], Request(false, version, c), w.vks[c].height, cAddr);
  }

  /** Linking c under p, or leaving both alone, keeps the other vaultkeepers' conditions and p's. */
  lemma LinkedIsOk(w: World, c: NodeID, p: NodeID, cAddr: Addr, n: Node, m: Node, version: Version)
    requires Sound(w, version) && c in w.vks && p in w.vks && c != p
    requires IsRoot(w.vks[c]) && c !in w.vks[p].tables.cvks
    requires n.parentID == w.vks[p].parentID && n.parentAddr == w.vks[p].parentAddr
             && n.supported == w.vks[p].supported
    requires m.supported == w.vks[c].supported && m.tables == w.vks[c].tables
    requires if m.parentID != 0
             then m.parentID == p && m.parentAddr.Some? && c !in w.vks[p].tables.leaves
                  && n.tables == AddCVK(w.vks[p].tables, c, cAddr)
             else m.parentAddr.None? && n.tables == w.vks[p].tables
    ensures var w1 := w.(vks := w.vks[p := n][c := m]);
            forall x {:trigger NodeOk(w1, x, version)} | x in w.vks :: NodeOk(w1, x, version)
  {
    var w1 := w.(vks := w.vks[p := n][c := m]);
    assert w1.vks.Keys == w.vks.Keys;
    assert NodeOk(w, p, version);
    ParentTablesOk(w.vks[p].tables, n.tables, c, cAddr, w.vks.Keys);
    forall x | x in w.vks
      ensures NodeOk(w1, x, version)
    {
      assert NodeOk(w, x, version);
      assert x != 0 && c !in w.vks[x].tables.cvks;
      assert x != p ==> w1.vks[x].tables == w.vks[x].tables;
    }
  }

  lemma ParentTablesOk(t: Tables, t': Tables, c: NodeID, cAddr: Addr, vks: set<NodeID>)
    requires Agrees(t) && KindsKept(t, vks) && "" !in t.all && c !in t.cvks && c in vks
    requires t' == t || t' == AddCVK(t, c, cAddr)
    ensures Agrees(t') && KindsKept(t', vks) && "" !in t'.all && t'.cvks.Keys <= t.cvks.Keys + {c}
  {
    AddCVKAgreesIff(t, c, cAddr);
    ChangeKeepsKinds(t, CVKAdded(c, cAddr), vks);
  }

  lemma JoinIsSound(w: World, c: NodeID, p: NodeID, cAddr: Addr, pAddr: Addr, version: Version)
    requires Sound(w, version) && c in w.vks && p in w.vks && c != p && IsRoot(w.vks[c])
    ensures c !in w.vks[p].tables.cvks
    ensures Sound(TakeJoin(w, c, p, version, cAddr, pAddr), version)
  {
    assert NodeOk(w, p, version) && NodeOk(w, c, version);
    var w1 := TakeJoin(w, c, p, version, cAddr, pAddr);
    JoinRises(w, c, p, version, cAddr, pAddr);
    JoinShape(w, c, p, cAddr, pAddr, version);
    LinkedIsOk(w, c, p, cAddr, w1.vks[p], w1.vks[c], version);
    assert w1 == w.(vks := w.vks[p := w1.vks[p]][c := w1.vks[c]]);
  }

  /** A first JOIN either adds one empty record or leaves the tables alone. */
  lemma JoinOutcome(n: Node, req: Request, h: uint16, addr: Addr)
    requires req.id !in n.tables.cvks
    ensures var (n', reply) := ServeJoin(n, req, Present(JoinBody(true, h, Some(addr))));
            && n' == n.(tables := n'.tables, hellos := n'.hellos, installed := n'.installed)
            && n'.tables == (if reply.Accepted? then AddCVK(n.tables, req.id, addr) else n.tables)
            && (reply.Accepted? ==> req.id !in n.tables.leaves)
  {
  }

  /** A JOIN leaves everyone but the joiner in sync. */
  lemma JoinedSync(w: World, c: NodeID, p: NodeID, cAddr: Addr, w1: World)
    requires Rising(w) && AllInSync(w) && c in w.vks && p in w.vks && c != p && IsRoot(w.vks[c])
    requires c !in w.vks[p].tables.cvks && c in w1.vks && p in w1.vks
    requires w1.vks == w.vks[p := w1.vks[p]][c := w1.vks[c]]
    requires w1.vks[c].tables == w.vks[c].tables && w1.vks[p].parentID == w.vks[p].parentID
    requires w1.vks[c].parentID in {0, p}
    requires w1.vks[p].tables == if w1.vks[c].parentID == p then AddCVK(w.vks[p].tables, c, cAddr) else w.vks[p].tables
    ensures forall x | x in w.vks && (x == c ==> w1.vks[c].parentID == 0) :: InSync(w1, x)
  {
    forall x | x in w.vks && (x == c ==> w1.vks[c].parentID == 0)
      ensures InSync(w1, x)
    {
      assert InSync(w, x) && LinkRises(w, x);
    }
  }

  lemma JoinStep(w: World, c: NodeID, p: NodeID, cAddr: Addr, pAddr: Addr, sent: seq<(Service, Addr)>, version: Version)
    requires Sound(w, version) && AllInSync(w)
    requires Possible(w, ChildJoins(c, p, cAddr, pAddr, sent), version)
    ensures var w' := Advance(w, ChildJoins(c, p, cAddr, pAddr, sent), version);
            Sound(w', version) && AllInSync(w')
  {
    var w1 := TakeJoin(w, c, p, version, cAddr, pAddr);
    JoinIsSound(w, c, p, cAddr, pAddr, version);
    JoinShape(w, c, p, cAddr, pAddr, version);
    JoinedSync(w, c, p, cAddr, w1);
    if w1.vks[c].parentID == p {
      assert NodeOk(w, c, version);
      HandUpSyncs(w1, c, p, sent, version);
    }
  }

  /** Handing up every listed service makes the new parent's record of c complete. */
  lemma HandUpSyncs(w1: World, c: NodeID, p: NodeID, sent: seq<(Service, Addr)>, version: Version)
    requires Sound(w1, version) && c in w1.vks && p in w1.vks && w1.vks[c].parentID == p && c != p
    requires forall x | x in w1.vks && x != c :: InSync(w1, x)
    requires c in w1.vks[p].tables.cvks && w1.vks[p].tables.cvks[c].services == map[]
    requires HandsUp(w1.vks[c].tables.all, sent)
    ensures Sound(RegisterAll(w1, p, c, sent, version), version)
    ensures AllInSync(RegisterAll(w1, p, c, sent, version))
  {
    assert NodeOk(w1, c, version) && LinkRises(w1, c);
    RegisterAllKeepsSync(w1, p, c, sent, version);
    SentNames(w1.vks[c].tables.all, sent);
    assert InSync(RegisterAll(w1, p, c, sent, version), c);
  }

  lemma SentNames(all: Index, sent: seq<(Service, Addr)>)
    requires HandsUp(all, sent) && forall s | s in all :: all[s] != map[]
    ensures (set m | m in sent :: m.0) == all.Keys
  {
    forall s | s in all
      ensures s in set m | m in sent :: m.0
    {
      var c :| c in all[s];
      assert (s, all[s][c]) in sent;
    }
  }

  lemma QuietKeepsLinks(w: World, n: Node, e: Event)
    requires IsQuiet(w, e)
    ensures SameLinks(n, Apply(n, e))
  {
    LocalKeepsStructure(n, e);
    ApplyChanges(n, e);
    assert var c := ChangeOf(n, e); c.Untouched? || c.LeafAdded? || c.LeafRechecked?;
  }

  lemma QuietKeepsTables(w: World, n: Node, e: Event)
    requires IsQuiet(w, e) && Agrees(n.tables) && KindsKept(n.tables, w.vks.Keys)
    ensures Agrees(Apply(n, e).tables) && KindsKept(Apply(n, e).tables, w.vks.Keys)
  {
    ApplyChanges(n, e);
    var c := ChangeOf(n, e);
    assert c.Untouched? || c.LeafAdded? || c.LeafRechecked?;
    ChangeAgreesIff(n.tables, c);
    ChangeKeepsKinds(n.tables, c, w.vks.Keys);
  }

  lemma QuietStep(w: World, v: NodeID, e: Event, version: Version)
    requires Sound(w, version) && AllInSync(w) && v in w.vks && IsQuiet(w, e)
    ensures Sound(ApplyAt(w, v, e), version) && AllInSync(ApplyAt(w, v, e))
  {
    assert NodeOk(w, v, version);
    QuietKeepsLinks(w, w.vks[v], e);
    QuietKeepsTables(w, w.vks[v], e);
    SameLinksSound(w, v, Apply(w.vks[v], e), version);
    SameLinksSync(w, v, Apply(w.vks[v], e));
  }

  /** Nothing another vaultkeeper depends on differs. */
  ghost predicate SameLinks(n: Node, n': Node) {
    && n'.id == n.id && n'.height == n.height && n'.supported == n.supported
    && n'.parentID == n.parentID && n'.parentAddr == n.parentAddr
    && n'.tables.all == n.tables.all && n'.tables.cvks == n.tables.cvks
  }

  /** A vaultkeeper that keeps its links, its child VKs and its index can change anything else. */
  lemma SameLinksSound(w: World, v: NodeID, n': Node, version: Version)
    requires Sound(w, version) && v in w.vks && SameLinks(w.vks[v], n')
    requires Agrees(n'.tables) && KindsKept(n'.tables, w.vks.Keys)
    ensures Sound(w.(vks := w.vks[v := n']), version)
  {
    var w' := w.(vks := w.vks[v := n']);
    assert w'.vks.Keys == w.vks.Keys && NodeOk(w, v, version);
    SameHeightsRise(w, v, n');
    forall x | x in w'.vks
      ensures NodeOk(w', x, version)
    {
      assert NodeOk(w, x, version);
    }
  }

  lemma SameLinksSync(w: World, v: NodeID, n': Node)
    requires AllInSync(w) && v in w.vks && SameLinks(w.vks[v], n')
    ensures AllInSync(w.(vks := w.vks[v := n']))
  {
    var w' := w.(vks := w.vks[v := n']);
    forall x | x in w'.vks
      ensures InSync(w', x)
    {
      assert InSync(w, x);
    }
  }

  lemma GivingUpStep(w: World, c: NodeID, version: Version)
    requires Sound(w, version) && AllInSync(w) && Possible(w, GivesUpParent(c), version)
    ensures Sound(ApplyAt(w, c, LoseParent), version) && AllInSync(ApplyAt(w, c, LoseParent))
  {
    RootedIsSound(w, c, version);
    var w' := ApplyAt(w, c, LoseParent);
    forall x | x in w'.vks
      ensures InSync(w', x)
    {
      assert InSync(w, x);
    }
  }

  // ---- MERGE --------------------------------------------------------------------------------------

  /** A refused MERGE from someone who is not the parent costs at most the HELLO. */
  lemma RefusedMerge(n: Node, req: Request, body: Body<MergeBody>, sender: Option<Addr>)
    requires !ServeMerge(n, req, body, sender).1.Accepted? && n.parentID != req.id
    ensures var n' := ServeMerge(n, req, body, sender).0;
            n' == n.(hellos := n'.hellos)
  {
  }

  /** What an accepted MERGE changes at either side. */
  lemma MergeShape(w: World, r: NodeID, t: NodeID, version: Version, rAddr: Addr, tAddr: Addr)
    requires Named(w) && r in w.vks && t in w.vks && r != t && t !in w.vks[r].tables.leaves
    requires w.vks[t].parentID != r && OfferMerge(w, r, t, version, rAddr).1.Accepted?
    ensures var w' := TakeMerge(w, r, t, version, rAddr, tAddr);
            && w'.vks == w.vks[r := w'.vks[r]][t := w'.vks[t]]
            && w'.vks[r] == w.vks[r].(height := w'.vks[r].height, tables := AddCVK(w.vks[r].tables, t, tAddr))
            && w'.vks[t] == w.vks[t].(parentID := r, parentAddr := Some(rAddr),
                                      hellos := w'.vks[t].hellos, installed := w'.vks[t].installed)
            && w.vks[t].parentAddr == None
  {
  }

  lemma MergeIsSound(w: World, r: NodeID, t: NodeID, version: Version, rAddr: Addr, tAddr: Addr)
    requires Sound(w, version) && r in w.vks && t in w.vks && r != t && IsRoot(w.vks[r])
    requires w.vks[t].parentID != r && OfferMerge(w, r, t, version, rAddr).1.Accepted?
    ensures Sound(TakeMerge(w, r, t, version, rAddr, tAddr), version)
  {
    assert NodeOk(w, r, version) && NodeOk(w, t, version);
    var w' := TakeMerge(w, r, t, version, rAddr, tAddr);
    MergeRises(w, r, t, version, rAddr, tAddr);
    MergeShape(w, r, t, version, rAddr, tAddr);
    LinkedIsOk(w, t, r, tAddr, w'.vks[r], w'.vks[t], version);
    SameVksSameOk(w.(vks := w.vks[r := w'.vks[r]][t := w'.vks[t]]), w', version);
  }

  lemma SameVksSameOk(w: World, w': World, version: Version)
    requires w'.vks == w.vks && forall v {:trigger NodeOk(w, v, version)} | v in w.vks :: NodeOk(w, v, version)
    ensures forall v {:trigger NodeOk(w', v, version)} | v in w'.vks :: NodeOk(w', v, version)
  {
    forall v | v in w'.vks
      ensures NodeOk(w', v, version)
    {
      assert NodeOk(w, v, version);
    }
  }

  /**
    A MERGE hands no services up, so it leaves parents and children in sync exactly when the absorbed
    vault had nothing to offer: otherwise the new root does not know what its new child lists.
   */
  lemma MergeKeepsSyncIff(w: World, r: NodeID, t: NodeID, version: Version, rAddr: Addr, tAddr: Addr)
    requires Sound(w, version) && AllInSync(w) && r in w.vks && t in w.vks && r != t
    requires IsRoot(w.vks[r]) && IsRoot(w.vks[t])
    requires OfferMerge(w, r, t, version, rAddr).1.Accepted?
    ensures AllInSync(TakeMerge(w, r, t, version, rAddr, tAddr)) <==> w.vks[t].tables.all.Keys == {}
  {
    var w' := TakeMerge(w, r, t, version, rAddr, tAddr);
    AcceptedMerge(w, r, t, version, rAddr, tAddr);
    MergeOffers(w.vks[t], Request(false, version, r), MergeRequest(w, r, rAddr), None);
    assert NodeOk(w, r, version) && NodeOk(w, t, version) && LinkRises(w, r);
    assert w'.vks[r].tables == AddCVK(w.vks[r].tables, t, tAddr);
    assert w'.vks[t].tables == w.vks[t].tables;
    forall x | x in w.vks && x != t
      ensures InSync(w', x)
    {
      assert InSync(w, x) && LinkRises(w, x);
    }
    assert InSync(w', t) <==> w.vks[t].tables.all.Keys == {};
  }

  lemma MergeStep(w: World, r: NodeID, t: NodeID, rAddr: Addr, tAddr: Addr, version: Version)
    requires Sound(w, version) && AllInSync(w) && Possible(w, RootsMerge(r, t, rAddr, tAddr), version)
    ensures Sound(TakeMerge(w, r, t, version, rAddr, tAddr), version)
    ensures AllInSync(TakeMerge(w, r, t, version, rAddr, tAddr))
  {
    var (t', reply) := OfferMerge(w, r, t, version, rAddr);
    assert NodeOk(w, t, version);
    if reply.Accepted? {
      MergeIsSound(w, r, t, version, rAddr, tAddr);
      MergeKeepsSyncIff(w, r, t, version, rAddr, tAddr);
    } else {
      RefusedMerge(w.vks[t], Request(false, version, r), MergeRequest(w, r, rAddr), None);
      SameLinksSound(w, t, t', version);
      SameLinksSync(w, t, t');
    }
  }

  /** A change of heights and messages that keeps heights rising concerns no table. */
  lemma HeightsConcernNoTable(w: World, w': World, version: Version)
    requires Sound(w, version) && AllInSync(w) && Rising(w') && w'.vks.Keys == w.vks.Keys
    requires forall v | v in w.vks :: w'.vks[v] == w.vks[v].(height := w'.vks[v].height)
    ensures Sound(w', version) && AllInSync(w')
  {
    forall v | v in w'.vks
      ensures NodeOk(w', v, version)
    {
      assert NodeOk(w, v, version);
    }
    forall v | v in w'.vks
      ensures InSync(w', v)
    {
      assert InSync(w, v);
    }
  }

  lemma CarryingStep(w: World, s: Step, version: Version)
    requires Sound(w, version) && AllInSync(w) && Possible(w, Carries(s), version)
    ensures Sound(Take(w, s), version) && AllInSync(Take(w, s))
  {
    StepRises(w, s);
    CarryingMovesHeights(w, s);
    HeightsConcernNoTable(w, Take(w, s), version);
  }

  lemma CarryingMovesHeights(w: World, s: Step)
    requires Rising(w) && (s.Deliver? || s.Lose? || s.Repeat?) && Enabled(w, s)
    ensures var w' := Take(w, s);
            w'.vks.Keys == w.vks.Keys && forall v | v in w.vks :: w'.vks[v] == w.vks[v].(height := w'.vks[v].height)
  {
    if s.Deliver? && s.m.dest in w.vks {
      DeliveryHeights(w, s.m, s.version);
    }
  }

  /** Every step leaves parents and children in sync once its cascade is done. */
  lemma AdvanceKeepsSync(w: World, s: VaultStep, version: Version)
    requires Sound(w, version) && AllInSync(w) && Possible(w, s, version)
    ensures Sound(Advance(w, s, version), version) && AllInSync(Advance(w, s, version))
  {
    match s
    case Quiet(v, e) => QuietStep(w, v, e, version);
    case LeafRegisters(v, leaf, s, addr, stale, stopped) =>
      RegisterUpKeepsSync(w, v, leaf, s, addr, stale, stopped, version);
      EveryoneInSync(w, RegisterUp(w, v, leaf, s, addr, stale, stopped, version), leaf);
    case LeafDeregisters(v, leaf, s) =>
      DeregisterUpKeepsSync(w, v, leaf, s, version);
      EveryoneInSync(w, DeregisterUp(w, v, leaf, s, version), leaf);
    case Loses(v, change, order) => LossStep(w, v, change, order, version);
    case ChildLeaves(c, order) => DepartureStep(w, c, order, version);
    case GivesUpParent(c) => GivingUpStep(w, c, version);
    case ChildJoins(c, p, cAddr, pAddr, sent) => JoinStep(w, c, p, cAddr, pAddr, sent, version);
    case RootsMerge(r, t, rAddr, tAddr) => MergeStep(w, r, t, rAddr, tAddr, version);
    case Carries(s) => CarryingStep(w, s, version);
  }

  /** A message from a leaf concerns no link between vaultkeepers. */
  lemma EveryoneInSync(w: World, w': World, leaf: NodeID)
    requires AllInSync(w) && SyncBut(w, w', leaf) && leaf !in w.vks
    ensures AllInSync(w')
  {
    forall x | x in w'.vks
      ensures InSync(w', x)
    {
      assert InSync(w, x);
    }
  }

  // ---- every run ----------------------------------------------------------------------------------

  /** Some run of possible steps leads from one vault to the other. */
  ghost predicate Reaches(w: World, ss: seq<VaultStep>, w': World, version: Version)
    decreases |ss|
  {
    if ss == [] then w == w'
    else Sound(w, version) && Possible(w, ss[0], version) && Reaches(Advance(w, ss[0], version), ss[1..], w', version)
  }

  /** Vaultkeepers that have just been created: every one a root without children. */
  ghost predicate Newborn(w: World, version: Version) {
    && w.wire == multiset{} && 0 !in w.vks
    && forall v | v in w.vks ::
         w.vks[v] == Fresh(v, w.vks[v].supported, w.vks[v].height) && version in w.vks[v].supported
  }

  lemma NewbornIsSound(w: World, version: Version)
    requires Newborn(w, version)
    ensures Sound(w, version) && AllInSync(w)
  {
    forall v | v in w.vks
      ensures LinkRises(w, v) && NodeOk(w, v, version) && InSync(w, v)
    {
      assert w.vks[v] == Fresh(v, w.vks[v].supported, w.vks[v].height);
      FreshIsGood(v, w.vks[v].supported, w.vks[v].height, w.vks.Keys);
    }
  }

  lemma {:induction false} ReachedIsInSync(w: World, ss: seq<VaultStep>, w': World, version: Version)
    requires Sound(w, version) && AllInSync(w) && Reaches(w, ss, w', version)
    ensures Sound(w', version) && AllInSync(w')
    decreases |ss|
  {
    if ss != [] {
      AdvanceKeepsSync(w, ss[0], version);
      ReachedIsInSync(Advance(w, ss[0], version), ss[1..], w', version);
    }
  }

  /**
    Root omnipotence: in every vault reached from new vaultkeepers, each vaultkeeper, a root in
    particular, lists exactly the service names that leaves at or below it, on record all the way, have
    registered. `WholeTree` says when that is everything in the tree of parent links.
   */
  lemma RootOmnipotence(w: World, ss: seq<VaultStep>, w': World, version: Version, v: NodeID, s: Service)
    requires Newborn(w, version) && Reaches(w, ss, w', version) && v in w'.vks
    ensures Sound(w', version)
    ensures s in w'.vks[v].tables.all <==> RegisteredUnder(w', v, s)
  {
    NewbornIsSound(w, version);
    ReachedIsInSync(w, ss, w', version);
    ListsExactlyWhatIsBelow(w', version, v, s);
  }

  // ---- omnipotence after a MERGE ------------------------------------------------------------------

  /** Every vaultkeeper lists exactly what is registered at or below it. */
  ghost predicate Omniscient(w: World)
    requires Rising(w)
  {
    forall v, s | v in w.vks :: s in w.vks[v].tables.all <==> RegisteredUnder(w, v, s)
  }

  /** The links and records of `w'` are those of `w` with t linked under r. */
  ghost predicate Linked(w: World, w': World, r: NodeID, t: NodeID) {
    && w'.vks.Keys == w.vks.Keys && r in w.vks && t in w.vks && r != t
    && IsRoot(w.vks[r]) && IsRoot(w.vks[t])
    && (forall v | v in w.vks ::
          && w'.vks[v].parentID == (if v == t then r else w.vks[v].parentID)
          && w'.vks[v].tables.cvks.Keys == w.vks[v].tables.cvks.Keys + (if v == r then {t} else {})
          && w'.vks[v].tables.leaves == w.vks[v].tables.leaves
          && w'.vks[v].tables.all == w.vks[v].tables.all)
  }

  lemma MergeLinks(w: World, r: NodeID, t: NodeID, version: Version, rAddr: Addr, tAddr: Addr)
    requires Sound(w, version) && r in w.vks && t in w.vks && r != t
    requires IsRoot(w.vks[r]) && IsRoot(w.vks[t])
    requires OfferMerge(w, r, t, version, rAddr).1.Accepted?
    ensures Linked(w, TakeMerge(w, r, t, version, rAddr, tAddr), r, t)
  {
    assert NodeOk(w, r, version);
    MergeShape(w, r, t, version, rAddr, tAddr);
  }

  /** Who is under whom: as before, and whoever was under t is now under r as well. */
  lemma {:induction false} UnderAfterMerge(w: World, w': World, r: NodeID, t: NodeID, u: NodeID, v: NodeID)
    requires Rising(w) && Rising(w') && Linked(w, w', r, t) && u in w.vks
    ensures Under(w', u, v) <==> Under(w, u, v) || (v == r && Under(w, u, t))
    decreases TWO_TO_16 - w.vks[u].height
  {
    assert LinkRises(w, u) && LinkRises(w', u);
    var p := w.vks[u].parentID;
    if u == t {
      assert LinkRises(w', r) && t in w'.vks[r].tables.cvks.Keys;
      assert Under(w', r, v) <==> v == r;
    } else if u != v && p in w.vks {
      assert u in w'.vks[p].tables.cvks.Keys <==> u in w.vks[p].tables.cvks.Keys;
      UnderAfterMerge(w, w', r, t, p, v);
    }
  }

  lemma RegisteredAfterMerge(w: World, w': World, r: NodeID, t: NodeID, v: NodeID, s: Service)
    requires Rising(w) && Rising(w') && Linked(w, w', r, t)
    ensures RegisteredUnder(w', v, s) <==> RegisteredUnder(w, v, s) || (v == r && RegisteredUnder(w, t, s))
  {
    forall u, leaf | u in w.vks && LeafOffers(w, u, leaf, s)
      ensures LeafOffers(w', u, leaf, s)
      ensures Under(w', u, v) <==> Under(w, u, v) || (v == r && Under(w, u, t))
    {
      UnderAfterMerge(w, w', r, t, u, v);
    }
    if RegisteredUnder(w', v, s) {
      var u, leaf :| u in w'.vks && Under(w', u, v) && LeafOffers(w', u, leaf, s);
      assert LeafOffers(w, u, leaf, s);
    }
    if RegisteredUnder(w, v, s) {
      var u, leaf :| u in w.vks && Under(w, u, v) && LeafOffers(w, u, leaf, s);
      assert Under(w', u, v) && LeafOffers(w', u, leaf, s);
    }
    if v == r && RegisteredUnder(w, t, s) {
      var u, leaf :| u in w.vks && Under(w, u, t) && LeafOffers(w, u, leaf, s);
      assert Under(w', u, v) && LeafOffers(w', u, leaf, s);
    }
  }

  /**
    Root omnipotence survives a MERGE exactly when the new root happens to list every name the absorbed
    root lists: the services below are not announced to it.
   */
  lemma MergeKeepsOmniscienceIff(w: World, r: NodeID, t: NodeID, version: Version, rAddr: Addr, tAddr: Addr)
    requires Sound(w, version) && AllInSync(w) && r in w.vks && t in w.vks && r != t
    requires IsRoot(w.vks[r]) && IsRoot(w.vks[t])
    requires OfferMerge(w, r, t, version, rAddr).1.Accepted?
    ensures var w' := TakeMerge(w, r, t, version, rAddr, tAddr);
            Rising(w') && (Omniscient(w') <==> w.vks[t].tables.all.Keys <= w.vks[r].tables.all.Keys)
  {
    var w' := TakeMerge(w, r, t, version, rAddr, tAddr);
    MergeRises(w, r, t, version, rAddr, tAddr);
    MergeLinks(w, r, t, version, rAddr, tAddr);
    forall v, s | v in w.vks
      ensures (s in w'.vks[v].tables.all <==> RegisteredUnder(w', v, s)) <==>
              (v == r && s in w.vks[t].tables.all ==> s in w.vks[r].tables.all)
    {
      ListsExactlyWhatIsBelow(w, version, v, s);
      ListsExactlyWhatIsBelow(w, version, t, s);
      RegisteredAfterMerge(w, w', r, t, v, s);
    }
  }

  // ---- a run in which a merge hides a service -----------------------------------------------------

  /** Two new vaultkeepers of height 0. */
  function TwoNew(version: Version): World {
    World(map[1 := Fresh(1, {version}, 0), 2 := Fresh(2, {version}, 0)], multiset{})
  }

  /** A leaf 9 joins the second and registers a service there; then the first greets the second. */
  function ServiceAtTarget(version: Version): seq<VaultStep> {
    [Quiet(2, Hello(Request(false, version, 9), false)),
     Quiet(2, Join(Request(false, version, 9), Present(JoinBody(false, 0, None)))),
     LeafRegisters(2, 9, "dns", "host", 0, true),
     Quiet(2, Hello(Request(false, version, 1), false))]
  }

  /** The second vaultkeeper of `w` after each of the four steps. */
  function Greets9(w: World, version: Version): World
    requires 2 in w.vks
  {
    ApplyAt(w, 2, Hello(Request(false, version, 9), false))
  }

  function Joins9(w: World, version: Version): World
    requires 2 in w.vks
  {
    ApplyAt(w, 2, Join(Request(false, version, 9), Present(JoinBody(false, 0, None))))
  }

  function Registers9(w: World): World
    requires 2 in w.vks
  {
    AfterRegister(w, 2, 9, "dns", "host", 0, true)
  }

  function Greets1(w: World, version: Version): World
    requires 2 in w.vks
  {
    ApplyAt(w, 2, Hello(Request(false, version, 1), false))
  }

  lemma {:induction false} ReachesFurther(w0: World, ss: seq<VaultStep>, w: World, s: VaultStep, version: Version)
    requires Reaches(w0, ss, w, version) && Sound(w, version) && Possible(w, s, version)
    ensures Reaches(w0, ss + [s], Advance(w, s, version), version)
    decreases |ss|
  {
    if ss == [] {
      assert ([s])[1..] == [];
    } else {
      ReachesFurther(Advance(w0, ss[0], version), ss[1..], w, s, version);
      assert (ss + [s])[1..] == ss[1..] + [s];
    }
  }

  lemma QuietNext(w0: World, ss: seq<VaultStep>, w: World, v: NodeID, e: Event, version: Version)
    requires Reaches(w0, ss, w, version) && Sound(w, version) && AllInSync(w) && v in w.vks && IsQuiet(w, e)
    ensures Reaches(w0, ss + [Quiet(v, e)], ApplyAt(w, v, e), version)
    ensures Sound(ApplyAt(w, v, e), version) && AllInSync(ApplyAt(w, v, e))
  {
    ReachesFurther(w0, ss, w, Quiet(v, e), version);
    QuietStep(w, v, e, version);
  }

  lemma RegisterNext(w0: World, ss: seq<VaultStep>, w: World, v: NodeID, leaf: NodeID, s: Service, addr: Addr,
                     version: Version)
    requires Reaches(w0, ss, w, version) && Sound(w, version) && AllInSync(w)
    requires v in w.vks && IsRoot(w.vks[v]) && s != "" && leaf in w.vks[v].tables.leaves && leaf !in w.vks
    ensures var w' := AfterRegister(w, v, leaf, s, addr, 0, true);
            && Reaches(w0, ss + [LeafRegisters(v, leaf, s, addr, 0, true)], w', version)
            && Sound(w', version) && AllInSync(w')
  {
    var step := LeafRegisters(v, leaf, s, addr, 0, true);
    assert RegisterUp(w, v, leaf, s, addr, 0, true, version) == AfterRegister(w, v, leaf, s, addr, 0, true);
    ReachesFurther(w0, ss, w, step, version);
    AdvanceKeepsSync(w, step, version);
  }

  /** The second vaultkeeper is a root of height 0 without children. */
  predicate Unused(w: World, version: Version) {
    && 2 in w.vks && 9 !in w.vks && w.vks[2].tables == EMPTY_TABLES && w.vks[2].supported == {version}
    && IsRoot(w.vks[2]) && w.vks[2].height == 0
  }

  lemma LeafJoins(w: World, version: Version)
    requires Unused(w, version)
    ensures var w2 := Joins9(Greets9(w, version), version);
            && w2.vks.Keys == w.vks.Keys && (forall x | x in w.vks && x != 2 :: w2.vks[x] == w.vks[x])
            && w2.vks[2].tables.leaves == map[9 := map[]] && w2.vks[2].tables.cvks == map[]
            && w2.vks[2].tables.all == map[] && IsRoot(w2.vks[2]) && w2.vks[2].height == 0
  {
    var n1 := Greets9(w, version).vks[2];
    assert Joins9(Greets9(w, version), version).vks[2].tables == AddLeaf(n1.tables, 9);
  }

  lemma LeafIsReached(w: World, version: Version)
    requires Sound(w, version) && AllInSync(w) && Unused(w, version)
    ensures var w2 := Joins9(Greets9(w, version), version);
            && Reaches(w, ServiceAtTarget(version)[..2], w2, version) && Sound(w2, version) && AllInSync(w2)
  {
    assert Reaches(w, [], w, version);
    QuietNext(w, [], w, 2, Hello(Request(false, version, 9), false), version);
    var ss := ServiceAtTarget(version);
    assert [] + [ss[0]] == ss[..1];
    QuietNext(w, ss[..1], Greets9(w, version), 2,
              Join(Request(false, version, 9), Present(JoinBody(false, 0, None))), version);
    assert ss[..1] + [ss[1]] == ss[..2];
  }

  lemma RegistrationIsReached(w: World, w2: World, version: Version)
    requires Reaches(w, ServiceAtTarget(version)[..2], w2, version) && Sound(w2, version) && AllInSync(w2)
    requires 2 in w2.vks && 9 !in w2.vks && IsRoot(w2.vks[2]) && 9 in w2.vks[2].tables.leaves
    ensures Reaches(w, ServiceAtTarget(version)[..3], Registers9(w2), version)
    ensures Sound(Registers9(w2), version) && AllInSync(Registers9(w2))
  {
    RegisterNext(w, ServiceAtTarget(version)[..2], w2, 2, 9, "dns", "host", version);
    assert ServiceAtTarget(version)[..2] + [ServiceAtTarget(version)[2]] == ServiceAtTarget(version)[..3];
  }

  lemma ServiceIsReached(w: World, w3: World, version: Version)
    requires Reaches(w, ServiceAtTarget(version)[..3], w3, version) && Sound(w3, version) && AllInSync(w3)
    requires 2 in w3.vks
    ensures Reaches(w, ServiceAtTarget(version), Greets1(w3, version), version)
    ensures Sound(Greets1(w3, version), version) && AllInSync(Greets1(w3, version))
  {
    QuietNext(w, ServiceAtTarget(version)[..3], w3, 2, Hello(Request(false, version, 1), false), version);
    assert ServiceAtTarget(version)[..3] + [ServiceAtTarget(version)[3]] == ServiceAtTarget(version);
  }

  lemma ProviderIs(w2: World, version: Version)
    requires 2 in w2.vks && 9 in w2.vks[2].tables.leaves
    ensures var w := Greets1(Registers9(w2), version);
            && w.vks == w2.vks[2 := w.vks[2]]
            && w.vks[2] == w2.vks[2].(hellos := w2.vks[2].hellos + {1}, greeted := w.vks[2].greeted,
                                      tables := w.vks[2].tables)
            && w.vks[2].tables.cvks == w2.vks[2].tables.cvks && "dns" in w.vks[2].tables.all
  {
  }

  /** Both are roots of height 0, 1 has greeted 2, and only 2 lists the service. */
  predicate ReadyToHide(w: World) {
    && w.vks.Keys == {1, 2} && IsRoot(w.vks[1]) && IsRoot(w.vks[2])
    && w.vks[1].height == w.vks[2].height == 0
    && 1 in w.vks[2].hellos && w.vks[2].tables.cvks == map[]
    && w.vks[1].tables.all == map[] && "dns" in w.vks[2].tables.all
  }

  function LeafWorld(version: Version): World {
    Joins9(Greets9(TwoNew(version), version), version)
  }

  function ServiceWorld(version: Version): World {
    LeafJoins(TwoNew(version), version);
    Greets1(Registers9(LeafWorld(version)), version)
  }

  lemma ServiceWorldIsReached(version: Version)
    ensures Newborn(TwoNew(version), version)
    ensures Reaches(TwoNew(version), ServiceAtTarget(version), ServiceWorld(version), version)
    ensures Sound(ServiceWorld(version), version) && AllInSync(ServiceWorld(version))
  {
    NewbornIsSound(TwoNew(version), version);
    LeafIsReached(TwoNew(version), version);
    LeafJoins(TwoNew(version), version);
    RegistrationIsReached(TwoNew(version), LeafWorld(version), version);
    ServiceIsReached(TwoNew(version), Registers9(LeafWorld(version)), version);
  }

  lemma ServiceWorldHides(version: Version)
    ensures ReadyToHide(ServiceWorld(version))
  {
    LeafJoins(TwoNew(version), version);
    ProviderIs(LeafWorld(version), version);
    assert LeafWorld(version).vks[1] == Fresh(1, {version}, 0);
  }

  /** From new vaultkeepers, a MERGE between roots can leave the new root without a service of its vault. */
  lemma MergeHidesService(version: Version) returns (w: World)
    ensures Newborn(TwoNew(version), version) && Reaches(TwoNew(version), ServiceAtTarget(version), w, version)
    ensures w.vks.Keys == {1, 2} && IsRoot(w.vks[1]) && IsRoot(w.vks[2])
    ensures OfferMerge(w, 1, 2, version, "vk1").1.Accepted?
    ensures var w' := TakeMerge(w, 1, 2, version, "vk1", "vk2");
            Rising(w') && RegisteredUnder(w', 1, "dns") && "dns" !in w'.vks[1].tables.all
  {
    ServiceWorldIsReached(version);
    ServiceWorldHides(version);
    w := ServiceWorld(version);
    ServiceStaysHidden(w, 1, 2, version, "vk1", "vk2", "dns");
  }

  /** A root that has greeted another of its height and lists a service the other does not. */
  lemma ServiceStaysHidden(w: World, r: NodeID, t: NodeID, version: Version, rAddr: Addr, tAddr: Addr, s: Service)
    requires Sound(w, version) && AllInSync(w) && r in w.vks && t in w.vks && r != t
    requires IsRoot(w.vks[r]) && IsRoot(w.vks[t]) && w.vks[r].height == w.vks[t].height < MAX_UINT16
    requires r in w.vks[t].hellos && r !in w.vks[t].tables.cvks
    requires s in w.vks[t].tables.all && s !in w.vks[r].tables.all
    ensures OfferMerge(w, r, t, version, rAddr).1.Accepted?
    ensures var w' := TakeMerge(w, r, t, version, rAddr, tAddr);
            Rising(w') && RegisteredUnder(w', r, s) && s !in w'.vks[r].tables.all
  {
    assert NodeOk(w, t, version);
    MergeAcceptedIff(w.vks[t], Request(false, version, r), MergeRequest(w, r, rAddr), None);
    MergeRises(w, r, t, version, rAddr, tAddr);
    MergeLinks(w, r, t, version, rAddr, tAddr);
    ListsExactlyWhatIsBelow(w, version, t, s);
    RegisteredAfterMerge(w, TakeMerge(w, r, t, version, rAddr, tAddr), r, t, r, s);
  }
}
