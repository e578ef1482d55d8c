/**
  Where the addresses come from that a vault hands out: each was registered by some leaf, and where
  parents' records are truthful, some leaf below offers it still.
 */
module Provenance {
  import opened Basics
  import opened Versions
  import opened ChildTables
  import opened VaultNode
  import opened Vault
  import opened Omnipotence
  import opened Routing
  import opened Discovery

  type Pairs = set<(Service, Addr)>

  /** Every address listed is one of `known` for its service. */
  ghost predicate ListsOnly(all: Index, known: Pairs) {
    forall s, c | Listed(all, s, c).Some? :: (s, Listed(all, s, c).value) in known
  }

  ghost predicate AllListOnly(w: World, known: Pairs) {
    forall v | v in w.vks :: ListsOnly(w.vks[v].tables.all, known)
  }

  /** The services and addresses that leaves register in these steps. */
  function Registrations(ss: seq<VaultStep>): Pairs {
    set i | 0 <= i < |ss| && ss[i].LeafRegisters? :: (ss[i].service, ss[i].addr)
  }

  // ---- tables -------------------------------------------------------------------------------------

  lemma ListingLists(all: Index, s: Service, id: NodeID, addr: Addr, known: Pairs)
    requires ListsOnly(all, known) && (s, addr) in known
    ensures ListsOnly(Listing(all, s, id, addr), known)
  {
    ListingIsExact(all, s, id, addr);
  }

  lemma WithoutLists(all: Index, names: set<Service>, id: NodeID, known: Pairs)
    requires ListsOnly(all, known)
    ensures ListsOnly(Without(all, names, id), known)
  {
    WithoutIsExact(all, names, id);
  }

  lemma AddServiceLists(t: Tables, id: NodeID, s: Service, addr: Addr, stale: int, stopped: bool, known: Pairs)
    requires ListsOnly(t.all, known) && (s, addr) in known
    ensures ListsOnly(AddService(t, id, s, addr, stale, stopped).all, known)
  {
    ListingLists(t.all, s, id, addr, known);
  }

  lemma DeregisterLists(t: Tables, id: NodeID, s: Service, known: Pairs)
    requires ListsOnly(t.all, known)
    ensures ListsOnly(Deregister(t, id, s).0.all, known)
  {
    DeregisterIsUnlist(t, id, s);
    WithoutLists(t.all, {s}, id, known);
  }

  /** The names that child c.id loses when a timer or its departure takes them. */
  function Dropped(t: Tables, c: Change): set<Service>
    requires IsLoss(t, c)
  {
    match c
    case LeafRemoved(id, _, _) => if id in t.leaves then t.leaves[id].Keys else {}
    case ServicePruned(_, s, _) => {s}
    case CVKRemoved(id) => if id in t.cvks then t.cvks[id].services.Keys else {}
  }

  lemma LossOfIndex(t: Tables, c: Change)
    requires IsLoss(t, c)
    ensures Changed(t, c).all == Without(t.all, Dropped(t, c), c.id)
  {
    assert Without(t.all, {}, c.id) == t.all;
    match c
    case ServicePruned(id, s, flag) =>
      FirePruneTables(t, id, s, flag);
      ForgetIsUnlist(t, id, s);
    case _ =>
  }

  lemma LossLists(t: Tables, c: Change, known: Pairs)
    requires ListsOnly(t.all, known) && IsLoss(t, c)
    ensures ListsOnly(Changed(t, c).all, known)
  {
    LossOfIndex(t, c);
    WithoutLists(t.all, Dropped(t, c), c.id, known);
  }

  lemma SetTablesLists(w: World, v: NodeID, t: Tables, known: Pairs)
    requires AllListOnly(w, known) && v in w.vks && ListsOnly(t.all, known)
    ensures AllListOnly(SetTables(w, v, t), known)
  {
  }

  // ---- cascades -----------------------------------------------------------------------------------

  lemma {:induction false} RegisterUpLists(w: World, v: NodeID, c: NodeID, s: Service, addr: Addr, stale: int,
                                           stopped: bool, version: Version, known: Pairs)
    requires Sound(w, version) && AllListOnly(w, known) && v in w.vks && (s, addr) in known
    ensures AllListOnly(RegisterUp(w, v, c, s, addr, stale, stopped, version), known)
    decreases TWO_TO_16 - w.vks[v].height
  {
    if Registers(w, v, c, s) {
      RegisterHop(w, v, c, s, addr, stale, stopped, version);
      AddServiceLists(w.vks[v].tables, c, s, addr, stale, stopped, known);
      var w1 := AfterRegister(w, v, c, s, addr, stale, stopped);
      SetTablesLists(w, v, AddService(w.vks[v].tables, c, s, addr, stale, stopped), known);
      if w.vks[v].parentID != 0 {
        RegisterUpLists(w1, w.vks[v].parentID, v, s, addr, 0, false, version, known);
      }
    }
  }

  lemma {:induction false} DeregisterUpLists(w: World, v: NodeID, c: NodeID, s: Service, version: Version, known: Pairs)
    requires Sound(w, version) && AllListOnly(w, known) && v in w.vks
    ensures AllListOnly(DeregisterUp(w, v, c, s, version), known)
    decreases TWO_TO_16 - w.vks[v].height
  {
    DeregisterHop(w, v, c, s, version);
    DeregisterLists(w.vks[v].tables, c, s, known);
    var w1 := AfterDeregister(w, v, c, s);
    SetTablesLists(w, v, Deregister(w.vks[v].tables, c, s).0, known);
    if s in w.vks[v].tables.all && s !in w1.vks[v].tables.all && w.vks[v].parentID != 0 {
      DeregisterUpLists(w1, w.vks[v].parentID, v, s, version, known);
    }
  }

  lemma {:induction false} NotifyAllLists(w: World, v: NodeID, order: seq<Service>, version: Version, known: Pairs)
    requires Sound(w, version) && AllListOnly(w, known) && v in w.vks
    ensures AllListOnly(NotifyAll(w, v, order, version), known)
    decreases |order|
  {
    if order != [] && w.vks[v].parentID != 0 {
      ParentIsAbove(w, v, order[0], version);
      DeregisterUpLists(w, w.vks[v].parentID, v, order[0], version, known);
      NotifyAllLists(DeregisterUp(w, w.vks[v].parentID, v, order[0], version), v, order[1..], version, known);
    }
  }

  lemma {:induction false} RegisterAllLists(w: World, p: NodeID, c: NodeID, sent: seq<(Service, Addr)>,
                                            version: Version, known: Pairs)
    requires Sound(w, version) && AllListOnly(w, known) && p in w.vks && c != p
    requires forall m | m in sent :: m in known
    ensures AllListOnly(RegisterAll(w, p, c, sent, version), known)
    decreases |sent|
  {
    if sent != [] {
      assert sent[0] in sent && sent[0] == (sent[0].0, sent[0].1);
      RegisterUpKeepsSync(w, p, c, sent[0].0, sent[0].1, 0, false, version);
      RegisterUpLists(w, p, c, sent[0].0, sent[0].1, 0, false, version, known);
      RegisterAllLists(RegisterUp(w, p, c, sent[0].0, sent[0].1, 0, false, version), p, c, sent[1..], version, known);
    }
  }

  // ---- steps --------------------------------------------------------------------------------------

  lemma SentIsKnown(all: Index, sent: seq<(Service, Addr)>, known: Pairs)
    requires ListsOnly(all, known) && HandsUp(all, sent)
    ensures forall m | m in sent :: m in known
  {
    forall m | m in sent
      ensures m in known
    {
      var c :| c in all[m.0] && all[m.0][c] == m.1;
      assert Listed(all, m.0, c) == Some(m.1) && m == (m.0, m.1);
    }
  }

  lemma SameIndexLists(w: World, w': World, known: Pairs)
    requires AllListOnly(w, known) && w'.vks.Keys == w.vks.Keys
    requires forall v | v in w.vks :: w'.vks[v].tables.all == w.vks[v].tables.all
    ensures AllListOnly(w', known)
  {
  }

  lemma TwoNodesList(w: World, w': World, c: NodeID, p: NodeID, n: Node, m: Node, known: Pairs)
    requires AllListOnly(w, known) && c in w.vks && p in w.vks && w'.vks == w.vks[p := n][c := m]
    requires n.tables.all == w.vks[p].tables.all && m.tables.all == w.vks[c].tables.all
    ensures AllListOnly(w', known)
  {
  }

  lemma TakeJoinLists(w: World, c: NodeID, p: NodeID, cAddr: Addr, pAddr: Addr, version: Version, known: Pairs)
    requires Sound(w, version) && AllListOnly(w, known) && c in w.vks && p in w.vks && c != p && IsRoot(w.vks[c])
    requires c !in w.vks[p].tables.cvks
    ensures AllListOnly(TakeJoin(w, c, p, version, cAddr, pAddr), known)
  {
    var w1 := TakeJoin(w, c, p, version, cAddr, pAddr);
    JoinShape(w, c, p, cAddr, pAddr, version);
    TwoNodesList(w, w1, c, p, w1.vks[p], w1.vks[c], known);
  }

  lemma JoinLists(w: World, c: NodeID, p: NodeID, cAddr: Addr, pAddr: Addr, sent: seq<(Service, Addr)>, w1: World,
                  version: Version, known: Pairs)
    requires Sound(w1, version) && AllListOnly(w, known) && AllListOnly(w1, known)
    requires c in w.vks && HandsUp(w.vks[c].tables.all, sent) && c != p && p in w1.vks
    ensures AllListOnly(RegisterAll(w1, p, c, sent, version), known)
  {
    SentIsKnown(w.vks[c].tables.all, sent, known);
    RegisterAllLists(w1, p, c, sent, version, known);
  }

  lemma MergeLists(w: World, r: NodeID, t: NodeID, rAddr: Addr, tAddr: Addr, version: Version, known: Pairs)
    requires Sound(w, version) && AllListOnly(w, known) && r in w.vks && t in w.vks && r != t
    requires w.vks[t].parentID != r && OfferMerge(w, r, t, version, rAddr).1.Accepted?
    ensures AllListOnly(TakeMerge(w, r, t, version, rAddr, tAddr), known)
  {
    assert NodeOk(w, r, version);
    MergeShape(w, r, t, version, rAddr, tAddr);
    SameIndexLists(w, TakeMerge(w, r, t, version, rAddr, tAddr), known);
  }

  lemma RefusalLists(w: World, r: NodeID, t: NodeID, rAddr: Addr, tAddr: Addr, version: Version, known: Pairs)
    requires AllListOnly(w, known) && r in w.vks && t in w.vks && r != t
    requires w.vks[t].parentID != r && !OfferMerge(w, r, t, version, rAddr).1.Accepted?
    ensures AllListOnly(TakeMerge(w, r, t, version, rAddr, tAddr), known)
  {
    RefusedMerge(w.vks[t], Request(false, version, r), MergeRequest(w, r, rAddr), None);
    SameIndexLists(w, TakeMerge(w, r, t, version, rAddr, tAddr), known);
  }

  lemma LocalLossLists(w: World, v: NodeID, c: Change, known: Pairs)
    requires AllListOnly(w, known) && v in w.vks && IsLoss(w.vks[v].tables, c)
    ensures AllListOnly(SetTables(w, v, Changed(w.vks[v].tables, c)), known)
  {
    LossLists(w.vks[v].tables, c, known);
    SetTablesLists(w, v, Changed(w.vks[v].tables, c), known);
  }

  lemma DepartedLists(w: World, c: NodeID, known: Pairs)
    requires AllListOnly(w, known) && c in w.vks && w.vks[c].parentID in w.vks
    ensures AllListOnly(Departed(w, c), known)
  {
    var p := w.vks[c].parentID;
    LocalLossLists(w, p, CVKRemoved(c), known);
    SameIndexLists(SetTables(w, p, RemoveCVK(w.vks[p].tables, c)), Departed(w, c), known);
  }

  lemma LossStepLists(w: World, w1: World, v: NodeID, c: Change, order: seq<Service>, version: Version, known: Pairs)
    requires AllListOnly(w, known) && v in w.vks && IsLoss(w.vks[v].tables, c)
    requires w1 == SetTables(w, v, Changed(w.vks[v].tables, c)) && Sound(w1, version)
    ensures AllListOnly(NotifyAll(w1, v, order, version), known)
  {
    LocalLossLists(w, v, c, known);
    NotifyAllLists(w1, v, order, version, known);
  }

  lemma DepartureStepLists(w: World, w1: World, c: NodeID, order: seq<Service>, version: Version, known: Pairs)
    requires AllListOnly(w, known) && c in w.vks && w.vks[c].parentID in w.vks
    requires w1 == Departed(w, c) && Sound(w1, version)
    ensures AllListOnly(NotifyAll(w1, w.vks[c].parentID, order, version), known)
  {
    DepartedLists(w, c, known);
    NotifyAllLists(w1, w.vks[c].parentID, order, version, known);
  }

  lemma LossesList(w: World, v: NodeID, c: Change, order: seq<Service>, version: Version, known: Pairs)
    requires Sound(w, version) && AllListOnly(w, known) && Possible(w, Loses(v, c, order), version)
    ensures AllListOnly(Advance(w, Loses(v, c, order), version), known)
  {
    LossIsSound(w, v, c, version);
    LossStepLists(w, SetTables(w, v, Changed(w.vks[v].tables, c)), v, c, order, version, known);
  }

  lemma DeparturesList(w: World, c: NodeID, order: seq<Service>, version: Version, known: Pairs)
    requires Sound(w, version) && AllListOnly(w, known) && Possible(w, ChildLeaves(c, order), version)
    ensures AllListOnly(Advance(w, ChildLeaves(c, order), version), known)
  {
    DepartureIsSound(w, c, version);
    DepartureStepLists(w, Departed(w, c), c, order, version, known);
  }

  lemma OneNodeLists(w: World, v: NodeID, n: Node, known: Pairs)
    requires AllListOnly(w, known) && v in w.vks && n.tables.all == w.vks[v].tables.all
    ensures AllListOnly(w.(vks := w.vks[v := n]), known)
  {
  }

  lemma QuietLists(w: World, v: NodeID, e: Event, known: Pairs)
    requires AllListOnly(w, known) && v in w.vks && IsQuiet(w, e)
    ensures AllListOnly(ApplyAt(w, v, e), known)
  {
    QuietKeepsLinks(w, w.vks[v], e);
    OneNodeLists(w, v, Apply(w.vks[v], e), known);
  }

  lemma GivingUpLists(w: World, c: NodeID, known: Pairs)
    requires AllListOnly(w, known) && c in w.vks
    ensures AllListOnly(ApplyAt(w, c, LoseParent), known)
  {
    OneNodeLists(w, c, Apply(w.vks[c], LoseParent), known);
  }

  lemma CarriesLists(w: World, s: Step, known: Pairs)
    requires Rising(w) && AllListOnly(w, known) && (s.Deliver? || s.Lose? || s.Repeat?) && Enabled(w, s)
    ensures AllListOnly(Take(w, s), known)
  {
    CarryingMovesHeights(w, s);
    SameIndexLists(w, Take(w, s), known);
  }

  lemma MergeStepLists(w: World, r: NodeID, t: NodeID, rAddr: Addr, tAddr: Addr, version: Version, known: Pairs)
    requires Sound(w, version) && AllListOnly(w, known) && r in w.vks && t in w.vks && r != t
    requires w.vks[t].parentID != r
    ensures AllListOnly(TakeMerge(w, r, t, version, rAddr, tAddr), known)
  {
    if OfferMerge(w, r, t, version, rAddr).1.Accepted? {
      MergeLists(w, r, t, rAddr, tAddr, version, known);
    } else {
      RefusalLists(w, r, t, rAddr, tAddr, version, known);
    }
  }

  lemma JoinStepLists(w: World, c: NodeID, p: NodeID, cAddr: Addr, pAddr: Addr, sent: seq<(Service, Addr)>,
                      version: Version, known: Pairs)
    requires Sound(w, version) && AllListOnly(w, known)
    requires Possible(w, ChildJoins(c, p, cAddr, pAddr, sent), version)
    ensures AllListOnly(Advance(w, ChildJoins(c, p, cAddr, pAddr, sent), version), known)
  {
    JoinIsSound(w, c, p, cAddr, pAddr, version);
    TakeJoinLists(w, c, p, cAddr, pAddr, version, known);
    JoinLists(w, c, p, cAddr, pAddr, sent, TakeJoin(w, c, p, version, cAddr, pAddr), version, known);
  }

  lemma AdvanceLists(w: World, s: VaultStep, version: Version, known: Pairs)
    requires Sound(w, version) && AllListOnly(w, known) && Possible(w, s, version)
    requires s.LeafRegisters? ==> (s.service, s.addr) in known
    ensures AllListOnly(Advance(w, s, version), known)
  {
    match s
    case Quiet(v, e) => QuietLists(w, v, e, known);
    case LeafRegisters(v, leaf, s, addr, stale, stopped) =>
      RegisterUpLists(w, v, leaf, s, addr, stale, stopped, version, known);
    case LeafDeregisters(v, leaf, s) => DeregisterUpLists(w, v, leaf, s, version, known);
    case Loses(v, change, order) => LossesList(w, v, change, order, version, known);
    case ChildLeaves(c, order) => DeparturesList(w, c, order, version, known);
    case GivesUpParent(c) => GivingUpLists(w, c, known);
    case ChildJoins(c, p, cAddr, pAddr, sent) => JoinStepLists(w, c, p, cAddr, pAddr, sent, version, known);
    case RootsMerge(r, t, rAddr, tAddr) => MergeStepLists(w, r, t, rAddr, tAddr, version, known);
    case Carries(s) => CarriesLists(w, s, known);
  }

  // ---- every run ----------------------------------------------------------------------------------

  lemma {:induction false} OnlyRegisteredAlways(w: World, ss: seq<VaultStep>, w': World, version: Version, known: Pairs)
    requires Sound(w, version) && AllInSync(w) && AllListOnly(w, known) && Reaches(w, ss, w', version)
    requires Registrations(ss) <= known
    ensures AllListOnly(w', known)
    decreases |ss|
  {
    if ss != [] {
      assert ss[0].LeafRegisters? ==> (ss[0].service, ss[0].addr) in Registrations(ss);
      AdvanceLists(w, ss[0], version, known);
      AdvanceKeepsSync(w, ss[0], version);
      forall m | m in Registrations(ss[1..])
        ensures m in Registrations(ss)
      {
        var i :| 0 <= i < |ss[1..]| && ss[1..][i].LeafRegisters? && m == (ss[1..][i].service, ss[1..][i].addr);
        assert ss[i + 1] == ss[1..][i];
      }
      OnlyRegisteredAlways(Advance(w, ss[0], version), ss[1..], w', version, known);
    }
  }

  /** Every address a vaultkeeper lists for a service was registered for it by some leaf earlier in the run. */
  lemma AddressesWereRegistered(w: World, ss: seq<VaultStep>, w': World, version: Version, v: NodeID, s: Service,
                                c: NodeID)
    requires Newborn(w, version) && Reaches(w, ss, w', version) && v in w'.vks
    requires Listed(w'.vks[v].tables.all, s, c).Some?
    ensures (s, Listed(w'.vks[v].tables.all, s, c).value) in Registrations(ss)
  {
    NewbornIsSound(w, version);
    forall x | x in w.vks
      ensures ListsOnly(w.vks[x].tables.all, Registrations(ss))
    {
      assert w.vks[x] == Fresh(x, w.vks[x].supported, w.vks[x].height);
    }
    OnlyRegisteredAlways(w, ss, w', version, Registrations(ss));
  }

  // ---- addresses still offered --------------------------------------------------------------------

  predicate LeafOffersAt(w: World, u: NodeID, leaf: NodeID, s: Service, addr: Addr)
    requires u in w.vks
  {
    LeafOffers(w, u, leaf, s) && w.vks[u].tables.leaves[leaf][s].addr == addr
  }

  /** Some leaf at or below v, on record all the way, offers s at this address. */
  ghost predicate OfferedUnder(w: World, v: NodeID, s: Service, addr: Addr)
    requires Rising(w)
  {
    exists u, leaf :: u in w.vks && Under(w, u, v) && LeafOffersAt(w, u, leaf, s, addr)
  }

  /** Every address the parent has on record for v is one v lists itself. */
  predicate Truthful(w: World, v: NodeID)
    requires v in w.vks
  {
    var p, all := w.vks[v].parentID, w.vks[v].tables.all;
    p in w.vks && v in w.vks[p].tables.cvks ==>
      var record := w.vks[p].tables.cvks[v].services;
      forall s | s in record :: s in all && record[s] in all[s].Values
  }

  /** Where all records are truthful, every address listed is still offered by a leaf below. */
  lemma {:induction false} ListedIsOffered(w: World, version: Version, v: NodeID, s: Service, addr: Addr)
    requires Sound(w, version) && forall x | x in w.vks :: Truthful(w, x)
    requires v in w.vks && s in w.vks[v].tables.all && addr in w.vks[v].tables.all[s].Values
    ensures OfferedUnder(w, v, s, addr)
    decreases w.vks[v].height
  {
    var t := w.vks[v].tables;
    assert NodeOk(w, v, version);
    var c :| c in t.all[s] && t.all[s][c] == addr;
    assert Listed(t.all, s, c) == Offers(t, c, s);
    if c in t.leaves && s in t.leaves[c] {
      assert Under(w, v, v) && LeafOffersAt(w, v, c, s, addr);
    } else {
      assert w.vks[c].parentID == v && LinkRises(w, c) && Truthful(w, c);
      ListedIsOffered(w, version, c, s, addr);
      var u, leaf :| u in w.vks && Under(w, u, c) && LeafOffersAt(w, u, leaf, s, addr);
      UnderExtends(w, u, c, v);
    }
  }

  /** There, whatever address a client is given, a leaf below the vaultkeeper that answers offers it. */
  lemma GetAnswerIsOffered(w: World, v: NodeID, from: NodeID, version: Version, body: GetBody, u: NodeID,
                           addrs: set<Addr>, addr: Addr)
    requires Sound(w, version) && forall x | x in w.vks :: Truthful(w, x)
    requires v in w.vks && from !in w.vks && body.token != "" && body.respAddr.Some?
    requires RouteGet(w, v, from, version, body, version) == AnsweredBy(u, Found(addrs)) && addr in addrs
    ensures OfferedUnder(w, u, body.service, addr)
  {
    SoundIsAddressed(w, version);
    var k := GetIsAnswered(w, v, from, version, body, version);
    ListedIsOffered(w, version, u, body.service, addr);
  }

  /** What v's parent has on record for v. */
  function RecordOf(w: World, v: NodeID): map<Service, Addr>
    requires v in w.vks && w.vks[v].parentID in w.vks && v in w.vks[w.vks[v].parentID].tables.cvks
  {
    w.vks[w.vks[v].parentID].tables.cvks[v].services
  }

  lemma RecordsOutlive(w: World, v: NodeID, t': Tables)
    requires Rising(w) && v in w.vks && w.vks[v].parentID in w.vks && v in w.vks[w.vks[v].parentID].tables.cvks
    ensures var w' := SetTables(w, v, t');
            Truthful(w', v) <==> forall s | s in RecordOf(w, v) :: s in t'.all && RecordOf(w, v)[s] in t'.all[s].Values
  {
    assert LinkRises(w, v);
  }

  /**
    A DEREGISTER that leaves the name listed is not passed on, so the parent's address stays good exactly
    when a provider that remains has it too.
   */
  lemma DeregisterStaysTruthfulIff(w: World, v: NodeID, c: NodeID, s: Service, version: Version)
    requires Sound(w, version) && v in w.vks && Truthful(w, v)
    requires w.vks[v].parentID in w.vks && v in w.vks[w.vks[v].parentID].tables.cvks
    requires s in RecordOf(w, v) && w.vks[v].tables.all[s].Keys != {c}
    ensures DeregisterUp(w, v, c, s, version) == AfterDeregister(w, v, c, s)
    ensures Truthful(AfterDeregister(w, v, c, s), v) <==>
            RecordOf(w, v)[s] in (w.vks[v].tables.all[s] - {c}).Values
  {
    assert NodeOk(w, v, version);
    OthersStay(w.vks[v].tables, c, s);
    RecordsOutlive(w, v, Deregister(w.vks[v].tables, c, s).0);
  }

  /** The same for a child that leaves or expires and a service that goes stale, each name on its own. */
  lemma LossStaysTruthfulIff(w: World, v: NodeID, c: Change, version: Version)
    requires Sound(w, version) && v in w.vks && Truthful(w, v)
    requires w.vks[v].parentID in w.vks && v in w.vks[w.vks[v].parentID].tables.cvks
    requires IsLoss(w.vks[v].tables, c)
    requires SoleProvided(w.vks[v].tables.all, Dropped(w.vks[v].tables, c), c.id) == {}
    ensures Possible(w, Loses(v, c, []), version)
    ensures Advance(w, Loses(v, c, []), version) == SetTables(w, v, Changed(w.vks[v].tables, c))
    ensures Truthful(SetTables(w, v, Changed(w.vks[v].tables, c)), v) <==>
            forall s | s in RecordOf(w, v) && s in Dropped(w.vks[v].tables, c) ::
              RecordOf(w, v)[s] in (w.vks[v].tables.all[s] - {c.id}).Values
  {
    var t := w.vks[v].tables;
    LossOfIndex(t, c);
    RecordsOutlive(w, v, Changed(t, c));
  }

  /** One of several providers of a name goes. */
  lemma OthersStay(t: Tables, c: NodeID, s: Service)
    requires s in t.all && t.all[s].Keys != {c} && t.all[s] != map[]
    ensures var t' := Deregister(t, c, s).0;
            t'.all == t.all[s := t.all[s] - {c}]
  {
    DeregisterIsUnlist(t, c, s);
  }
}
