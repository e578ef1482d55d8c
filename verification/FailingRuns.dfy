/** Runs from new vaultkeepers in which a vault fails its clients. */
module FailingRuns {
  import opened Basics
  import opened Versions
  import opened ChildTables
  import opened VaultNode
  import opened Vault
  import opened Omnipotence
  import opened Routing
  import opened WholeTree
  import opened Discovery
  import opened Provenance

  /** Some run leads here from new vaultkeepers. */
  ghost predicate Reachable(w: World, version: Version) {
    exists w0, ss :: Newborn(w0, version) && Reaches(w0, ss, w, version)
  }

  lemma ReachableIsSound(w: World, version: Version)
    requires Reachable(w, version)
    ensures Sound(w, version) && AllInSync(w)
  {
    var w0, ss :| Newborn(w0, version) && Reaches(w0, ss, w, version);
    NewbornIsSound(w0, version);
    ReachedIsInSync(w0, ss, w, version);
  }

  lemma NewIsReachable(w: World, version: Version)
    requires Newborn(w, version)
    ensures Reachable(w, version)
  {
    assert Reaches(w, [], w, version);
  }

  lemma StepIsReachable(w: World, s: VaultStep, version: Version)
    requires Reachable(w, version) && Sound(w, version) && Possible(w, s, version)
    ensures Reachable(Advance(w, s, version), version)
  {
    var w0, ss :| Newborn(w0, version) && Reaches(w0, ss, w, version);
    ReachesFurther(w0, ss, w, s, version);
  }

  // ---- single steps -------------------------------------------------------------------------------

  function Greeting(n: Node, c: NodeID, version: Version): Node {
    ServeHello(n, Request(false, version, c), false).0
  }

  lemma Greet(w: World, v: NodeID, c: NodeID, version: Version) returns (w': World)
    requires Reachable(w, version) && v in w.vks
    ensures Reachable(w', version)
    ensures w'.vks == w.vks[v := Greeting(w.vks[v], c, version)]
  {
    ReachableIsSound(w, version);
    var e := Hello(Request(false, version, c), false);
    StepIsReachable(w, Quiet(v, e), version);
    w' := ApplyAt(w, v, e);
  }

  /** A vaultkeeper after a leaf that has greeted it has joined. */
  function WithLeaf(n: Node, leaf: NodeID, version: Version): Node {
    ServeJoin(n, Request(false, version, leaf), Present(JoinBody(false, 0, None))).0
  }

  lemma LeafJoin(w: World, v: NodeID, leaf: NodeID, version: Version) returns (w': World)
    requires Reachable(w, version) && v in w.vks && leaf !in w.vks
    ensures Reachable(w', version)
    ensures w'.vks == w.vks[v := WithLeaf(w.vks[v], leaf, version)]
  {
    ReachableIsSound(w, version);
    var e := Join(Request(false, version, leaf), Present(JoinBody(false, 0, None)));
    StepIsReachable(w, Quiet(v, e), version);
    w' := ApplyAt(w, v, e);
  }

  /** The tables after child c has registered each of `sent`. */
  function Registered(t: Tables, c: NodeID, sent: seq<(Service, Addr)>): Tables
    decreases |sent|
  {
    if sent == [] then t else Registered(AddService(t, c, sent[0].0, sent[0].1, 0, false), c, sent[1..])
  }

  lemma LeafRegister(w: World, v: NodeID, leaf: NodeID, s: Service, addr: Addr, version: Version) returns (w': World)
    requires Reachable(w, version) && v in w.vks && IsRoot(w.vks[v])
    requires leaf !in w.vks && leaf in w.vks[v].tables.leaves && s != ""
    ensures Reachable(w', version)
    ensures w'.vks == w.vks[v := w.vks[v].(tables := AddService(w.vks[v].tables, leaf, s, addr, 0, true))]
  {
    ReachableIsSound(w, version);
    var step := LeafRegisters(v, leaf, s, addr, 0, true);
    StepIsReachable(w, step, version);
    w' := RegisterUp(w, v, leaf, s, addr, 0, true, version);
  }

  /** Handing services up to a root changes that root's tables and nothing else. */
  lemma {:induction false} RegisterAllAtRoot(w: World, p: NodeID, c: NodeID, sent: seq<(Service, Addr)>,
                                             version: Version)
    requires Sound(w, version) && p in w.vks && c != p && IsRoot(w.vks[p])
    requires c in w.vks[p].tables.cvks && forall m | m in sent :: m.0 != ""
    ensures RegisterAll(w, p, c, sent, version) == SetTables(w, p, Registered(w.vks[p].tables, c, sent))
    decreases |sent|
  {
    if sent == [] {
      assert w.vks[p := w.vks[p].(tables := w.vks[p].tables)] == w.vks;
    } else {
      var w1 := AfterRegister(w, p, c, sent[0].0, sent[0].1, 0, false);
      RegisterAtRoot(w, p, c, sent[0].0, sent[0].1, version);
      RegisterAllAtRoot(w1, p, c, sent[1..], version);
      SetTablesTwice(w, p, w1.vks[p].tables, Registered(w1.vks[p].tables, c, sent[1..]));
    }
  }

  lemma RegisterAtRoot(w: World, p: NodeID, c: NodeID, s: Service, addr: Addr, version: Version)
    requires Sound(w, version) && p in w.vks && IsRoot(w.vks[p]) && c in w.vks[p].tables.cvks && s != ""
    ensures var w1 := AfterRegister(w, p, c, s, addr, 0, false);
            && RegisterUp(w, p, c, s, addr, 0, false, version) == w1
            && Sound(w1, version) && IsRoot(w1.vks[p]) && c in w1.vks[p].tables.cvks
  {
    RegisterHop(w, p, c, s, addr, 0, false, version);
    assert c in AfterRegister(w, p, c, s, addr, 0, false).vks[p].tables.cvks.Keys;
  }

  lemma SetTablesTwice(w: World, p: NodeID, t: Tables, t': Tables)
    requires p in w.vks
    ensures SetTables(SetTables(w, p, t), p, t') == SetTables(w, p, t')
  {
  }

  /** A root that has greeted another root one level up joins it and hands its services up. */
  lemma VKJoin(w: World, c: NodeID, p: NodeID, sent: seq<(Service, Addr)>, version: Version) returns (w': World)
    requires Reachable(w, version) && c in w.vks && p in w.vks && c != p
    requires IsRoot(w.vks[c]) && IsRoot(w.vks[p]) && w.vks[p].height == w.vks[c].height + 1
    requires c in w.vks[p].hellos && c !in w.vks[p].tables.cvks
    requires HandsUp(w.vks[c].tables.all, sent)
    ensures Reachable(w', version) && w'.vks.Keys == w.vks.Keys
    ensures w'.vks[c] == JoinAccepted(w.vks[c], p, "parent")
    ensures IsRoot(w'.vks[p]) && w'.vks[p].closed == w.vks[p].closed
    ensures w'.vks[p].tables == Registered(AddCVK(w.vks[p].tables, c, "child"), c, sent)
  {
    ReachableIsSound(w, version);
    assert NodeOk(w, p, version) && NodeOk(w, c, version);
    var step := ChildJoins(c, p, "child", "parent", sent);
    var w1 := TakeJoin(w, c, p, version, "child", "parent");
    JoinAcceptedIff(w.vks[p], Request(false, version, c), JoinBody(true, w.vks[c].height, Some("child")));
    JoinShape(w, c, p, "child", "parent", version);
    JoinIsSound(w, c, p, "child", "parent", version);
    RegisterAllAtRoot(w1, p, c, sent, version);
    StepIsReachable(w, step, version);
    w' := Advance(w, step, version);
  }

  lemma SomeOrder(names: set<Service>) returns (order: seq<Service>)
    ensures Elements(order) == names
    decreases |names|
  {
    order := [];
    if names != {} {
      var s :| s in names;
      var rest := SomeOrder(names - {s});
      order := [s] + rest;
      assert names == {s} + Elements(rest);
    }
  }

  /** The record of a child expires at a root. */
  lemma Expire(w: World, p: NodeID, c: NodeID, version: Version) returns (w': World)
    requires Reachable(w, version) && p in w.vks && IsRoot(w.vks[p])
    ensures Reachable(w', version) && w' == SetTables(w, p, RemoveCVK(w.vks[p].tables, c))
  {
    ReachableIsSound(w, version);
    var t := w.vks[p].tables;
    assert NodeOk(w, p, version);
    var order := SomeOrder(t.all.Keys - RemoveCVK(t, c).all.Keys);
    StepIsReachable(w, Loses(p, CVKRemoved(c), order), version);
    w' := Advance(w, Loses(p, CVKRemoved(c), order), version);
  }

  /** A new leaf at a root: it greets, joins and registers one service. */
  lemma LeafProvides(w: World, v: NodeID, leaf: NodeID, s: Service, addr: Addr, version: Version) returns (w': World)
    requires Reachable(w, version) && v in w.vks && IsRoot(w.vks[v]) && leaf !in w.vks && s != ""
    requires leaf !in w.vks[v].tables.leaves
    ensures Reachable(w', version) && OnlyChanges(w, w', v)
    ensures HasGained(w.vks[v], w'.vks[v], leaf, s, addr)
  {
    var w2 := LeafSettles(w, v, leaf, version);
    var n' := w2.vks[v].(tables := AddService(w2.vks[v].tables, leaf, s, addr, 0, true));
    LeafGained(w.vks[v], w2.vks[v], n', leaf, s, addr);
    w' := LeafRegister(w2, v, leaf, s, addr, version);
    assert w'.vks[v] == n';
  }

  /** No vaultkeeper but v differs. */
  predicate OnlyChanges(w: World, w': World, v: NodeID) {
    v in w.vks && w'.vks.Keys == w.vks.Keys && forall x | x in w.vks && x != v :: w'.vks[x] == w.vks[x]
  }

  lemma LeafSettles(w: World, v: NodeID, leaf: NodeID, version: Version) returns (w': World)
    requires Reachable(w, version) && v in w.vks && leaf !in w.vks && leaf !in w.vks[v].tables.leaves
    ensures Reachable(w', version) && OnlyChanges(w, w', v)
    ensures leaf !in w.vks[v].tables.cvks && HasLeaf(w.vks[v], w'.vks[v], leaf)
  {
    LeafIsStranger(w, v, leaf, version);
    LeafSettled(w.vks[v], leaf, version);
    var w1 := Greet(w, v, leaf, version);
    w' := LeafJoin(w1, v, leaf, version);
    ChangedTwice(w, w1, w', v, Greeting(w.vks[v], leaf, version));
  }

  lemma ChangedTwice(w: World, w1: World, w2: World, v: NodeID, n: Node)
    requires v in w.vks && w1.vks == w.vks[v := n] && OnlyChanges(w1, w2, v)
    ensures OnlyChanges(w, w2, v)
  {
  }

  lemma LeafSettled(n: Node, leaf: NodeID, version: Version)
    requires version in n.supported && leaf !in n.tables.cvks && leaf !in n.tables.leaves
    ensures HasLeaf(n, WithLeaf(Greeting(n, leaf, version), leaf, version), leaf)
  {
    LeafJoined(Greeting(n, leaf, version), leaf, version);
  }

  lemma LeafIsStranger(w: World, v: NodeID, leaf: NodeID, version: Version)
    requires Reachable(w, version) && v in w.vks && leaf !in w.vks
    ensures version in w.vks[v].supported && leaf !in w.vks[v].tables.cvks
  {
    ReachableIsSound(w, version);
    assert NodeOk(w, v, version);
  }

  predicate HasLeaf(n: Node, n': Node, leaf: NodeID) {
    && n'.id == n.id && n'.height == n.height && n'.parentID == n.parentID && n'.closed == n.closed
    && n'.tables == AddLeaf(n.tables, leaf)
  }

  predicate HasGained(n: Node, n': Node, leaf: NodeID, s: Service, addr: Addr) {
    && n'.id == n.id && n'.height == n.height && n'.parentID == n.parentID && n'.closed == n.closed
    && n'.tables.leaves == n.tables.leaves[leaf := map[s := LeafService(addr, 0)]]
    && n'.tables.cvks == n.tables.cvks && n'.tables.all == Listing(n.tables.all, s, leaf, addr)
  }

  lemma LeafJoined(n: Node, leaf: NodeID, version: Version)
    requires leaf in n.hellos && version in n.supported && leaf !in n.tables.cvks && leaf !in n.tables.leaves
    ensures var n' := WithLeaf(n, leaf, version);
            n' == n.(tables := AddLeaf(n.tables, leaf), hellos := n.hellos - {leaf}, installed := n'.installed)
  {
  }

  lemma LeafGained(n: Node, n2: Node, n': Node, leaf: NodeID, s: Service, addr: Addr)
    requires leaf !in n.tables.leaves && leaf !in n.tables.cvks && HasLeaf(n, n2, leaf)
    requires n' == n2.(tables := AddService(n2.tables, leaf, s, addr, 0, true))
    ensures leaf in n2.tables.leaves
    ensures HasGained(n, n', leaf, s, addr)
  {
    assert n2.tables.leaves == n.tables.leaves[leaf := map[]];
  }

  // ---- an expired record hides a service ----------------------------------------------------------

  /** Vaultkeeper 1, one level above vaultkeeper 2, both new. */
  function ParentAndChild(version: Version): World {
    World(map[1 := Fresh(1, {version}, 1), 2 := Fresh(2, {version}, 0)], multiset{})
  }

  /** The parent's tables after the child has joined, handed up one service, and been forgotten. */
  lemma ForgottenTables(c: NodeID, s: Service, addr: Addr)
    ensures var t := RemoveCVK(Registered(AddCVK(EMPTY_TABLES, c, "child"), c, [(s, addr)]), c);
            t.leaves == map[] && t.cvks == map[]
  {
    var t := AddService(AddCVK(EMPTY_TABLES, c, "child"), c, s, addr, 0, false);
    assert Registered(t, c, [(s, addr)][1..]) == t;
  }

  lemma NobodyOffersNothing(t: Tables)
    requires Agrees(t) && t.leaves == map[] && t.cvks == map[]
    ensures t.all == map[]
  {
    forall s | s in t.all
      ensures false
    {
      var id := ListedHasProvider(t, s);
    }
  }

  /** The child provides a service; its parent has forgotten it and lists nothing. */
  ghost predicate Hidden(w: World) {
    && w.vks.Keys == {1, 2} && IsRoot(w.vks[1]) && w.vks[2].parentID == 1
    && LeafOffers(w, 2, 9, "dns") && w.vks[1].tables.all == map[]
    && w.vks[1].closed == {} && w.vks[2].closed == {}
  }

  /** The child still stands alone; the parent is new, or has at most been greeted by it. */
  predicate Apart(w: World) {
    && w.vks.Keys == {1, 2} && IsRoot(w.vks[1]) && IsRoot(w.vks[2])
    && w.vks[1].height == 1 && w.vks[2].height == 0 && w.vks[1].closed == {} && w.vks[2].closed == {}
    && w.vks[1].tables == EMPTY_TABLES
    && w.vks[2].tables.leaves == map[9 := map["dns" := LeafService("host9", 0)]]
    && w.vks[2].tables.all == map["dns" := map[9 := "host9"]]
  }

  lemma ProviderIsReached(version: Version) returns (w: World)
    ensures Reachable(w, version) && Apart(w)
  {
    var w0 := ParentAndChild(version);
    NewIsReachable(w0, version);
    w := LeafProvides(w0, 2, 9, "dns", "host9", version);
    assert Listing(map[], "dns", 9, "host9") == map["dns" := map[9 := "host9"]];
  }

  lemma ParentIsGreeted(w: World, version: Version) returns (w': World)
    requires Reachable(w, version) && Apart(w)
    ensures Reachable(w', version) && Apart(w') && 2 in w'.vks[1].hellos
  {
    w' := Greet(w, 1, 2, version);
  }

  /** The parent has the child and its service on record. */
  predicate Together(w: World) {
    && w.vks.Keys == {1, 2} && IsRoot(w.vks[1]) && w.vks[2].parentID == 1
    && w.vks[1].closed == {} && w.vks[2].closed == {} && LeafOffers(w, 2, 9, "dns")
    && w.vks[1].tables == Registered(AddCVK(EMPTY_TABLES, 2, "child"), 2, [("dns", "host9")])
  }

  lemma ServiceIsHandedUp(w: World, version: Version) returns (w': World)
    requires Reachable(w, version) && Apart(w) && 2 in w.vks[1].hellos
    ensures Reachable(w', version) && Together(w')
  {
    var all := w.vks[2].tables.all;
    assert all["dns"][9] == "host9" && "host9" in all["dns"].Values;
    assert ("dns", "host9") in [("dns", "host9")];
    w' := VKJoin(w, 2, 1, [("dns", "host9")], version);
  }

  lemma ServiceIsForgotten(w: World, version: Version) returns (w': World)
    requires Reachable(w, version) && Together(w)
    ensures Reachable(w', version) && Hidden(w')
  {
    w' := Expire(w, 1, 2, version);
    ForgottenTables(2, "dns", "host9");
    ReachableIsSound(w', version);
    assert NodeOk(w', 1, version);
    NobodyOffersNothing(w'.vks[1].tables);
  }

  lemma ClientIsNotTold(w: World, version: Version, from: NodeID, body: ListBody)
    requires Sound(w, version) && Hidden(w)
    requires from !in {1, 2} && body.token != "" && body.respAddr.Some? && body.hops >= 2
    ensures RouteList(w, 2, from, version, body).1 == AnsweredBy(1, {})
  {
    assert Up(w, 2, 0) == 2 && Up(w, 2, 1) == 1;
    SoundIsAddressed(w, version);
    var k := ListIsAnswered(w, 2, from, version, body);
    ClimbReachesRoot(w, 2, body.hops, k, 1);
    assert w.vks[1].tables.all.Keys == {};
  }

  /**
    From new vaultkeepers, after a record expires while the child keeps its parent, the root does not know
    a service of its tree, and a client that asks the very child that provides it is not told of it.
   */
  lemma ExpiryHidesService(version: Version, from: NodeID, body: ListBody) returns (w: World)
    requires from !in {1, 2} && body.token != "" && body.respAddr.Some? && body.hops >= 2
    ensures Reachable(w, version) && w.vks.Keys == {1, 2} && w.vks[2].parentID == 1 && IsRoot(w.vks[1])
    ensures LeafOffers(w, 2, 9, "dns") && RegisteredBelow(w, 1, "dns") && !KnowsItsTree(w, 1)
    ensures RouteList(w, 2, from, version, body).1 == AnsweredBy(1, {})
  {
    w := ProviderIsReached(version);
    w := ParentIsGreeted(w, version);
    w := ServiceIsHandedUp(w, version);
    w := ServiceIsForgotten(w, version);
    assert Up(w, 2, 0) == 2 && Up(w, 2, 1) == 1;
    assert Below(w, 2, 1);
    ReachableIsSound(w, version);
    ClientIsNotTold(w, version, from, body);
  }

  // ---- a stale address is handed out --------------------------------------------------------------

  /** The child's tables with both leaves, and once the one at host9 has withdrawn. */
  predicate Both(t: Tables) {
    && t.leaves == map[9 := map["dns" := LeafService("host9", 0)], 8 := map["dns" := LeafService("host8", 0)]]
    && t.all == map["dns" := map[9 := "host9", 8 := "host8"]]
  }

  predicate OnlyOther(t: Tables) {
    t.leaves == map[9 := map[], 8 := map["dns" := LeafService("host8", 0)]] && t.all == map["dns" := map[8 := "host8"]]
  }

  /** The child still stands alone with two leaves that provide the service. */
  predicate Doubled(w: World) {
    && w.vks.Keys == {1, 2} && IsRoot(w.vks[1]) && IsRoot(w.vks[2])
    && w.vks[1].height == 1 && w.vks[2].height == 0 && w.vks[1].tables == EMPTY_TABLES
    && Both(w.vks[2].tables)
  }

  lemma TwoProvidersAreReached(version: Version) returns (w: World)
    ensures Reachable(w, version) && Doubled(w) && 2 in w.vks[1].hellos
  {
    var w1 := ProviderIsReached(version);
    var w2 := LeafProvides(w1, 2, 8, "dns", "host8", version);
    assert Listing(w1.vks[2].tables.all, "dns", 8, "host8") == map["dns" := map[9 := "host9", 8 := "host8"]];
    w := Greet(w2, 1, 2, version);
  }

  /** Both leaves provide the service; the parent has the address handed up last. */
  predicate Outdated(w: World) {
    && w.vks.Keys == {1, 2} && IsRoot(w.vks[1]) && w.vks[2].parentID == 1
    && w.vks[1].tables.leaves == map[] && w.vks[1].tables.all == map["dns" := map[2 := "host9"]]
  }

  lemma HandedUpTwice(t: Tables)
    requires t == Registered(AddCVK(EMPTY_TABLES, 2, "child"), 2, [("dns", "host8"), ("dns", "host9")])
    ensures t.leaves == map[] && t.all == map["dns" := map[2 := "host9"]]
  {
    var sent := [("dns", "host8"), ("dns", "host9")];
    var t1 := AddService(AddCVK(EMPTY_TABLES, 2, "child"), 2, "dns", "host8", 0, false);
    var t2 := AddService(t1, 2, "dns", "host9", 0, false);
    assert sent[1..] == [("dns", "host9")] && sent[1..][1..] == [];
    assert Registered(t1, 2, sent[1..]) == t2;
    assert t == t2 && t1.leaves == map[] && t1.all == map["dns" := map[2 := "host8"]];
    assert map[2 := "host8"][2 := "host9"] == map[2 := "host9"];
  }

  lemma LastHandedUpIsHeld(w: World, version: Version) returns (w': World)
    requires Reachable(w, version) && Doubled(w) && 2 in w.vks[1].hellos
    ensures Reachable(w', version) && Outdated(w') && Both(w'.vks[2].tables)
  {
    var all := w.vks[2].tables.all;
    assert all["dns"][9] == "host9" && all["dns"][8] == "host8";
    assert "host9" in all["dns"].Values && "host8" in all["dns"].Values;
    var sent := [("dns", "host8"), ("dns", "host9")];
    assert sent[0] in sent && sent[1] in sent;
    w' := VKJoin(w, 2, 1, sent, version);
    HandedUpTwice(w'.vks[1].tables);
  }

  lemma LeafForgets(t: Tables, leaf: NodeID, s: Service)
    requires leaf in t.leaves && leaf !in t.cvks
    ensures Deregister(t, leaf, s).0.leaves == t.leaves[leaf := t.leaves[leaf] - {s}]
  {
    DeregisterIsUnlist(t, leaf, s);
  }

  lemma OneWithdraws(t: Tables, t': Tables)
    requires Both(t) && t'.leaves == t.leaves[9 := t.leaves[9] - {"dns"}]
    requires t'.all == t.all["dns" := t.all["dns"] - {9}]
    ensures OnlyOther(t')
  {
    assert map[9 := "host9", 8 := "host8"] - {9} == map[8 := "host8"];
    assert t.leaves[9] - {"dns"} == map[];
  }

  lemma WithdrawalIsNotPassedOn(w: World, version: Version) returns (w': World)
    requires Reachable(w, version) && Outdated(w) && Both(w.vks[2].tables)
    ensures Reachable(w', version) && Outdated(w') && OnlyOther(w'.vks[2].tables)
  {
    ReachableIsSound(w, version);
    ChildHasNoChildren(w, version);
    var t := w.vks[2].tables;
    assert 8 in t.all["dns"].Keys;
    LeafForgets(t, 9, "dns");
    OthersStay(t, 9, "dns");
    OneWithdraws(t, Deregister(t, 9, "dns").0);
    StepIsReachable(w, LeafDeregisters(2, 9, "dns"), version);
    w' := AfterDeregister(w, 2, 9, "dns");
    assert DeregisterUp(w, 2, 9, "dns", version) == w';
  }

  lemma ChildIsOnRecord(w: World, version: Version)
    requires Sound(w, version) && Outdated(w)
    ensures OnRecord(w, 2)
  {
    assert NodeOk(w, 1, version);
    var id := ListedHasProvider(w.vks[1].tables, "dns");
    OffersAreListed(w.vks[1].tables, id, "dns");
  }

  lemma ChildHasNoChildren(w: World, version: Version)
    requires Sound(w, version) && Outdated(w)
    ensures w.vks[2].tables.cvks == map[]
  {
    assert NodeOk(w, 2, version);
  }

  lemma OldAddressIsTold(w: World, version: Version, from: NodeID, body: GetBody)
    requires Sound(w, version) && Outdated(w) && from !in {1, 2} && body.token != "" && body.respAddr.Some?
    requires body.service == "dns"
    ensures RouteGet(w, 1, from, version, body, version) == AnsweredBy(1, Found({"host9"}))
  {
    SoundIsAddressed(w, version);
    var k := GetIsAnswered(w, 1, from, version, body, version);
    assert Up(w, 1, 0) == 1 && Knows(w, 1, "dns");
    assert map[2 := "host9"].Values == {"host9"};
  }

  lemma NobodyIsThere(w: World, u: NodeID, leaf: NodeID)
    requires Outdated(w) && OnlyOther(w.vks[2].tables) && u in w.vks
    ensures !LeafOffersAt(w, u, leaf, "dns", "host9")
  {
    assert LeafService("host8", 0).addr == "host8";
  }

  /**
    From new vaultkeepers, a client is given the address of a leaf that has withdrawn: its vaultkeeper, on
    record as it is, has another provider and so tells its parent nothing.
   */
  lemma StaleAddressIsHandedOut(version: Version, from: NodeID, body: GetBody) returns (w: World)
    requires from !in {1, 2} && body.token != "" && body.respAddr.Some? && body.service == "dns"
    ensures Reachable(w, version) && w.vks.Keys == {1, 2} && w.vks[2].parentID == 1 && IsRoot(w.vks[1])
    ensures RouteGet(w, 1, from, version, body, version) == AnsweredBy(1, Found({"host9"}))
    ensures forall u, leaf | u in w.vks :: !LeafOffersAt(w, u, leaf, "dns", "host9")
    ensures OnRecord(w, 2) && LeafOffersAt(w, 2, 8, "dns", "host8")
  {
    w := TwoProvidersAreReached(version);
    w := LastHandedUpIsHeld(w, version);
    w := WithdrawalIsNotPassedOn(w, version);
    ReachableIsSound(w, version);
    OldAddressIsTold(w, version, from, body);
    ChildIsOnRecord(w, version);
    forall u, leaf | u in w.vks
      ensures !LeafOffersAt(w, u, leaf, "dns", "host9")
    {
      NobodyIsThere(w, u, leaf);
    }
  }
}
