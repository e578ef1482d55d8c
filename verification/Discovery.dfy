/**
  What the vault is for: in every vault of Omnipotence, a client can find any service from any vaultkeeper,
  and list them all, given enough hops to reach the root.
 */
module Discovery {
  import opened Basics
  import opened Versions
  import ChildTables
  import opened VaultNode
  import opened Vault
  import opened Omnipotence
  import opened Routing
  import opened WholeTree

  /** d links above v there is a root. */
  predicate RootAbove(w: World, v: NodeID, d: nat) {
    var r := Up(w, v, d);
    r in w.vks && IsRoot(w.vks[r])
  }

  /** There always is one, no further up than heights allow. */
  lemma {:induction false} EveryoneHasARoot(w: World, v: NodeID) returns (d: nat)
    requires Rising(w) && v in w.vks
    ensures RootAbove(w, v, d) && d <= MAX_UINT16 - w.vks[v].height
    decreases MAX_UINT16 - w.vks[v].height
  {
    d := 0;
    if !IsRoot(w.vks[v]) {
      assert LinkRises(w, v);
      var e := EveryoneHasARoot(w, w.vks[v].parentID);
      d := e + 1;
      UpShift(w, v, e);
    }
  }

  lemma SoundIsAddressed(w: World, version: Version)
    requires Sound(w, version)
    ensures Addressed(w)
    ensures forall u | u in w.vks :: version in w.vks[u].supported && ChildTables.Agrees(w.vks[u].tables)
  {
    assert forall u | u in w.vks :: NodeOk(w, u, version);
  }

  /** A walk with hops enough to reach a root that knows the service stops where it is known. */
  lemma WalkFindsRoot(w: World, v: NodeID, s: Service, hops: uint32, k: nat, d: nat)
    requires Named(w) && GetStopsAt(w, v, s, hops, k)
    requires RootAbove(w, v, d) && Knows(w, Up(w, v, d), s) && hops > d
    ensures k <= d && Knows(w, Up(w, v, k), s)
  {
    if k < d {
      ChainIsInside(w, v, d, k + 1);
    }
  }

  /**
    A service the root lists, by RootOmnipotence any that a leaf on record below it has registered, is
    found from every vaultkeeper of its tree: the answer comes from a vaultkeeper on the way up and carries
    an address listed there.
   */
  lemma ListedServiceIsFound(w0: World, ss: seq<VaultStep>, w: World, version: Version, v: NodeID, d: nat,
                             from: NodeID, body: GetBody)
    returns (k: nat, addrs: set<Addr>)
    requires Newborn(w0, version) && Reaches(w0, ss, w, version)
    requires v in w.vks && from !in w.vks && RootAbove(w, v, d)
    requires body.token != "" && body.respAddr.Some? && body.hops > d
    requires Knows(w, Up(w, v, d), body.service)
    ensures k <= d && addrs != {}
    ensures RouteGet(w, v, from, version, body, version) == AnsweredBy(Up(w, v, k), Found(addrs))
  {
    NewbornIsSound(w0, version);
    ReachedIsInSync(w0, ss, w, version);
    SoundIsAddressed(w, version);
    k := GetIsAnswered(w, v, from, version, body, version);
    WalkFindsRoot(w, v, body.service, body.hops, k, d);
    addrs := w.vks[Up(w, v, k)].tables.all[body.service].Values;
  }

  /** Unless a record expires, that is every service registered anywhere in the tree. */
  lemma EveryServiceIsFound(w0: World, ss: seq<VaultStep>, w: World, version: Version, v: NodeID, d: nat,
                            from: NodeID, body: GetBody)
    returns (k: nat, addrs: set<Addr>)
    requires Newborn(w0, version) && Reaches(w0, ss, w, version) && forall s | s in ss :: !IsExpiry(s)
    requires v in w.vks && from !in w.vks && RootAbove(w, v, d)
    requires body.token != "" && body.respAddr.Some? && body.hops > d
    requires RegisteredBelow(w, Up(w, v, d), body.service)
    ensures k <= d && addrs != {}
    ensures RouteGet(w, v, from, version, body, version) == AnsweredBy(Up(w, v, k), Found(addrs))
  {
    EveryoneKnowsItsTree(w0, ss, w, version, Up(w, v, d));
    k, addrs := ListedServiceIsFound(w0, ss, w, version, v, d, from, body);
  }

  /** A climb with hops enough to reach a root ends there. */
  lemma ClimbReachesRoot(w: World, v: NodeID, hops: uint32, k: nat, d: nat)
    requires Named(w) && ListStopsAt(w, v, hops, k) && RootAbove(w, v, d) && hops > d
    ensures k == d
  {
    assert Up(w, v, d + 1) == 0;
    if k < d {
      ChainIsInside(w, v, d, k + 1);
    }
  }

  /**
    A LIST with a fresh token and enough hops is answered by the root with the services on record below it,
    and these are all the services of the tree exactly when the root knows what is off record.
   */
  lemma ListNamesTheWholeVaultIff(w0: World, ss: seq<VaultStep>, w: World, version: Version, v: NodeID, d: nat,
                                  from: NodeID, body: ListBody)
    returns (names: set<Service>)
    requires Newborn(w0, version) && Reaches(w0, ss, w, version)
    requires v in w.vks && from !in w.vks && RootAbove(w, v, d)
    requires body.token != "" && body.respAddr.Some? && body.hops > d
    requires forall u | u in w.vks :: body.token !in w.vks[u].closed
    ensures Sound(w, version)
    ensures RouteList(w, v, from, version, body).1 == AnsweredBy(Up(w, v, d), names)
    ensures forall s :: s in names <==> RegisteredUnder(w, Up(w, v, d), s)
    ensures (forall s :: s in names <==> RegisteredBelow(w, Up(w, v, d), s)) <==> OffRecordIsKnown(w, Up(w, v, d))
  {
    var r := Up(w, v, d);
    NewbornIsSound(w0, version);
    ReachedIsInSync(w0, ss, w, version);
    SoundIsAddressed(w, version);
    var k := ListIsAnswered(w, v, from, version, body);
    ClimbReachesRoot(w, v, body.hops, k, d);
    names := w.vks[r].tables.all.Keys;
    forall s
      ensures s in names <==> RegisteredUnder(w, r, s)
    {
      ListsExactlyWhatIsBelow(w, version, r, s);
    }
    KnowsItsTreeIff(w, version, r);
    assert KnowsItsTree(w, r) <==> forall s :: s in names <==> RegisteredBelow(w, r, s);
  }

  /** Unless a record expires, the answer holds exactly the services registered anywhere in the tree. */
  lemma ListNamesTheWholeVault(w0: World, ss: seq<VaultStep>, w: World, version: Version, v: NodeID, d: nat,
                               from: NodeID, body: ListBody)
    returns (names: set<Service>)
    requires Newborn(w0, version) && Reaches(w0, ss, w, version) && forall s | s in ss :: !IsExpiry(s)
    requires v in w.vks && from !in w.vks && RootAbove(w, v, d)
    requires body.token != "" && body.respAddr.Some? && body.hops > d
    requires forall u | u in w.vks :: body.token !in w.vks[u].closed
    ensures RouteList(w, v, from, version, body).1 == AnsweredBy(Up(w, v, d), names)
    ensures forall s :: s in names <==> RegisteredBelow(w, Up(w, v, d), s)
  {
    names := ListNamesTheWholeVaultIff(w0, ss, w, version, v, d, from, body);
    EveryoneKnowsItsTree(w0, ss, w, version, Up(w, v, d));
    NewbornIsSound(w0, version);
    ReachedIsInSync(w0, ss, w, version);
    KnowsItsTreeIff(w, version, Up(w, v, d));
  }
}
