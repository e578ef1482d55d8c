/**
  The three tables a vaultkeeper keeps about its children, as values: the leaves, the child VKs,
  and the redundant index from service names to providers.
  Timers are represented by the callbacks they will run; a callback only remembers a child ID and,
  for a service timer, a service name.
 */
module ChildTables {
  import opened Basics

  datatype LeafService = LeafService(addr: Addr, stale: int)
  datatype ChildVK = ChildVK(services: map<Service, Addr>, addr: Addr)

  type Index = map<Service, map<NodeID, Addr>>

  /**
    Timers appear as the callbacks that are armed, or have fired and wait for the children lock:
    `prunes` those that drop a stale leaf service, `rechecks` those that drop a leaf still without services.
    `added` counts, per service, the times it was listed as totally new;
    `deregs` counts the DEREGISTERs attempted to the parent.
   */
  datatype Tables = Tables(
    leaves: map<NodeID, map<Service, LeafService>>,
    cvks: map<NodeID, ChildVK>,
    all: Index,
    prunes: multiset<(NodeID, Service)>,
    rechecks: multiset<NodeID>,
    added: multiset<Service>,
    deregs: multiset<Service>)

  const EMPTY_TABLES := Tables(map[], map[], map[], multiset{}, multiset{}, multiset{}, multiset{})

  /** What child `id` offers under `s` according to its own record. */
  function Offers(t: Tables, id: NodeID, s: Service): Option<Addr> {
    if id in t.leaves && s in t.leaves[id] then Some(t.leaves[id][s].addr)
    else if id in t.cvks && s in t.cvks[id].services then Some(t.cvks[id].services[s])
    else None
  }

  /** What the index lists for provider `id` of `s`. */
  function Listed(all: Index, s: Service, id: NodeID): Option<Addr> {
    if s in all && id in all[s] then Some(all[s][id]) else None
  }

  /** No ID is both leaf and child VK, and no listed service is without provider. */
  ghost predicate Tidy(t: Tables) {
    t.leaves.Keys !! t.cvks.Keys && forall s | s in t.all :: t.all[s] != map[]
  }

  /** The index is exactly the transpose of the children's own records. */
  ghost predicate Agrees(t: Tables) {
    Tidy(t) && forall s, id :: Listed(t.all, s, id) == Offers(t, id, s)
  }

  /** Every record is in the index; the index may list more. */
  ghost predicate Contained(t: Tables) {
    Tidy(t) && forall s, id | Offers(t, id, s).Some? :: Listed(t.all, s, id) == Offers(t, id, s)
  }

  /** Additions and DEREGISTERs balance against presence in the index. */
  ghost predicate Conserved(t: Tables) {
    forall s: Service :: t.added[s] == t.deregs[s] + if s in t.all then 1 else 0
  }

  /** Some callback will look at this leaf again. */
  ghost predicate Watched(t: Tables, id: NodeID) {
    id in t.rechecks || exists s :: (id, s) in t.prunes
  }

  /** Every leaf service has a prune callback, and every serviceless leaf is watched. */
  ghost predicate Covered(t: Tables) {
    && (forall id, s | id in t.leaves && s in t.leaves[id] :: (id, s) in t.prunes)
    && (forall id | id in t.leaves && t.leaves[id] == map[] :: Watched(t, id))
  }

  // ---- index primitives ------------------------------------------------------------------

  /** `all` with `id` listed as a provider of `s` at `addr`. */
  function Listing(all: Index, s: Service, id: NodeID, addr: Addr): Index {
    all[s := (if s in all then all[s] else map[])[id := addr]]
  }

  /** `all` with `id` no longer a provider of any of `names`; names left without providers go. */
  function Without(all: Index, names: set<Service>, id: NodeID): Index {
    map s | s in all && s !in SoleProvided(all, names, id) :: if s in names then all[s] - {id} else all[s]
  }

  /** Those of `names` that only `id` provides. */
  function SoleProvided(all: Index, names: set<Service>, id: NodeID): set<Service> {
    set s | s in names && s in all && all[s].Keys == {id}
  }

  function Unlist(t: Tables, names: set<Service>, id: NodeID): Tables {
    t.(all := Without(t.all, names, id), deregs := t.deregs + multiset(SoleProvided(t.all, names, id)))
  }

  // ---- operations -----------------------------------------------------------------------

  /** Installs a child VK record with no services, replacing any record the ID already had. */
  function AddCVK(t: Tables, id: NodeID, addr: Addr): Tables {
    if id in t.leaves then t else t.(cvks := t.cvks[id := ChildVK(map[], addr)])
  }

  function AddLeaf(t: Tables, id: NodeID): Tables {
    if id in t.cvks || id in t.leaves then t
    else t.(leaves := t.leaves[id := map[]], rechecks := t.rechecks + multiset{id})
  }

  /**
    Registers `s` for child `id`. When a leaf re-registers a service, the old timer is stopped;
    `stopped` says whether that was still in time.
   */
  function AddService(t: Tables, id: NodeID, s: Service, addr: Addr, stale: int, stopped: bool): Tables {
    if id !in t.leaves && id !in t.cvks then t
    else
      Record(t, id, s, addr, stale).(
        all := Listing(t.all, s, id, addr),
        added := if s in t.all then t.added else t.added + multiset{s},
        prunes := if id in t.leaves then Restart(t, id, s, stopped) else t.prunes)
  }

  /** The child's own record of the service. */
  function Record(t: Tables, id: NodeID, s: Service, addr: Addr, stale: int): Tables {
    if id in t.leaves then
      t.(leaves := t.leaves[id := t.leaves[id][s := LeafService(addr, stale)]])
    else if id in t.cvks then
      t.(cvks := t.cvks[id := t.cvks[id].(services := t.cvks[id].services[s := addr])])
    else t
  }

  /** A fresh stale timer for leaf `id`, in place of the one an earlier registration started. */
  function Restart(t: Tables, id: NodeID, s: Service, stopped: bool): multiset<(NodeID, Service)>
    requires id in t.leaves
  {
    (if s in t.leaves[id] && stopped then t.prunes - multiset{(id, s)} else t.prunes) + multiset{(id, s)}
  }

  function RemoveProvider(t: Tables, s: Service, id: NodeID): (r: (Tables, Option<Fault>)) {
    if s !in t.all then (t, Some(BadServiceName))
    else if id !in t.all[s] then (t, Some(UnknownChildId))
    else (Unlist(t, {s}, id), None)
  }

  /** `timer.Reset` on the leaf's recheck timer; `running` says whether it was still armed. */
  function Rearm(rechecks: multiset<NodeID>, id: NodeID, running: bool): multiset<NodeID> {
    if running && id in rechecks then rechecks else rechecks + multiset{id}
  }

  function DropLeafService(t: Tables, id: NodeID, s: Service): Tables {
    if id in t.leaves then t.(leaves := t.leaves[id := t.leaves[id] - {s}]) else t
  }

  /** `id` stops providing `s`, and a leaf's record loses it as well. */
  function Forget(t: Tables, id: NodeID, s: Service): Tables {
    DropLeafService(RemoveProvider(t, s, id).0, id, s)
  }

  /** The stale-service callback for (id, s) runs. */
  function FirePrune(t: Tables, id: NodeID, s: Service, running: bool): Tables {
    var t1 := Forget(t, id, s);
    t1.(prunes := t1.prunes - multiset{(id, s)},
        rechecks := if id in t1.leaves && t1.leaves[id] == map[] then Rearm(t1.rechecks, id, running)
                    else t1.rechecks)
  }

  /** The serviceless-leaf callback for id runs. */
  function FireRecheck(t: Tables, id: NodeID): Tables {
    var t1 := t.(rechecks := t.rechecks - multiset{id});
    if id in t.leaves && t.leaves[id] == map[] then t1.(leaves := t.leaves - {id}) else t1
  }

  /** LEAVE of, or expiry of, a child VK. */
  function RemoveCVK(t: Tables, id: NodeID): Tables {
    if id !in t.cvks then t
    else Unlist(t.(cvks := t.cvks - {id}), t.cvks[id].services.Keys, id)
  }

  /** The stale timers of leaf `id` that are stopped in time when it leaves. */
  function StoppedPrunes(t: Tables, id: NodeID, armed: set<Service>): multiset<(NodeID, Service)>
    requires id in t.leaves
  {
    multiset(set s | s in t.leaves[id] && s in armed :: (id, s))
  }

  /** Stopping the timers of leaf `id`, as far as they have not fired. */
  function StopTimers(t: Tables, id: NodeID, armed: set<Service>, recheck: bool): Tables
    requires id in t.leaves
  {
    t.(prunes := t.prunes - StoppedPrunes(t, id, armed),
       rechecks := if recheck then t.rechecks - multiset{id} else t.rechecks)
  }

  /** LEAVE of a leaf. `armed` and `recheck` say which of its timers could still be stopped. */
  function RemoveLeaf(t: Tables, id: NodeID, armed: set<Service>, recheck: bool): Tables {
    if id !in t.leaves then t
    else Unlist(StopTimers(t, id, armed, recheck).(leaves := t.leaves - {id}), t.leaves[id].Keys, id)
  }

  /** DEREGISTER: the child's own record loses `s` even when the index had no such provider. */
  function Deregister(t: Tables, id: NodeID, s: Service): (Tables, Option<Fault>) {
    var (t1, fault) := RemoveProvider(t, s, id);
    var t2 :=
      if id in t1.cvks then t1.(cvks := t1.cvks[id := t1.cvks[id].(services := t1.cvks[id].services - {s})])
      else DropLeafService(t1, id, s);
    (t2, fault)
  }

  // ---- bulk removal ---------------------------------------------------------------------

  /**
    Bulk removal, entry by entry: `id` provides none of `names` any more, every other entry is as it
    was, and the names that vanish are exactly those `id` was the sole provider of.
   */
  lemma WithoutIsExact(all: Index, names: set<Service>, id: NodeID)
    ensures forall s, c :: Listed(Without(all, names, id), s, c) ==
                           if c == id && s in names then None else Listed(all, s, c)
    ensures all.Keys - Without(all, names, id).Keys == SoleProvided(all, names, id)
    ensures (forall s | s in all :: all[s] != map[]) ==>
              forall s | s in Without(all, names, id) :: Without(all, names, id)[s] != map[]
  {
    var w := Without(all, names, id);
    forall s, c
      ensures Listed(w, s, c) == if c == id && s in names then None else Listed(all, s, c)
    {
    }
    forall s | s in w && all[s] != map[]
      ensures w[s] != map[]
    {
      var c :| c in all[s] && (s in names ==> c != id);
      assert c in w[s];
    }
  }

  /** Removing one more name is the same whatever was removed before: loop order does not matter. */
  lemma WithoutStep(all: Index, done: set<Service>, s: Service, id: NodeID)
    requires s !in done
    ensures Without(Without(all, done, id), {s}, id) == Without(all, done + {s}, id)
    ensures SoleProvided(all, done + {s}, id)
         == SoleProvided(all, done, id) + SoleProvided(Without(all, done, id), {s}, id)
    ensures s !in SoleProvided(all, done, id)
  {
  }

  // ---- index agreement ------------------------------------------------------------------

  /**
    Installing a child VK keeps the index in agreement exactly when it does not replace a record that
    still had services: the index would keep listing what the fresh record no longer offers.
   */
  lemma AddCVKAgreesIff(t: Tables, id: NodeID, addr: Addr)
    requires Agrees(t)
    ensures Agrees(AddCVK(t, id, addr)) <==> id in t.leaves || id !in t.cvks || t.cvks[id].services == map[]
  {
    var t' := AddCVK(t, id, addr);
    if id !in t.leaves && id in t.cvks && t.cvks[id].services != map[] {
      var s :| s in t.cvks[id].services;
      assert Listed(t.all, s, id) == Offers(t, id, s);
      assert Listed(t'.all, s, id) != Offers(t', id, s);
    } else {
      forall s, c
        ensures Listed(t'.all, s, c) == Offers(t', c, s)
      {
        assert Listed(t.all, s, c) == Offers(t, c, s);
      }
    }
  }

  lemma AddLeafAgrees(t: Tables, id: NodeID)
    requires Agrees(t)
    ensures Agrees(AddLeaf(t, id))
  {
    forall s, c
      ensures Listed(AddLeaf(t, id).all, s, c) == Offers(AddLeaf(t, id), c, s)
    {
      assert Listed(t.all, s, c) == Offers(t, c, s);
    }
  }

  /** Registration changes one entry of the records and the same entry of the index. */
  lemma AddServiceAgrees(t: Tables, id: NodeID, s: Service, addr: Addr, stale: int, stopped: bool)
    requires Agrees(t)
    ensures var t' := AddService(t, id, s, addr, stale, stopped);
            && Agrees(t')
            && forall c, x :: Offers(t', c, x) ==
                 if c == id && x == s && (id in t.leaves || id in t.cvks) then Some(addr) else Offers(t, c, x)
  {
    AddServiceIsExact(t, id, s, addr, stale, stopped);
    var t' := AddService(t, id, s, addr, stale, stopped);
    forall x, c
      ensures Listed(t'.all, x, c) == Offers(t', c, x)
    {
      assert Listed(t.all, x, c) == Offers(t, c, x);
    }
  }

  lemma AddServiceIsExact(t: Tables, id: NodeID, s: Service, addr: Addr, stale: int, stopped: bool)
    requires Tidy(t)
    ensures var t', known := AddService(t, id, s, addr, stale, stopped), id in t.leaves || id in t.cvks;
            && Tidy(t')
            && (forall c, x :: Offers(t', c, x) == if c == id && x == s && known then Some(addr) else Offers(t, c, x))
            && (forall x, c :: Listed(t'.all, x, c) ==
                  if c == id && x == s && known then Some(addr) else Listed(t.all, x, c))
  {
    if id in t.leaves || id in t.cvks {
      RecordIsExact(t, id, s, addr, stale);
      ListingIsExact(t.all, s, id, addr);
      var t' := AddService(t, id, s, addr, stale, stopped);
      SameRecordsOffer(Record(t, id, s, addr, stale), t');
    }
  }

  lemma SameRecordsOffer(t: Tables, t': Tables)
    requires t.leaves == t'.leaves && t.cvks == t'.cvks
    ensures forall c, s :: Offers(t, c, s) == Offers(t', c, s)
  {
  }

  lemma RecordIsExact(t: Tables, id: NodeID, s: Service, addr: Addr, stale: int)
    requires id in t.leaves || id in t.cvks
    requires t.leaves.Keys !! t.cvks.Keys
    ensures forall c, x :: Offers(Record(t, id, s, addr, stale), c, x) ==
                           if c == id && x == s then Some(addr) else Offers(t, c, x)
  {
  }

  lemma ListingIsExact(all: Index, s: Service, id: NodeID, addr: Addr)
    ensures forall x, c :: Listed(Listing(all, s, id, addr), x, c) ==
                           if c == id && x == s then Some(addr) else Listed(all, x, c)
    ensures (forall x | x in all :: all[x] != map[]) ==>
              forall x | x in Listing(all, s, id, addr) :: Listing(all, s, id, addr)[x] != map[]
  {
    assert id in Listing(all, s, id, addr)[s];
  }

  /** Agreement is about the three tables only. */
  lemma SameTablesAgree(t: Tables, t': Tables)
    requires t.leaves == t'.leaves && t.cvks == t'.cvks && t.all == t'.all
    ensures Agrees(t) <==> Agrees(t')
    ensures forall c, s :: Offers(t, c, s) == Offers(t', c, s)
  {
    assert forall c, s :: Offers(t, c, s) == Offers(t', c, s);
  }

  /** When records lose `names` of `id` and so does the index, they still agree. */
  lemma UnlistAgrees(t: Tables, t1: Tables, names: set<Service>, id: NodeID)
    requires Agrees(t) && t1.all == t.all && t1.leaves.Keys !! t1.cvks.Keys
    requires forall c, s :: Offers(t1, c, s) == if c == id && s in names then None else Offers(t, c, s)
    ensures Agrees(Unlist(t1, names, id))
  {
    WithoutIsExact(t.all, names, id);
    var t2 := Unlist(t1, names, id);
    forall s, c
      ensures Listed(t2.all, s, c) == Offers(t2, c, s)
    {
      assert Listed(t.all, s, c) == Offers(t, c, s);
      assert Offers(t2, c, s) == Offers(t1, c, s);
    }
  }

  /** Removing no entry at all: the case of an index error. */
  lemma RemoveProviderIsUnlist(t: Tables, s: Service, id: NodeID)
    ensures RemoveProvider(t, s, id).0 == Unlist(t, {s}, id)
    ensures RemoveProvider(t, s, id).1 == None <==> Listed(t.all, s, id).Some?
  {
    if RemoveProvider(t, s, id).1 != None {
      assert SoleProvided(t.all, {s}, id) == {} by {
        assert s in t.all ==> id !in t.all[s].Keys;
      }
      assert s in t.all ==> t.all[s] - {id} == t.all[s];
      assert Without(t.all, {s}, id) == t.all;
    }
  }

  lemma DeregisterAgrees(t: Tables, id: NodeID, s: Service)
    requires Agrees(t)
    ensures Agrees(Deregister(t, id, s).0)
    ensures Deregister(t, id, s).1 == None <==> Offers(t, id, s).Some?
    ensures forall c, x :: Offers(Deregister(t, id, s).0, c, x) ==
                           if c == id && x == s then None else Offers(t, c, x)
  {
    DeregisterIsUnlist(t, id, s);
    RemoveProviderIsUnlist(t, s, id);
    assert Listed(t.all, s, id) == Offers(t, id, s);
    StrippedOffers(t, id, s);
    UnlistAgrees(t, Stripped(t, id, s), {s}, id);
    UnlistOffers(Stripped(t, id, s), {s}, id);
  }

  /** The child's own record without `s`. */
  function Stripped(t: Tables, id: NodeID, s: Service): Tables {
    if id in t.cvks then t.(cvks := t.cvks[id := t.cvks[id].(services := t.cvks[id].services - {s})])
    else DropLeafService(t, id, s)
  }

  lemma StrippedOffers(t: Tables, id: NodeID, s: Service)
    requires Tidy(t)
    ensures var t1 := Stripped(t, id, s);
            && Tidy(t1) && t1.all == t.all
            && forall c, x :: Offers(t1, c, x) == if c == id && x == s then None else Offers(t, c, x)
  {
  }

  lemma DeregisterIsUnlist(t: Tables, id: NodeID, s: Service)
    ensures Deregister(t, id, s).0 == Unlist(Stripped(t, id, s), {s}, id)
  {
    RemoveProviderIsUnlist(t, s, id);
  }

  /**
    A stale-service callback keeps agreement exactly when its ID is not a child VK offering that
    service: the callback never looks at the child VK records.
   */
  lemma FirePruneAgreesIff(t: Tables, id: NodeID, s: Service, running: bool)
    requires Agrees(t)
    ensures Agrees(FirePrune(t, id, s, running)) <==> !(id in t.cvks && s in t.cvks[id].services)
  {
    FirePruneTables(t, id, s, running);
    SameTablesAgree(Forget(t, id, s), FirePrune(t, id, s, running));
    ForgetAgreesIff(t, id, s);
  }

  lemma ForgetAgreesIff(t: Tables, id: NodeID, s: Service)
    requires Agrees(t)
    ensures Agrees(Forget(t, id, s)) <==> !(id in t.cvks && s in t.cvks[id].services)
  {
    var t1 := DropLeafService(t, id, s);
    ForgetIsUnlist(t, id, s);
    if id in t.cvks && s in t.cvks[id].services {
      var t' := Unlist(t1, {s}, id);
      WithoutIsExact(t.all, {s}, id);
      assert Listed(t'.all, s, id) == None != Offers(t', id, s);
    } else {
      UnlistAgrees(t, t1, {s}, id);
    }
  }

  lemma ForgetIsUnlist(t: Tables, id: NodeID, s: Service)
    ensures Forget(t, id, s) == Unlist(DropLeafService(t, id, s), {s}, id)
  {
    RemoveProviderIsUnlist(t, s, id);
  }

  /** Apart from timers, a stale-service callback does what `Forget` does. */
  lemma FirePruneTables(t: Tables, id: NodeID, s: Service, running: bool)
    ensures var t' := FirePrune(t, id, s, running);
            && t' == Forget(t, id, s).(prunes := t.prunes - multiset{(id, s)}, rechecks := t'.rechecks)
            && t'.rechecks == if id in t.leaves && t.leaves[id] - {s} == map[] then Rearm(t.rechecks, id, running)
                              else t.rechecks
  {
    ForgetLeaves(t, id, s);
  }

  lemma ForgetLeaves(t: Tables, id: NodeID, s: Service)
    ensures var t1 := Forget(t, id, s);
            && t1.leaves == (if id in t.leaves then t.leaves[id := t.leaves[id] - {s}] else t.leaves)
            && t1.cvks == t.cvks && t1.prunes == t.prunes && t1.rechecks == t.rechecks
  {
  }

  lemma FireRecheckAgrees(t: Tables, id: NodeID)
    requires Agrees(t)
    ensures Agrees(FireRecheck(t, id))
    ensures forall c, s :: Offers(FireRecheck(t, id), c, s) == Offers(t, c, s)
    ensures FireRecheck(t, id).leaves.Keys ==
            t.leaves.Keys - if id in t.leaves && t.leaves[id] == map[] then {id} else {}
  {
    var t' := FireRecheck(t, id);
    forall s, c
      ensures Listed(t'.all, s, c) == Offers(t', c, s) == Offers(t, c, s)
    {
      assert Listed(t.all, s, c) == Offers(t, c, s);
    }
  }

  /** A departing child VK takes exactly its own record and entries with it. */
  lemma RemoveCVKAgrees(t: Tables, id: NodeID)
    requires Agrees(t)
    ensures var t' := RemoveCVK(t, id);
            && Agrees(t')
            && t'.cvks == t.cvks - {id} && t'.leaves == t.leaves
            && t'.prunes == t.prunes && t'.rechecks == t.rechecks
            && (forall c, s :: Listed(t'.all, s, c) ==
                  if c == id && id in t.cvks then None else Listed(t.all, s, c))
            && t.all.Keys - t'.all.Keys == set s | s in t.all && t.all[s].Keys == {id} && id in t.cvks
  {
    if id in t.cvks {
      var names := t.cvks[id].services.Keys;
      UnlistAgrees(t, t.(cvks := t.cvks - {id}), names, id);
      WithoutIsExact(t.all, names, id);
      forall s
        ensures s in t.all && id in t.all[s] <==> s in names
      {
        assert Listed(t.all, s, id) == Offers(t, id, s);
      }
      SoleProvidersOffer(t, names, id);
    }
  }

  lemma SoleProvidersOffer(t: Tables, names: set<Service>, id: NodeID)
    requires forall s :: s in t.all && id in t.all[s] <==> s in names
    ensures SoleProvided(t.all, names, id) == set s | s in t.all && t.all[s].Keys == {id}
  {
    forall s | s in t.all && t.all[s].Keys == {id}
      ensures s in names
    {
      assert id in t.all[s].Keys;
    }
  }

  /** A departing leaf takes exactly its own record and entries with it, whichever of its timers could be stopped. */
  lemma RemoveLeafAgrees(t: Tables, id: NodeID, armed: set<Service>, recheck: bool)
    requires Agrees(t)
    ensures var t' := RemoveLeaf(t, id, armed, recheck);
            && Agrees(t')
            && t'.leaves == t.leaves - {id} && t'.cvks == t.cvks
            && (forall c, s | c != id :: t'.prunes[(c, s)] == t.prunes[(c, s)])
            && (forall c | c != id :: t'.rechecks[c] == t.rechecks[c])
            && (forall c, s :: Listed(t'.all, s, c) ==
                  if c == id && id in t.leaves then None else Listed(t.all, s, c))
            && t.all.Keys - t'.all.Keys == set s | s in t.all && t.all[s].Keys == {id} && id in t.leaves
  {
    if id in t.leaves {
      var names := t.leaves[id].Keys;
      UnlistAgrees(t, StopTimers(t, id, armed, recheck).(leaves := t.leaves - {id}), names, id);
      WithoutIsExact(t.all, names, id);
      forall s
        ensures s in t.all && id in t.all[s] <==> s in names
      {
        assert Listed(t.all, s, id) == Offers(t, id, s);
      }
      SoleProvidersOffer(t, names, id);
    }
  }

  lemma UnlistOffers(t: Tables, names: set<Service>, id: NodeID)
    ensures forall c, s :: Offers(Unlist(t, names, id), c, s) == Offers(t, c, s)
  {
  }

  // ---- conservation of DEREGISTERs ----------------------------------------------------------

  lemma UnlistConserves(t: Tables, names: set<Service>, id: NodeID)
    requires Conserved(t)
    ensures Conserved(Unlist(t, names, id))
  {
    var t' := Unlist(t, names, id);
    forall s: Service
      ensures t'.added[s] == t'.deregs[s] + if s in t'.all then 1 else 0
    {
      assert t.added[s] == t.deregs[s] + if s in t.all then 1 else 0;
    }
  }

  lemma AddServiceConserves(t: Tables, id: NodeID, s: Service, addr: Addr, stale: int, stopped: bool)
    requires Conserved(t)
    ensures Conserved(AddService(t, id, s, addr, stale, stopped))
  {
    var t' := AddService(t, id, s, addr, stale, stopped);
    forall x: Service
      ensures t'.added[x] == t'.deregs[x] + if x in t'.all then 1 else 0
    {
      assert t.added[x] == t.deregs[x] + if x in t.all then 1 else 0;
    }
  }

  lemma FirePruneConserves(t: Tables, id: NodeID, s: Service, running: bool)
    requires Conserved(t)
    ensures Conserved(FirePrune(t, id, s, running))
  {
    FirePruneTables(t, id, s, running);
    ForgetIsUnlist(t, id, s);
    UnlistConserves(t, {s}, id);
  }

  // ---- timer coverage -------------------------------------------------------------------------

  lemma AddServiceCovers(t: Tables, id: NodeID, s: Service, addr: Addr, stale: int, stopped: bool)
    requires Covered(t)
    ensures Covered(AddService(t, id, s, addr, stale, stopped))
  {
    var t' := AddService(t, id, s, addr, stale, stopped);
    forall c | c in t'.leaves && t'.leaves[c] == map[]
      ensures Watched(t', c)
    {
      assert id in t.leaves ==> s in t'.leaves[id];
      StillWatched(t, t', c);
    }
  }

  lemma StillWatched(t: Tables, t': Tables, id: NodeID)
    requires Watched(t, id)
    requires id in t.rechecks ==> id in t'.rechecks
    requires forall s | (id, s) in t.prunes :: (id, s) in t'.prunes
    ensures Watched(t', id)
  {
    if id !in t.rechecks {
      var s :| (id, s) in t.prunes;
      assert (id, s) in t'.prunes;
    }
  }

  /**
    DEREGISTER leaves the timer of the dropped service running, and that is what keeps a leaf that
    just lost its last service watched.
   */
  lemma DeregisterCovers(t: Tables, id: NodeID, s: Service)
    requires Covered(t)
    ensures Covered(Deregister(t, id, s).0)
  {
    DeregisterLeaves(t, id, s);
    ShrunkCovers(t, Deregister(t, id, s).0);
  }

  lemma DeregisterLeaves(t: Tables, id: NodeID, s: Service)
    ensures var t' := Deregister(t, id, s).0;
            && t'.prunes == t.prunes && t'.rechecks == t.rechecks
            && t'.leaves.Keys == t.leaves.Keys && t'.cvks.Keys == t.cvks.Keys
            && forall c | c in t.leaves :: t'.leaves[c].Keys <= t.leaves[c].Keys
  {
  }

  /** Dropping leaf services without touching timers keeps every leaf covered. */
  lemma ShrunkCovers(t: Tables, t': Tables)
    requires Covered(t)
    requires t'.prunes == t.prunes && t'.rechecks == t.rechecks
    requires t'.leaves.Keys == t.leaves.Keys
    requires forall c | c in t.leaves :: t'.leaves[c].Keys <= t.leaves[c].Keys
    ensures Covered(t')
  {
    forall c, x | c in t'.leaves && x in t'.leaves[c]
      ensures (c, x) in t'.prunes
    {
      assert x in t.leaves[c];
    }
    forall c | c in t'.leaves && t'.leaves[c] == map[]
      ensures Watched(t', c)
    {
      if t.leaves[c] != map[] {
        var x :| x in t.leaves[c];
        assert (c, x) in t'.prunes;
      } else {
        StillWatched(t, t', c);
      }
    }
  }

  lemma FirePruneCovers(t: Tables, id: NodeID, s: Service, running: bool)
    requires Covered(t)
    ensures Covered(FirePrune(t, id, s, running))
  {
    FirePruneTables(t, id, s, running);
    ForgetLeaves(t, id, s);
    PrunedCovers(t, FirePrune(t, id, s, running), id, s);
  }

  /** Dropping one leaf service along with its timer is covered when a leaf left without services is rechecked. */
  lemma PrunedCovers(t: Tables, t': Tables, id: NodeID, s: Service)
    requires Covered(t)
    requires t'.leaves == if id in t.leaves then t.leaves[id := t.leaves[id] - {s}] else t.leaves
    requires t'.prunes == t.prunes - multiset{(id, s)}
    requires forall c | c in t.rechecks :: c in t'.rechecks
    requires id in t.leaves && t.leaves[id] - {s} == map[] ==> id in t'.rechecks
    ensures Covered(t')
  {
    forall c | c in t'.leaves && t'.leaves[c] == map[]
      ensures Watched(t', c)
    {
      if c != id {
        StillWatched(t, t', c);
      }
    }
  }

  lemma FireRecheckCovers(t: Tables, id: NodeID)
    requires Covered(t)
    ensures Covered(FireRecheck(t, id))
  {
    var t' := FireRecheck(t, id);
    forall c | c in t'.leaves && t'.leaves[c] == map[]
      ensures Watched(t', c)
    {
      StillWatched(t, t', c);
    }
  }

  lemma AddLeafCovers(t: Tables, id: NodeID)
    requires Covered(t)
    ensures Covered(AddLeaf(t, id))
  {
    var t' := AddLeaf(t, id);
    forall c | c in t'.leaves && t'.leaves[c] == map[]
      ensures Watched(t', c)
    {
      if c in t.leaves {
        StillWatched(t, t', c);
      }
    }
  }

  lemma RemoveLeafCovers(t: Tables, id: NodeID, armed: set<Service>, recheck: bool)
    requires Covered(t)
    ensures Covered(RemoveLeaf(t, id, armed, recheck))
  {
    var t' := RemoveLeaf(t, id, armed, recheck);
    forall c | c in t'.leaves && t'.leaves[c] == map[]
      ensures Watched(t', c)
    {
      StillWatched(t, t', c);
    }
  }

  // ---- the operations together ----------------------------------------------------------------

  /** One critical section on the child tables. */
  datatype Change =
    | Untouched
    | CVKAdded(id: NodeID, addr: Addr)
    | LeafAdded(id: NodeID)
    | ServiceAdded(id: NodeID, service: Service, addr: Addr, stale: int, flag: bool)
    | Deregistered(id: NodeID, service: Service)
    | CVKRemoved(id: NodeID)
    | LeafRemoved(id: NodeID, armed: set<Service>, flag: bool)
    | ServicePruned(id: NodeID, service: Service, flag: bool)
    | LeafRechecked(id: NodeID)

  function Changed(t: Tables, c: Change): Tables {
    match c
    case Untouched => t
    case CVKAdded(id, addr) => AddCVK(t, id, addr)
    case LeafAdded(id) => AddLeaf(t, id)
    case ServiceAdded(id, s, addr, stale, flag) => AddService(t, id, s, addr, stale, flag)
    case Deregistered(id, s) => Deregister(t, id, s).0
    case CVKRemoved(id) => RemoveCVK(t, id)
    case LeafRemoved(id, armed, flag) => RemoveLeaf(t, id, armed, flag)
    case ServicePruned(id, s, flag) => FirePrune(t, id, s, flag)
    case LeafRechecked(id) => FireRecheck(t, id)
  }

  /** The one obligation each operation has for the index to stay in agreement; most have none. */
  predicate Harmless(t: Tables, c: Change) {
    match c
    case CVKAdded(id, _) => id in t.leaves || id !in t.cvks || t.cvks[id].services == map[]
    case ServicePruned(id, s, _) => !(id in t.cvks && s in t.cvks[id].services)
    case _ => true
  }

  /** An operation keeps the index in agreement exactly when it is harmless. */
  lemma ChangeAgreesIff(t: Tables, c: Change)
    requires Agrees(t)
    ensures Agrees(Changed(t, c)) <==> Harmless(t, c)
  {
    match c
    case Untouched =>
    case CVKAdded(id, addr) => AddCVKAgreesIff(t, id, addr);
    case LeafAdded(id) => AddLeafAgrees(t, id);
    case ServiceAdded(id, s, addr, stale, flag) => AddServiceAgrees(t, id, s, addr, stale, flag);
    case Deregistered(id, s) => DeregisterAgrees(t, id, s);
    case CVKRemoved(id) => RemoveCVKAgrees(t, id);
    case LeafRemoved(id, armed, flag) => RemoveLeafAgrees(t, id, armed, flag);
    case ServicePruned(id, s, flag) => FirePruneAgreesIff(t, id, s, flag);
    case LeafRechecked(id) => FireRecheckAgrees(t, id);
  }

  lemma ChangeConserves(t: Tables, c: Change)
    requires Conserved(t)
    ensures Conserved(Changed(t, c))
  {
    match c
    case ServiceAdded(id, s, addr, stale, flag) => AddServiceConserves(t, id, s, addr, stale, flag);
    case Deregistered(id, s) => DeregisterConserves(t, id, s);
    case CVKRemoved(id) => RemovalConserves(t, id, {}, false);
    case LeafRemoved(id, armed, flag) => RemovalConserves(t, id, armed, flag);
    case ServicePruned(id, s, flag) => FirePruneConserves(t, id, s, flag);
    case _ =>
  }

  lemma DeregisterConserves(t: Tables, id: NodeID, s: Service)
    requires Conserved(t)
    ensures Conserved(Deregister(t, id, s).0)
  {
    RemoveProviderIsUnlist(t, s, id);
    UnlistConserves(t, {s}, id);
  }

  lemma RemovalConserves(t: Tables, id: NodeID, armed: set<Service>, recheck: bool)
    requires Conserved(t)
    ensures Conserved(RemoveCVK(t, id)) && Conserved(RemoveLeaf(t, id, armed, recheck))
  {
    if id in t.cvks {
      UnlistConserves(t, t.cvks[id].services.Keys, id);
    }
    if id in t.leaves {
      UnlistConserves(t, t.leaves[id].Keys, id);
    }
  }

  lemma ChangeCovers(t: Tables, c: Change)
    requires Covered(t)
    ensures Covered(Changed(t, c))
  {
    match c
    case Untouched =>
    case CVKAdded(id, addr) => ShrunkCovers(t, AddCVK(t, id, addr));
    case LeafAdded(id) => AddLeafCovers(t, id);
    case ServiceAdded(id, s, addr, stale, flag) => AddServiceCovers(t, id, s, addr, stale, flag);
    case Deregistered(id, s) => DeregisterCovers(t, id, s);
    case CVKRemoved(id) => ShrunkCovers(t, RemoveCVK(t, id));
    case LeafRemoved(id, armed, flag) => RemoveLeafCovers(t, id, armed, flag);
    case ServicePruned(id, s, flag) => FirePruneCovers(t, id, s, flag);
    case LeafRechecked(id) => FireRecheckCovers(t, id);
  }

  // ---- what holds without any obligation ----------------------------------------------------------

  lemma UnlistTidy(t: Tables, names: set<Service>, id: NodeID)
    requires Tidy(t)
    ensures Tidy(Unlist(t, names, id))
  {
    WithoutIsExact(t.all, names, id);
  }

  /** Every operation keeps leaves and child VKs apart and leaves no service without provider. */
  lemma ChangeTidies(t: Tables, c: Change)
    requires Tidy(t)
    ensures Tidy(Changed(t, c))
  {
    match c
    case ServiceAdded(id, s, addr, stale, flag) => AddServiceIsExact(t, id, s, addr, stale, flag);
    case Deregistered(id, s) => DeregisterTidy(t, id, s);
    case CVKRemoved(id) => RemovalTidy(t, id, {}, false);
    case LeafRemoved(id, armed, flag) => RemovalTidy(t, id, armed, flag);
    case ServicePruned(id, s, flag) => FirePruneTidy(t, id, s, flag);
    case _ =>
  }

  lemma DeregisterTidy(t: Tables, id: NodeID, s: Service)
    requires Tidy(t)
    ensures Tidy(Deregister(t, id, s).0)
  {
    RemoveProviderIsUnlist(t, s, id);
    UnlistTidy(t, {s}, id);
  }

  lemma RemovalTidy(t: Tables, id: NodeID, armed: set<Service>, recheck: bool)
    requires Tidy(t)
    ensures Tidy(RemoveCVK(t, id)) && Tidy(RemoveLeaf(t, id, armed, recheck))
  {
    if id in t.cvks {
      UnlistTidy(t.(cvks := t.cvks - {id}), t.cvks[id].services.Keys, id);
    }
    if id in t.leaves {
      UnlistTidy(StopTimers(t, id, armed, recheck).(leaves := t.leaves - {id}), t.leaves[id].Keys, id);
    }
  }

  lemma FirePruneTidy(t: Tables, id: NodeID, s: Service, running: bool)
    requires Tidy(t)
    ensures Tidy(FirePrune(t, id, s, running))
  {
    FirePruneTables(t, id, s, running);
    ForgetIsUnlist(t, id, s);
    UnlistTidy(DropLeafService(t, id, s), {s}, id);
  }

  /** When records lose `names` of `id` and so does the index, the records are still contained. */
  lemma UnlistContains(t: Tables, t1: Tables, names: set<Service>, id: NodeID)
    requires Contained(t) && t1.all == t.all && Tidy(t1)
    requires forall c, s :: Offers(t1, c, s) == if c == id && s in names then None else Offers(t, c, s)
    ensures Contained(Unlist(t1, names, id))
  {
    WithoutIsExact(t.all, names, id);
    UnlistTidy(t1, names, id);
    UnlistOffers(t1, names, id);
  }

  lemma AddServiceContains(t: Tables, id: NodeID, s: Service, addr: Addr, stale: int, stopped: bool)
    requires Contained(t)
    ensures Contained(AddService(t, id, s, addr, stale, stopped))
  {
    AddServiceIsExact(t, id, s, addr, stale, stopped);
  }

  lemma DeregisterContains(t: Tables, id: NodeID, s: Service)
    requires Contained(t)
    ensures Contained(Deregister(t, id, s).0)
  {
    DeregisterIsUnlist(t, id, s);
    StrippedOffers(t, id, s);
    UnlistContains(t, Stripped(t, id, s), {s}, id);
  }

  lemma FirePruneContainsIff(t: Tables, id: NodeID, s: Service, running: bool)
    requires Contained(t)
    ensures Contained(FirePrune(t, id, s, running)) <==> !(id in t.cvks && s in t.cvks[id].services)
  {
    FirePruneTables(t, id, s, running);
    SameTablesContain(Forget(t, id, s), FirePrune(t, id, s, running));
    ForgetContainsIff(t, id, s);
  }

  lemma SameTablesContain(t: Tables, t': Tables)
    requires t.leaves == t'.leaves && t.cvks == t'.cvks && t.all == t'.all
    ensures Contained(t) <==> Contained(t')
  {
    SameTablesAgree(t, t');
  }

  lemma ForgetContainsIff(t: Tables, id: NodeID, s: Service)
    requires Contained(t)
    ensures Contained(Forget(t, id, s)) <==> !(id in t.cvks && s in t.cvks[id].services)
  {
    var t1 := DropLeafService(t, id, s);
    ForgetIsUnlist(t, id, s);
    if id in t.cvks && s in t.cvks[id].services {
      var t' := Unlist(t1, {s}, id);
      WithoutIsExact(t.all, {s}, id);
      assert Listed(t'.all, s, id) == None != Offers(t', id, s);
    } else {
      UnlistContains(t, t1, {s}, id);
    }
  }

  lemma RemovalContains(t: Tables, id: NodeID, armed: set<Service>, recheck: bool)
    requires Contained(t)
    ensures Contained(RemoveCVK(t, id)) && Contained(RemoveLeaf(t, id, armed, recheck))
  {
    if id in t.cvks {
      UnlistContains(t, t.(cvks := t.cvks - {id}), t.cvks[id].services.Keys, id);
    }
    if id in t.leaves {
      UnlistContains(t, StopTimers(t, id, armed, recheck).(leaves := t.leaves - {id}), t.leaves[id].Keys, id);
    }
  }

  /** One operation alone can leave a record outside the index: a stale-service callback for what is now a child VK. */
  lemma ChangeContainsIff(t: Tables, c: Change)
    requires Contained(t)
    ensures Contained(Changed(t, c)) <==>
            !(c.ServicePruned? && c.id in t.cvks && c.service in t.cvks[c.id].services)
  {
    match c
    case Untouched =>
    case CVKAdded(id, addr) => AddingContains(t, id, addr);
    case LeafAdded(id) => AddingContains(t, id, "");
    case ServiceAdded(id, s, addr, stale, flag) => AddServiceContains(t, id, s, addr, stale, flag);
    case Deregistered(id, s) => DeregisterContains(t, id, s);
    case CVKRemoved(id) => RemovalContains(t, id, {}, false);
    case LeafRemoved(id, armed, flag) => RemovalContains(t, id, armed, flag);
    case ServicePruned(id, s, flag) => FirePruneContainsIff(t, id, s, flag);
    case LeafRechecked(id) => RecheckContains(t, id);
  }

  /** A fresh record contains nothing, whatever it replaces. */
  lemma AddingContains(t: Tables, id: NodeID, addr: Addr)
    requires Contained(t)
    ensures Contained(AddCVK(t, id, addr)) && Contained(AddLeaf(t, id))
  {
    assert forall x, s :: Offers(AddCVK(t, id, addr), x, s) in {None, Offers(t, x, s)};
    assert forall x, s :: Offers(AddLeaf(t, id), x, s) == Offers(t, x, s);
  }

  lemma RecheckContains(t: Tables, id: NodeID)
    requires Contained(t)
    ensures Contained(FireRecheck(t, id))
  {
    assert forall x, s :: Offers(FireRecheck(t, id), x, s) == Offers(t, x, s);
  }

  // ---- one timer per registration -----------------------------------------------------------------

  /** Every service on a leaf's record has exactly one stale timer, and nothing else has any. */
  ghost predicate Timed(t: Tables) {
    forall id, s :: t.prunes[(id, s)] == if HasService(t, id, s) then 1 else 0
  }

  predicate HasService(t: Tables, id: NodeID, s: Service) {
    id in t.leaves && s in t.leaves[id]
  }

  /** Every timer the operation makes obsolete is stopped, and in time; DEREGISTER never stops any. */
  predicate StopsItsTimers(t: Tables, c: Change) {
    match c
    case ServiceAdded(id, s, _, _, stopped) => HasService(t, id, s) ==> stopped
    case Deregistered(id, s) => !HasService(t, id, s) || id in t.cvks
    case LeafRemoved(id, armed, _) => id in t.leaves ==> t.leaves[id].Keys <= armed
    case _ => true
  }

  lemma AddServiceTimedIff(t: Tables, id: NodeID, s: Service, addr: Addr, stale: int, stopped: bool)
    requires Timed(t)
    ensures Timed(AddService(t, id, s, addr, stale, stopped)) <==> (HasService(t, id, s) ==> stopped)
  {
    var t' := AddService(t, id, s, addr, stale, stopped);
    assert t.prunes[(id, s)] == if HasService(t, id, s) then 1 else 0;
    forall c, x | c != id || x != s
      ensures t'.prunes[(c, x)] == if HasService(t', c, x) then 1 else 0
    {
      assert t.prunes[(c, x)] == if HasService(t, c, x) then 1 else 0;
    }
  }

  lemma DeregisterTimedIff(t: Tables, id: NodeID, s: Service)
    requires Timed(t)
    ensures Timed(Deregister(t, id, s).0) <==> !HasService(t, id, s) || id in t.cvks
  {
    DeregisterIsUnlist(t, id, s);
    var t' := Deregister(t, id, s).0;
    forall c, x
      ensures t'.prunes[(c, x)] == t.prunes[(c, x)] == if HasService(t, c, x) then 1 else 0
      ensures HasService(t', c, x) <==> HasService(t, c, x) && (c == id && x == s ==> id in t.cvks)
    {
    }
  }

  lemma RemoveLeafTimedIff(t: Tables, id: NodeID, armed: set<Service>, recheck: bool)
    requires Timed(t)
    ensures Timed(RemoveLeaf(t, id, armed, recheck)) <==> (id in t.leaves ==> t.leaves[id].Keys <= armed)
  {
    var t' := RemoveLeaf(t, id, armed, recheck);
    if id in t.leaves {
      forall c, x
        ensures t'.prunes[(c, x)] == if HasService(t, c, x) && !(c == id && x in armed) then 1 else 0
        ensures HasService(t', c, x) <==> HasService(t, c, x) && c != id
      {
        assert t.prunes[(c, x)] == if HasService(t, c, x) then 1 else 0;
        StoppedOnce(t, id, armed, c, x);
      }
      if !(t.leaves[id].Keys <= armed) {
        var x :| x in t.leaves[id].Keys && x !in armed;
        assert t'.prunes[(id, x)] == 1 && !HasService(t', id, x);
      }
    }
  }

  lemma StoppedOnce(t: Tables, id: NodeID, armed: set<Service>, c: NodeID, x: Service)
    requires id in t.leaves
    ensures StoppedPrunes(t, id, armed)[(c, x)] == if c == id && HasService(t, c, x) && x in armed then 1 else 0
  {
  }

  lemma FirePruneTimed(t: Tables, id: NodeID, s: Service, running: bool)
    requires Timed(t)
    ensures Timed(FirePrune(t, id, s, running))
  {
    FirePruneTables(t, id, s, running);
    ForgetLeaves(t, id, s);
    var t' := FirePrune(t, id, s, running);
    forall c, x
      ensures t'.prunes[(c, x)] == if HasService(t', c, x) then 1 else 0
    {
      assert t.prunes[(c, x)] == if HasService(t, c, x) then 1 else 0;
    }
  }

  lemma SameTimers(t: Tables, t': Tables)
    requires Timed(t) && t'.prunes == t.prunes
    requires forall c, x :: HasService(t', c, x) <==> HasService(t, c, x)
    ensures Timed(t')
  {
    forall c, x
      ensures t'.prunes[(c, x)] == if HasService(t', c, x) then 1 else 0
    {
      assert t.prunes[(c, x)] == if HasService(t, c, x) then 1 else 0;
    }
  }

  /** An operation keeps one timer per registration exactly when it stops the timers it should. */
  lemma ChangeKeepsTimedIff(t: Tables, c: Change)
    requires Timed(t)
    ensures Timed(Changed(t, c)) <==> StopsItsTimers(t, c)
  {
    match c
    case ServiceAdded(id, s, addr, stale, flag) => AddServiceTimedIff(t, id, s, addr, stale, flag);
    case Deregistered(id, s) => DeregisterTimedIff(t, id, s);
    case LeafRemoved(id, armed, flag) => RemoveLeafTimedIff(t, id, armed, flag);
    case ServicePruned(id, s, flag) => FirePruneTimed(t, id, s, flag);
    case Untouched =>
    case CVKAdded(id, addr) => SameTimers(t, AddCVK(t, id, addr));
    case LeafAdded(id) => SameTimers(t, AddLeaf(t, id));
    case CVKRemoved(id) => SameTimers(t, RemoveCVK(t, id));
    case LeafRechecked(id) => SameTimers(t, FireRecheck(t, id));
  }

  // ---- kinds of nodes ---------------------------------------------------------------------------

  /** `vks` are the IDs of vaultkeepers: leaves, and the timers leaves started, carry other IDs. */
  ghost predicate KindsKept(t: Tables, vks: set<NodeID>) {
    && t.cvks.Keys <= vks
    && t.leaves.Keys !! vks
    && (forall id, s | (id, s) in t.prunes :: id !in vks)
  }

  predicate RightKind(c: Change, vks: set<NodeID>) {
    match c
    case CVKAdded(id, _) => id in vks
    case LeafAdded(id) => id !in vks
    case _ => true
  }

  lemma ChangeKeepsKinds(t: Tables, c: Change, vks: set<NodeID>)
    requires KindsKept(t, vks) && RightKind(c, vks)
    ensures KindsKept(Changed(t, c), vks)
  {
    match c
    case ServiceAdded(id, s, addr, stale, flag) => AddServiceKinds(t, id, s, addr, stale, flag, vks);
    case Deregistered(id, s) => DeregisterKinds(t, id, s, vks);
    case LeafRemoved(id, armed, flag) => RemoveLeafKinds(t, id, armed, flag, vks);
    case ServicePruned(id, s, flag) => FirePruneKinds(t, id, s, flag, vks);
    case _ =>
  }

  lemma AddServiceKinds(t: Tables, id: NodeID, s: Service, addr: Addr, stale: int, stopped: bool, vks: set<NodeID>)
    requires KindsKept(t, vks)
    ensures KindsKept(AddService(t, id, s, addr, stale, stopped), vks)
  {
  }

  lemma DeregisterKinds(t: Tables, id: NodeID, s: Service, vks: set<NodeID>)
    requires KindsKept(t, vks)
    ensures KindsKept(Deregister(t, id, s).0, vks)
  {
    DeregisterLeaves(t, id, s);
  }

  lemma RemoveLeafKinds(t: Tables, id: NodeID, armed: set<Service>, recheck: bool, vks: set<NodeID>)
    requires KindsKept(t, vks)
    ensures KindsKept(RemoveLeaf(t, id, armed, recheck), vks)
  {
  }

  lemma FirePruneKinds(t: Tables, id: NodeID, s: Service, running: bool, vks: set<NodeID>)
    requires KindsKept(t, vks)
    ensures KindsKept(FirePrune(t, id, s, running), vks)
  {
    FirePruneTables(t, id, s, running);
    ForgetLeaves(t, id, s);
  }

  // ---- no serviceless leaf stays for ever -----------------------------------------------------

  datatype Firing = Stale(id: NodeID, service: Service, running: bool) | Serviceless(id: NodeID)

  predicate Due(t: Tables, f: Firing) {
    match f
    case Stale(id, s, _) => (id, s) in t.prunes
    case Serviceless(id) => id in t.rechecks
  }

  function Fire(t: Tables, f: Firing): Tables {
    match f
    case Stale(id, s, running) => FirePrune(t, id, s, running)
    case Serviceless(id) => FireRecheck(t, id)
  }

  ghost predicate AllDue(t: Tables, fs: seq<Firing>)
    decreases |fs|
  {
    fs == [] || (Due(t, fs[0]) && AllDue(Fire(t, fs[0]), fs[1..]))
  }

  function FireAll(t: Tables, fs: seq<Firing>): Tables
    decreases |fs|
  {
    if fs == [] then t else FireAll(Fire(t, fs[0]), fs[1..])
  }

  /** A stale-service callback may rearm one recheck, so it weighs two. */
  function Weight(t: Tables): nat {
    2 * |t.prunes| + |t.rechecks|
  }

  lemma FireIsLighter(t: Tables, f: Firing)
    requires Due(t, f)
    ensures Weight(Fire(t, f)) < Weight(t)
  {
    if f.Stale? {
      FirePruneTables(t, f.id, f.service, f.running);
      assert t.prunes == (t.prunes - multiset{(f.id, f.service)}) + multiset{(f.id, f.service)};
    } else {
      assert t.rechecks == (t.rechecks - multiset{f.id}) + multiset{f.id};
    }
  }

  lemma LeafWeighs(t: Tables, id: NodeID)
    requires Covered(t) && id in t.leaves
    ensures Weight(t) > 0
  {
    if t.leaves[id] != map[] {
      var s :| s in t.leaves[id];
      assert (id, s) in t.prunes;
    }
  }

  /**
    When no more requests arrive, only finitely many callbacks can run, in whatever order they do,
    and once none is left to run no leaf is left either.
   */
  lemma {:induction false} LeavesDrain(t: Tables, fs: seq<Firing>)
    requires Covered(t) && AllDue(t, fs)
    ensures var t' := FireAll(t, fs);
            && Covered(t')
            && |fs| + Weight(t') <= Weight(t)
            && (Weight(t') == 0 ==> t'.leaves == map[])
    decreases |fs|
  {
    if fs == [] {
      if t.leaves != map[] {
        var id :| id in t.leaves;
        LeafWeighs(t, id);
      }
    } else {
      var f := fs[0];
      FireIsLighter(t, f);
      if f.Stale? {
        FirePruneCovers(t, f.id, f.service, f.running);
      } else {
        FireRecheckCovers(t, f.id);
      }
      LeavesDrain(Fire(t, f), fs[1..]);
    }
  }
}
