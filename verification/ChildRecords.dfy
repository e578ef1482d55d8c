/**
  What an operation on the child tables does to one child's record, timers and counts, and that it does
  nothing to any other child.
 */
module ChildRecords {
  import opened Basics
  import opened ChildTables

  // ---- other children -----------------------------------------------------------------------------

  /** Every child but `id` has the record and the timers it had. */
  ghost predicate OthersKeepRecords(t: Tables, t': Tables, id: NodeID) {
    && (forall x | x != id :: x in t'.leaves <==> x in t.leaves)
    && (forall x | x != id && x in t.leaves :: t'.leaves[x] == t.leaves[x])
    && (forall x | x != id :: x in t'.cvks <==> x in t.cvks)
    && (forall x | x != id && x in t.cvks :: t'.cvks[x] == t.cvks[x])
    && (forall x, s | x != id :: t'.prunes[(x, s)] == t.prunes[(x, s)])
    && (forall x | x != id :: t'.rechecks[x] == t.rechecks[x])
  }

  /** Every child but `id` has the entries in the index it had. */
  ghost predicate OthersKeepEntries(all: Index, all': Index, id: NodeID) {
    forall x, s | x != id :: Listed(all', s, x) == Listed(all, s, x)
  }

  ghost predicate OnlyConcerns(t: Tables, t': Tables, id: NodeID) {
    OthersKeepRecords(t, t', id) && OthersKeepEntries(t.all, t'.all, id)
  }

  /** No operation touches any child but the one it is about. */
  lemma OthersUntouched(t: Tables, c: Change)
    requires !c.Untouched?
    ensures OnlyConcerns(t, Changed(t, c), c.id)
  {
    match c
    case CVKAdded(id, addr) => NewVKConcerns(t, id, addr);
    case LeafAdded(id) => NewLeafConcerns(t, id);
    case ServiceAdded(id, s, addr, stale, flag) => RegistrationConcerns(t, id, s, addr, stale, flag);
    case Deregistered(id, s) => DeregistrationConcerns(t, id, s);
    case CVKRemoved(id) => VKDepartureConcerns(t, id);
    case LeafRemoved(id, armed, flag) => LeafDepartureConcerns(t, id, armed, flag);
    case ServicePruned(id, s, flag) => StalenessConcerns(t, id, s, flag);
    case LeafRechecked(id) => RecheckConcerns(t, id);
  }

  lemma NewVKConcerns(t: Tables, id: NodeID, addr: Addr)
    ensures OnlyConcerns(t, AddCVK(t, id, addr), id)
  {
  }

  lemma NewLeafConcerns(t: Tables, id: NodeID)
    ensures OnlyConcerns(t, AddLeaf(t, id), id)
  {
  }

  lemma RecheckConcerns(t: Tables, id: NodeID)
    ensures OnlyConcerns(t, FireRecheck(t, id), id)
  {
  }

  lemma RegistrationConcerns(t: Tables, id: NodeID, s: Service, addr: Addr, stale: int, stopped: bool)
    ensures OnlyConcerns(t, AddService(t, id, s, addr, stale, stopped), id)
  {
    ListingConcerns(t.all, s, id, addr);
    RecordingConcerns(t, id, s, addr, stale, stopped);
  }

  lemma RecordingConcerns(t: Tables, id: NodeID, s: Service, addr: Addr, stale: int, stopped: bool)
    ensures OthersKeepRecords(t, AddService(t, id, s, addr, stale, stopped), id)
  {
    if id in t.leaves {
      RestartConcerns(t, id, s, stopped);
    }
  }

  lemma RestartConcerns(t: Tables, id: NodeID, s: Service, stopped: bool)
    requires id in t.leaves
    ensures forall x, y | x != id :: Restart(t, id, s, stopped)[(x, y)] == t.prunes[(x, y)]
  {
  }

  lemma ListingConcerns(all: Index, s: Service, id: NodeID, addr: Addr)
    ensures OthersKeepEntries(all, Listing(all, s, id, addr), id)
  {
    ListingIsExact(all, s, id, addr);
  }

  lemma UnlistingConcerns(all: Index, names: set<Service>, id: NodeID)
    ensures OthersKeepEntries(all, Without(all, names, id), id)
  {
    WithoutIsExact(all, names, id);
  }

  lemma DeregistrationConcerns(t: Tables, id: NodeID, s: Service)
    ensures OnlyConcerns(t, Deregister(t, id, s).0, id)
  {
    DeregisterIsUnlist(t, id, s);
    UnlistingConcerns(t.all, {s}, id);
  }

  lemma VKDepartureConcerns(t: Tables, id: NodeID)
    ensures OnlyConcerns(t, RemoveCVK(t, id), id)
  {
    if id in t.cvks {
      UnlistingConcerns(t.all, t.cvks[id].services.Keys, id);
    }
  }

  lemma LeafDepartureConcerns(t: Tables, id: NodeID, armed: set<Service>, recheck: bool)
    ensures OnlyConcerns(t, RemoveLeaf(t, id, armed, recheck), id)
  {
    if id in t.leaves {
      UnlistingConcerns(t.all, t.leaves[id].Keys, id);
    }
  }

  lemma StalenessConcerns(t: Tables, id: NodeID, s: Service, running: bool)
    ensures OnlyConcerns(t, FirePrune(t, id, s, running), id)
  {
    FirePruneTables(t, id, s, running);
    ForgottenConcerns(t, Forget(t, id, s), id, s);
    TimersConcern(t, Forget(t, id, s), FirePrune(t, id, s, running), id);
  }

  lemma ForgottenConcerns(t: Tables, t': Tables, id: NodeID, s: Service)
    requires t' == Forget(t, id, s)
    ensures OnlyConcerns(t, t', id)
  {
    ForgetIsUnlist(t, id, s);
    ForgetLeaves(t, id, s);
    UnlistingConcerns(t.all, {s}, id);
  }

  lemma TimersConcern(t: Tables, t1: Tables, t': Tables, id: NodeID)
    requires OnlyConcerns(t, t1, id) && t' == t1.(prunes := t'.prunes, rechecks := t'.rechecks)
    requires forall x, s | x != id :: t'.prunes[(x, s)] == t.prunes[(x, s)]
    requires forall x | x != id :: t'.rechecks[x] == t.rechecks[x]
    ensures OnlyConcerns(t, t', id)
  {
  }

  // ---- the child itself ---------------------------------------------------------------------------

  /** A new child VK has no services and the address it gave; a leaf's ID is refused. */
  lemma NewVKIsRecorded(t: Tables, id: NodeID, addr: Addr)
    ensures var t' := AddCVK(t, id, addr);
            if id in t.leaves then t' == t
            else && t' == t.(cvks := t'.cvks)
                 && id in t'.cvks && t'.cvks[id].services == map[] && t'.cvks[id].addr == addr
  {
  }

  /** A new leaf has no services and one timer that will look at it again. */
  lemma NewLeafIsRecorded(t: Tables, id: NodeID)
    ensures var t' := AddLeaf(t, id);
            if id in t.leaves || id in t.cvks then t' == t
            else && t' == t.(leaves := t'.leaves, rechecks := t'.rechecks)
                 && id in t'.leaves && t'.leaves[id] == map[] && t'.rechecks[id] == t.rechecks[id] + 1
  {
  }

  /**
    A leaf's record takes the address and the stale time of a registration, and its timer is replaced, or
    gets company if it was too late to stop; a child VK's record takes the address.
   */
  lemma RegistrationIsRecorded(t: Tables, id: NodeID, s: Service, addr: Addr, stale: int, stopped: bool)
    ensures var t' := AddService(t, id, s, addr, stale, stopped);
            && (id !in t.leaves && id !in t.cvks ==> t' == t)
            && t'.rechecks == t.rechecks
            && (id in t.leaves ==>
                  && t'.cvks == t.cvks && id in t'.leaves && s in t'.leaves[id]
                  && t'.leaves[id][s].addr == addr && t'.leaves[id][s].stale == stale
                  && t'.leaves[id] - {s} == t.leaves[id] - {s}
                  && (forall x | x != s :: t'.prunes[(id, x)] == t.prunes[(id, x)])
                  && t'.prunes[(id, s)] == t.prunes[(id, s)] +
                       if s in t.leaves[id] && stopped && (id, s) in t.prunes then 0 else 1)
            && (id !in t.leaves && id in t.cvks ==>
                  && t'.leaves == t.leaves && t'.prunes == t.prunes && id in t'.cvks
                  && t'.cvks[id].addr == t.cvks[id].addr && s in t'.cvks[id].services
                  && t'.cvks[id].services[s] == addr
                  && t'.cvks[id].services - {s} == t.cvks[id].services - {s})
  {
  }

  /** DEREGISTER takes the one service off the child's record, keeps the child, and stops no timer. */
  lemma DeregistrationIsRecorded(t: Tables, id: NodeID, s: Service)
    ensures var t' := Deregister(t, id, s).0;
            && t'.leaves.Keys == t.leaves.Keys && t'.cvks.Keys == t.cvks.Keys
            && t'.prunes == t.prunes && t'.rechecks == t.rechecks
            && (id in t.cvks ==>
                  && t'.leaves == t.leaves && t'.cvks[id].addr == t.cvks[id].addr
                  && t'.cvks[id].services == t.cvks[id].services - {s})
            && (id !in t.cvks && id in t.leaves ==> t'.leaves[id] == t.leaves[id] - {s})
    ensures Listed(Deregister(t, id, s).0.all, s, id) == None
    ensures forall x | x != s :: Listed(Deregister(t, id, s).0.all, x, id) == Listed(t.all, x, id)
    ensures Deregister(t, id, s).1 ==
            if s !in t.all then Some(BadServiceName)
            else if Listed(t.all, s, id) == None then Some(UnknownChildId)
            else None
  {
    DeregisterIsUnlist(t, id, s);
    WithoutIsExact(t.all, {s}, id);
  }

  /**
    A stale-service callback takes the one service off a leaf's record and uses itself up; a leaf left
    without services is sure to be looked at again.
   */
  lemma StalenessIsRecorded(t: Tables, id: NodeID, s: Service, running: bool)
    ensures var t' := FirePrune(t, id, s, running);
            && t'.cvks == t.cvks && t'.leaves.Keys == t.leaves.Keys
            && (id in t.leaves ==> t'.leaves[id] == t.leaves[id] - {s})
            && t'.prunes == t.prunes - multiset{(id, s)}
            && t'.rechecks[id] == t.rechecks[id] +
                 if id in t.leaves && (forall x | x in t.leaves[id] :: x == s) && !(running && id in t.rechecks)
                 then 1 else 0
    ensures Listed(FirePrune(t, id, s, running).all, s, id) == None
    ensures forall x | x != s :: Listed(FirePrune(t, id, s, running).all, x, id) == Listed(t.all, x, id)
  {
    FirePruneTables(t, id, s, running);
    ForgetIsUnlist(t, id, s);
    ForgetLeaves(t, id, s);
    WithoutIsExact(t.all, {s}, id);
    if id in t.leaves {
      EmptiedIff(t.leaves[id], s);
    }
  }

  lemma EmptiedIff(services: map<Service, LeafService>, s: Service)
    ensures services - {s} == map[] <==> forall x | x in services :: x == s
  {
    if services - {s} == map[] {
      forall x | x in services
        ensures x == s
      {
        assert x !in services - {s};
      }
    }
  }

  /** A serviceless-leaf callback changes nothing else when it drops its leaf. */
  lemma RecheckIsRecorded(t: Tables, id: NodeID)
    ensures var t' := FireRecheck(t, id);
            && t' == t.(leaves := t'.leaves, rechecks := t.rechecks - multiset{id})
            && t'.leaves == if id in t.leaves && t.leaves[id].Keys == {} then t.leaves - {id} else t.leaves
  {
    assert id in t.leaves ==> (t.leaves[id] == map[] <==> t.leaves[id].Keys == {});
  }

  /** A departing child VK takes its record, and no leaf and no timer. */
  lemma VKDepartureIsRecorded(t: Tables, id: NodeID)
    ensures var t' := RemoveCVK(t, id);
            && t'.cvks == t.cvks - {id} && t'.leaves == t.leaves
            && t'.prunes == t.prunes && t'.rechecks == t.rechecks
  {
    if id !in t.cvks {
      assert t.cvks - {id} == t.cvks;
    }
  }

  /** A departing leaf takes its record and those of its own timers that could be stopped. */
  lemma LeafDepartureIsRecorded(t: Tables, id: NodeID, armed: set<Service>, recheck: bool)
    ensures var t' := RemoveLeaf(t, id, armed, recheck);
            && t'.leaves == t.leaves - {id} && t'.cvks == t.cvks
            && (forall s :: t'.prunes[(id, s)] ==
                  if id in t.leaves && s in t.leaves[id] && s in armed && (id, s) in t.prunes
                  then t.prunes[(id, s)] - 1 else t.prunes[(id, s)])
            && t'.rechecks[id] ==
                 if id in t.leaves && recheck && id in t.rechecks then t.rechecks[id] - 1 else t.rechecks[id]
  {
    if id !in t.leaves {
      assert t.leaves - {id} == t.leaves;
    }
  }

  // ---- counts -------------------------------------------------------------------------------------

  /** s counts as added exactly when its name appears, and as deregistered exactly when it goes. */
  predicate Counts(t: Tables, t': Tables, s: Service) {
    && t'.added[s] == t.added[s] + (if s !in t.all && s in t'.all then 1 else 0)
    && t'.deregs[s] == t.deregs[s] + (if s in t.all && s !in t'.all then 1 else 0)
  }

  lemma CountsFollowNames(t: Tables, c: Change, s: Service)
    ensures Counts(t, Changed(t, c), s)
  {
    match c
    case Untouched =>
    case CVKAdded(id, addr) => NewVKIsRecorded(t, id, addr);
    case LeafAdded(id) => NewLeafIsRecorded(t, id);
    case ServiceAdded(id, x, addr, stale, flag) => RegistrationCounts(t, id, x, addr, stale, flag, s);
    case Deregistered(id, x) => DeregistrationCounts(t, id, x, s);
    case CVKRemoved(id) => VKDepartureCounts(t, id, s);
    case LeafRemoved(id, armed, flag) => LeafDepartureCounts(t, id, armed, flag, s);
    case ServicePruned(id, x, flag) => StalenessCounts(t, id, x, flag, s);
    case LeafRechecked(id) => RecheckIsRecorded(t, id);
  }

  lemma RegistrationCounts(t: Tables, id: NodeID, x: Service, addr: Addr, stale: int, stopped: bool, s: Service)
    ensures Counts(t, AddService(t, id, x, addr, stale, stopped), s)
  {
  }

  lemma DeregistrationCounts(t: Tables, id: NodeID, x: Service, s: Service)
    ensures Counts(t, Deregister(t, id, x).0, s)
  {
    DeregisterIsUnlist(t, id, x);
    UnlistCounts(t, Stripped(t, id, x), {x}, id, s);
  }

  lemma VKDepartureCounts(t: Tables, id: NodeID, s: Service)
    ensures Counts(t, RemoveCVK(t, id), s)
  {
    if id in t.cvks {
      UnlistCounts(t, t.(cvks := t.cvks - {id}), t.cvks[id].services.Keys, id, s);
    }
  }

  lemma StalenessCounts(t: Tables, id: NodeID, x: Service, running: bool, s: Service)
    ensures Counts(t, FirePrune(t, id, x, running), s)
  {
    FirePruneTables(t, id, x, running);
    ForgetIsUnlist(t, id, x);
    UnlistCounts(t, DropLeafService(t, id, x), {x}, id, s);
  }

  lemma UnlistCounts(t: Tables, t1: Tables, names: set<Service>, id: NodeID, s: Service)
    requires t1.all == t.all && t1.added == t.added && t1.deregs == t.deregs
    ensures Counts(t, Unlist(t1, names, id), s)
  {
  }

  lemma LeafDepartureCounts(t: Tables, id: NodeID, armed: set<Service>, recheck: bool, s: Service)
    ensures Counts(t, RemoveLeaf(t, id, armed, recheck), s)
  {
    if id in t.leaves {
      UnlistCounts(t, StopTimers(t, id, armed, recheck).(leaves := t.leaves - {id}), t.leaves[id].Keys, id, s);
    }
  }
}
