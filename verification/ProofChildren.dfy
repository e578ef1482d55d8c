/**
  The child tables of the Proof variant: leaves, child VKs, and an index from service names to lists of
  providers. The index is weaker than that of Slims: it may list providers whose service is gone.
 */
module ProofTables {
  import opened Basics

  datatype LeafService = LeafService(addr: Addr, stale: int)
  datatype ChildVK = ChildVK(services: map<Service, Addr>, addr: Addr)
  datatype Provider = Provider(cID: NodeID, addr: Addr)

  datatype State = State(
    leaves: map<NodeID, map<Service, LeafService>>,
    vks: map<NodeID, ChildVK>,
    services: map<Service, seq<Provider>>)

  datatype AddError = NoError | UnknownChild | StaleTimeRequired

  // ---- provider lists ---------------------------------------------------------------------------

  /** The position of child `id`; the length of the list when it is not there. */
  function IndexOf(ps: seq<Provider>, id: NodeID): (i: nat)
    ensures i <= |ps|
    ensures i < |ps| ==> ps[i].cID == id
    ensures forall j | 0 <= j < i :: ps[j].cID != id
  {
    if ps == [] || ps[0].cID == id then 0 else 1 + IndexOf(ps[1..], id)
  }

  function Entry(ps: seq<Provider>, id: NodeID): Option<Addr> {
    if IndexOf(ps, id) < |ps| then Some(ps[IndexOf(ps, id)].addr) else None
  }

  /** No child appears twice. */
  predicate Distinct(ps: seq<Provider>) {
    forall i, j | 0 <= i < j < |ps| :: ps[i].cID != ps[j].cID
  }

  function Put(ps: seq<Provider>, id: NodeID, addr: Addr): seq<Provider> {
    if IndexOf(ps, id) < |ps| then ps[IndexOf(ps, id) := Provider(id, addr)] else ps + [Provider(id, addr)]
  }

  lemma EntryUnique(ps: seq<Provider>, id: NodeID, k: nat)
    requires Distinct(ps) && k < |ps| && ps[k].cID == id
    ensures Entry(ps, id) == Some(ps[k].addr)
  {
  }

  lemma EntryAbsent(ps: seq<Provider>, id: NodeID)
    requires forall p | p in ps :: p.cID != id
    ensures Entry(ps, id) == None
  {
  }

  lemma PutIsExact(ps: seq<Provider>, id: NodeID, addr: Addr)
    requires Distinct(ps)
    ensures Distinct(Put(ps, id, addr)) && Put(ps, id, addr) != []
    ensures forall c :: Entry(Put(ps, id, addr), c) == if c == id then Some(addr) else Entry(ps, c)
  {
    var qs := Put(ps, id, addr);
    forall c
      ensures Entry(qs, c) == if c == id then Some(addr) else Entry(ps, c)
    {
      if c == id {
        EntryUnique(qs, id, IndexOf(ps, id));
      } else if IndexOf(ps, c) < |ps| {
        EntryUnique(qs, c, IndexOf(ps, c));
      }
    }
  }

  /** The list without child `id`. */
  function Drop(ps: seq<Provider>, id: NodeID): seq<Provider> {
    if ps == [] then []
    else (if ps[0].cID == id then [] else [ps[0]]) + Drop(ps[1..], id)
  }

  lemma {:induction false} DropKeepsOrder(ps: seq<Provider>, id: NodeID)
    requires Distinct(ps)
    ensures Distinct(Drop(ps, id))
    ensures forall p :: p in Drop(ps, id) <==> p in ps && p.cID != id
  {
    if ps != [] {
      DropKeepsOrder(ps[1..], id);
      assert ps == [ps[0]] + ps[1..];
      var rest := Drop(ps[1..], id);
      assert forall j | 0 <= j < |rest| :: rest[j] in rest && rest[j] in ps[1..];
    }
  }

  lemma DropIsExact(ps: seq<Provider>, id: NodeID)
    requires Distinct(ps)
    ensures Distinct(Drop(ps, id))
    ensures forall c :: Entry(Drop(ps, id), c) == if c == id then None else Entry(ps, c)
  {
    DropKeepsOrder(ps, id);
    var qs := Drop(ps, id);
    forall c
      ensures Entry(qs, c) == if c == id then None else Entry(ps, c)
    {
      if c != id && IndexOf(ps, c) < |ps| {
        assert ps[IndexOf(ps, c)] in qs;
        var k :| 0 <= k < |qs| && qs[k] == ps[IndexOf(ps, c)];
        EntryUnique(qs, c, k);
      } else {
        EntryAbsent(qs, c);
      }
    }
  }

  // ---- operations -------------------------------------------------------------------------------

  function ListedAt(c: State, s: Service, id: NodeID): Option<Addr> {
    if s in c.services then Entry(c.services[s], id) else None
  }

  function AddLeaf(c: State, id: NodeID): State {
    if id in c.leaves || id in c.vks then c else c.(leaves := c.leaves[id := map[]])
  }

  function AddVK(c: State, id: NodeID, addr: Addr): State {
    if id in c.leaves || id in c.vks then c else c.(vks := c.vks[id := ChildVK(map[], addr)])
  }

  /** `stale` is None when the stale time given does not parse. */
  function AddService(c: State, id: NodeID, s: Service, addr: Addr, stale: Option<int>): (State, AddError) {
    if id in c.leaves then
      if stale.None? && s !in c.leaves[id] then (c, StaleTimeRequired)
      else
        var time := if stale.Some? then stale.value else c.leaves[id][s].stale;
        (c.(leaves := c.leaves[id := c.leaves[id][s := LeafService(addr, time)]], services := Offer(c, id, s, addr)),
         NoError)
    else if id in c.vks then
      // a child VK keeps the address it first gave
      var known := c.vks[id].services;
      (c.(vks := c.vks[id := c.vks[id].(services := if s in known then known else known[s := addr])],
          services := Offer(c, id, s, addr)),
       NoError)
    else (c, UnknownChild)
  }

  function Offer(c: State, id: NodeID, s: Service, addr: Addr): map<Service, seq<Provider>> {
    c.services[s := Put(if s in c.services then c.services[s] else [], id, addr)]
  }

  /** A leaf service's timer fires: the leaf's record loses it, the index does not. */
  function FireServiceTimer(c: State, id: NodeID, s: Service): State {
    if id in c.leaves then c.(leaves := c.leaves[id := c.leaves[id] - {s}]) else c
  }

  function FireLeafTimer(c: State, id: NodeID): State {
    if id in c.leaves && c.leaves[id] == map[] then c.(leaves := c.leaves - {id}) else c
  }

  /** The index after child `id` is removed as a provider of `names`. */
  function Purged(services: map<Service, seq<Provider>>, names: set<Service>, id: NodeID): map<Service, seq<Provider>> {
    map s | s in services && (s in names ==> Drop(services[s], id) != []) ::
      if s in names then Drop(services[s], id) else services[s]
  }

  function PruneVK(c: State, id: NodeID): State {
    if id !in c.vks then c
    else State(c.leaves, c.vks - {id}, Purged(c.services, c.vks[id].services.Keys, id))
  }

  // ---- invariants -------------------------------------------------------------------------------

  /**
    Every service a child has on record is in the index once, for leaves with the leaf's address;
    lists are never empty and never repeat a child.
   */
  ghost predicate Indexed(c: State) {
    && c.leaves.Keys !! c.vks.Keys
    && (forall s | s in c.services :: c.services[s] != [] && Distinct(c.services[s]))
    && (forall id, s | id in c.leaves && s in c.leaves[id] :: ListedAt(c, s, id) == Some(c.leaves[id][s].addr))
    && (forall id, s | id in c.vks && s in c.vks[id].services :: ListedAt(c, s, id).Some?)
  }

  /** What the index lists for child VKs they do have on record. */
  ghost predicate VKsBacked(c: State) {
    forall id, s | id in c.vks && ListedAt(c, s, id).Some? :: s in c.vks[id].services
  }

  lemma AddServiceIndexes(c: State, id: NodeID, s: Service, addr: Addr, stale: Option<int>)
    requires Indexed(c)
    ensures var (c', e) := AddService(c, id, s, addr, stale);
            && Indexed(c')
            && (VKsBacked(c) ==> VKsBacked(c'))
            && (e.NoError? <==> id in c.vks || (id in c.leaves && (stale.Some? || s in c.leaves[id])))
            && (forall x, d :: ListedAt(c', x, d) ==
                  if e.NoError? && x == s && d == id then Some(addr) else ListedAt(c, x, d))
  {
    if AddService(c, id, s, addr, stale).1.NoError? {
      OfferIsExact(c, id, s, addr);
      SameServicesListed(c.(services := Offer(c, id, s, addr)), AddService(c, id, s, addr, stale).0);
    }
  }

  /**
    A known child's registration succeeds, unless a leaf gives no stale time for a service new to it. The
    record then has the service: a leaf's with the address given and the stale time given or else the one it
    had, a child VK's with the address it first gave. No other record changes, and none if there is an error.
   */
  lemma AddServiceRecords(c: State, id: NodeID, s: Service, addr: Addr, stale: Option<int>)
    requires c.leaves.Keys !! c.vks.Keys
    ensures var (c', e) := AddService(c, id, s, addr, stale);
            && (e.NoError? <==> id in c.vks || (id in c.leaves && (stale.Some? || s in c.leaves[id])))
            && (e.StaleTimeRequired? <==> id in c.leaves && stale.None? && s !in c.leaves[id])
            && (e.UnknownChild? <==> id !in c.leaves && id !in c.vks)
            && (!e.NoError? ==> c' == c)
            && OnlyConcerns(c, c', id) && c'.leaves.Keys == c.leaves.Keys && c'.vks.Keys == c.vks.Keys
            && (e.NoError? && id in c.leaves ==>
                  && s in c'.leaves[id] && c'.leaves[id][s].addr == addr
                  && (stale.Some? ==> c'.leaves[id][s].stale == stale.value)
                  && (stale.None? ==> c'.leaves[id][s].stale == c.leaves[id][s].stale)
                  && c'.leaves[id] - {s} == c.leaves[id] - {s})
            && (e.NoError? && id in c.vks ==>
                  && s in c'.vks[id].services && c'.vks[id].addr == c.vks[id].addr
                  && c'.vks[id].services[s] == (if s in c.vks[id].services then c.vks[id].services[s] else addr)
                  && c'.vks[id].services - {s} == c.vks[id].services - {s})
  {
  }

  /** Every child but `id` has the record it had. */
  ghost predicate OnlyConcerns(c: State, c': State, id: NodeID) {
    && (forall x | x != id :: (x in c'.leaves <==> x in c.leaves) && (x in c'.vks <==> x in c.vks))
    && (forall x | x != id && x in c.leaves && x in c'.leaves :: c'.leaves[x] == c.leaves[x])
    && (forall x | x != id && x in c.vks && x in c'.vks :: c'.vks[x] == c.vks[x])
  }

  /** A new child is on record without services, a child VK at the address it gave; a known one stays as it is. */
  lemma NewChildrenAreRecorded(c: State, id: NodeID, addr: Addr)
    ensures var known := id in c.leaves || id in c.vks;
            var l, v := AddLeaf(c, id), AddVK(c, id, addr);
            && (known ==> l == c && v == c)
            && (!known ==> l == c.(leaves := l.leaves) && v == c.(vks := v.vks)
                           && OnlyConcerns(c, l, id) && OnlyConcerns(c, v, id)
                           && id in l.leaves && l.leaves[id] == map[]
                           && id in v.vks && v.vks[id].services == map[] && v.vks[id].addr == addr)
  {
  }

  /** A leaf's service timer takes that service off its record; its own timer drops it if it has none left. */
  lemma LeafTimersAreRecorded(c: State, id: NodeID, s: Service)
    ensures var c' := FireServiceTimer(c, id, s);
            && c' == c.(leaves := c'.leaves) && c'.leaves.Keys == c.leaves.Keys && OnlyConcerns(c, c', id)
            && (id in c.leaves ==> c'.leaves[id] == c.leaves[id] - {s})
    ensures var c' := FireLeafTimer(c, id);
            && c' == c.(leaves := c'.leaves) && OnlyConcerns(c, c', id)
            && (id in c'.leaves <==> id in c.leaves && c.leaves[id].Keys != {})
            && (id in c'.leaves ==> c'.leaves[id] == c.leaves[id])
  {
    assert id in c.leaves ==> (c.leaves[id] == map[] <==> c.leaves[id].Keys == {});
  }

  /** A child VK's timer drops its record and no other. */
  lemma VKTimerIsRecorded(c: State, id: NodeID)
    ensures var c' := PruneVK(c, id);
            && id !in c'.vks && c'.leaves == c.leaves && OnlyConcerns(c, c', id)
            && (id !in c.vks ==> c' == c)
  {
  }

  lemma SameServicesListed(c: State, c': State)
    requires c.services == c'.services
    ensures forall x, d :: ListedAt(c, x, d) == ListedAt(c', x, d)
  {
  }

  lemma OfferIsExact(c: State, id: NodeID, s: Service, addr: Addr)
    requires forall x | x in c.services :: c.services[x] != [] && Distinct(c.services[x])
    ensures var c' := c.(services := Offer(c, id, s, addr));
            && (forall x | x in c'.services :: c'.services[x] != [] && Distinct(c'.services[x]))
            && (forall x, d :: ListedAt(c', x, d) == if x == s && d == id then Some(addr) else ListedAt(c, x, d))
  {
    var ps := if s in c.services then c.services[s] else [];
    PutIsExact(ps, id, addr);
  }

  lemma TimersIndex(c: State, id: NodeID, s: Service)
    requires Indexed(c)
    ensures Indexed(FireServiceTimer(c, id, s)) && Indexed(FireLeafTimer(c, id)) && Indexed(AddLeaf(c, id))
    ensures VKsBacked(c) ==>
              VKsBacked(FireServiceTimer(c, id, s)) && VKsBacked(FireLeafTimer(c, id)) && VKsBacked(AddLeaf(c, id))
  {
    assert forall x, d :: ListedAt(FireServiceTimer(c, id, s), x, d) == ListedAt(c, x, d);
    assert forall x, d :: ListedAt(FireLeafTimer(c, id), x, d) == ListedAt(c, x, d);
    assert forall x, d :: ListedAt(AddLeaf(c, id), x, d) == ListedAt(c, x, d);
  }

  /** A new child VK is backed exactly when no entry is left over from an earlier life of its ID. */
  lemma AddVKBackedIff(c: State, id: NodeID, addr: Addr)
    requires Indexed(c) && VKsBacked(c)
    ensures Indexed(AddVK(c, id, addr))
    ensures VKsBacked(AddVK(c, id, addr)) <==>
            id in c.leaves || id in c.vks || forall s | s in c.services :: Entry(c.services[s], id) == None
  {
    var c' := AddVK(c, id, addr);
    assert forall x, d :: ListedAt(c', x, d) == ListedAt(c, x, d);
    if id !in c.leaves && id !in c.vks {
      if !(forall s | s in c.services :: Entry(c.services[s], id) == None) {
        var s :| s in c.services && Entry(c.services[s], id) != None;
        assert ListedAt(c', s, id).Some?;
      }
    }
  }

  /**
    Pruning a child VK takes away its entries for the services it has on record, which are all of its
    entries when it is backed, and changes no other child's entry.
   */
  lemma PruneVKIsExact(c: State, id: NodeID)
    requires Indexed(c)
    ensures var c' := PruneVK(c, id);
            && Indexed(c')
            && (forall s, d :: ListedAt(c', s, d) ==
                  if d == id && id in c.vks && s in c.vks[id].services then None else ListedAt(c, s, d))
            && (VKsBacked(c) ==> VKsBacked(c'))
            && (VKsBacked(c) && id in c.vks ==> forall s :: ListedAt(c', s, id) == None)
  {
    if id in c.vks {
      PurgedIsExact(c.services, c.vks[id].services.Keys, id);
      var c' := PruneVK(c, id);
      forall s, d
        ensures ListedAt(c', s, d) == if d == id && s in c.vks[id].services then None else ListedAt(c, s, d)
      {
      }
    }
  }

  lemma PurgedIsExact(services: map<Service, seq<Provider>>, names: set<Service>, id: NodeID)
    requires forall s | s in services :: services[s] != [] && Distinct(services[s])
    ensures var after := Purged(services, names, id);
            && (forall s | s in after :: after[s] != [] && Distinct(after[s]))
            && (forall s, d :: (if s in after then Entry(after[s], d) else None) ==
                  if d == id && s in names then None else if s in services then Entry(services[s], d) else None)
  {
    forall s | s in services
      ensures Distinct(Drop(services[s], id))
      ensures forall c :: Entry(Drop(services[s], id), c) == if c == id then None else Entry(services[s], c)
    {
      DropIsExact(services[s], id);
    }
  }

  /** The child has the service on record. */
  predicate Recorded(c: State, id: NodeID, s: Service) {
    (id in c.leaves && s in c.leaves[id]) || (id in c.vks && s in c.vks[id].services)
  }

  /** Every entry of the index stands for a service its child still has on record. */
  ghost predicate FullyBacked(c: State) {
    forall id, s | ListedAt(c, s, id).Some? :: Recorded(c, id, s)
  }

  /** The containment is one-way: a stale leaf service leaves its entry behind, for clients to be given. */
  lemma StaleEntriesStay(c: State, id: NodeID, s: Service)
    requires Indexed(c) && id in c.leaves && s in c.leaves[id]
    ensures var c' := FireServiceTimer(c, id, s);
            s !in c'.leaves[id] && ListedAt(c', s, id) == Some(c.leaves[id][s].addr)
  {
  }

  // ---- runs -------------------------------------------------------------------------------------

  datatype Op =
    | NewLeaf(id: NodeID)
    | NewVK(id: NodeID, addr: Addr)
    | Register(id: NodeID, service: Service, addr: Addr, stale: Option<int>)
    | ServiceTimer(id: NodeID, service: Service)
    | LeafTimer(id: NodeID)
    | VKTimer(id: NodeID)

  function Do(c: State, op: Op): State {
    match op
    case NewLeaf(id) => AddLeaf(c, id)
    case NewVK(id, addr) => AddVK(c, id, addr)
    case Register(id, s, addr, stale) => AddService(c, id, s, addr, stale).0
    case ServiceTimer(id, s) => FireServiceTimer(c, id, s)
    case LeafTimer(id) => FireLeafTimer(c, id)
    case VKTimer(id) => PruneVK(c, id)
  }

  function DoAll(c: State, ops: seq<Op>): State {
    if ops == [] then c else Do(DoAll(c, ops[..|ops| - 1]), ops[|ops| - 1])
  }

  /** Every registered service is findable after any run, with no assumption on IDs at all. */
  lemma {:induction false} IndexedAlways(c: State, ops: seq<Op>)
    requires Indexed(c)
    ensures Indexed(DoAll(c, ops))
  {
    if ops != [] {
      var d, op := DoAll(c, ops[..|ops| - 1]), ops[|ops| - 1];
      IndexedAlways(c, ops[..|ops| - 1]);
      match op
      case NewLeaf(id) => TimersIndex(d, id, "");
      case NewVK(id, addr) => AddVKIndexes(d, id, addr);
      case Register(id, s, addr, stale) => AddServiceIndexes(d, id, s, addr, stale);
      case ServiceTimer(id, s) => TimersIndex(d, id, s);
      case LeafTimer(id) => TimersIndex(d, id, "");
      case VKTimer(id) => PruneVKIsExact(d, id);
    }
  }

  /**
    One operation alone can leave an entry without a record: the timer of a leaf service that is still on
    record, which never touches the index.
   */
  lemma DoKeepsBackedIff(c: State, op: Op)
    requires Indexed(c) && FullyBacked(c)
    ensures FullyBacked(Do(c, op)) <==>
            !(op.ServiceTimer? && op.id in c.leaves && op.service in c.leaves[op.id])
  {
    match op
    case NewLeaf(id) => SameIndexBacked(c, AddLeaf(c, id));
    case NewVK(id, addr) => SameIndexBacked(c, AddVK(c, id, addr));
    case Register(id, s, addr, stale) => AddServiceBacks(c, id, s, addr, stale);
    case ServiceTimer(id, s) => ServiceTimerBacksIff(c, id, s);
    case LeafTimer(id) => SameIndexBacked(c, FireLeafTimer(c, id));
    case VKTimer(id) => PruneVKBacks(c, id);
  }

  lemma SameIndexBacked(c: State, c': State)
    requires FullyBacked(c) && c'.services == c.services
    requires forall id, s | Recorded(c, id, s) :: Recorded(c', id, s)
    ensures FullyBacked(c')
  {
    assert forall x, d :: ListedAt(c', x, d) == ListedAt(c, x, d);
  }

  lemma AddServiceBacks(c: State, id: NodeID, s: Service, addr: Addr, stale: Option<int>)
    requires Indexed(c) && FullyBacked(c)
    ensures FullyBacked(AddService(c, id, s, addr, stale).0)
  {
    AddServiceIndexes(c, id, s, addr, stale);
  }

  lemma ServiceTimerBacksIff(c: State, id: NodeID, s: Service)
    requires Indexed(c) && FullyBacked(c)
    ensures FullyBacked(FireServiceTimer(c, id, s)) <==> !(id in c.leaves && s in c.leaves[id])
  {
    var c' := FireServiceTimer(c, id, s);
    assert forall x, d :: ListedAt(c', x, d) == ListedAt(c, x, d);
    if id in c.leaves && s in c.leaves[id] {
      StaleEntriesStay(c, id, s);
      assert !Recorded(c', id, s);
    }
  }

  lemma PruneVKBacks(c: State, id: NodeID)
    requires Indexed(c) && FullyBacked(c)
    ensures FullyBacked(PruneVK(c, id))
  {
    PruneVKIsExact(c, id);
  }

  lemma AddVKIndexes(c: State, id: NodeID, addr: Addr)
    requires Indexed(c)
    ensures Indexed(AddVK(c, id, addr))
  {
    assert forall x, d :: ListedAt(AddVK(c, id, addr), x, d) == ListedAt(c, x, d);
  }

  lemma SameRecord(vks: map<NodeID, ChildVK>, id: NodeID)
    requires id in vks
    ensures vks[id := vks[id].(services := vks[id].services)] == vks
  {
  }

  lemma PurgedStep(before: map<Service, seq<Provider>>, done: set<Service>, s: Service, id: NodeID)
    requires s !in done
    ensures var now := Purged(before, done, id);
            && (s in now <==> s in before) && (s in now ==> now[s] == before[s])
            && Purged(before, done + {s}, id) ==
               if s !in now then now
               else if Drop(now[s], id) == [] then now - {s}
               else now[s := Drop(now[s], id)]
  {
  }
}

/** The tables as an object, updated in place by requests and timers. */
module ProofChildren {
  import opened Basics
  import opened ProofTables

  class Children {
    var leaves: map<NodeID, map<Service, LeafService>>
    var vks: map<NodeID, ChildVK>
    var services: map<Service, seq<Provider>>

    function Value(): State
      reads this
    {
      State(leaves, vks, services)
    }

    constructor ()
      ensures Value() == State(map[], map[], map[]) && Indexed(Value()) && VKsBacked(Value())
    {
      leaves, vks, services := map[], map[], map[];
    }

    method AddLeaf(cID: NodeID) returns (wasVK: bool, wasLeaf: bool)
      modifies this`leaves
      ensures Value() == ProofTables.AddLeaf(old(Value()), cID)
      ensures wasVK == (cID in old(vks)) && wasLeaf == (cID in old(leaves))
    {
      wasLeaf := cID in leaves;
      wasVK := cID in vks;
      if !wasLeaf && !wasVK {
        leaves := leaves[cID := map[]];
      }
    }

    method AddVK(cID: NodeID, addr: Addr) returns (wasVK: bool, wasLeaf: bool)
      modifies this`vks
      ensures Value() == ProofTables.AddVK(old(Value()), cID, addr)
      ensures wasVK == (cID in old(vks)) && wasLeaf == (cID in old(leaves))
    {
      wasLeaf := cID in leaves;
      wasVK := cID in vks;
      if !wasLeaf && !wasVK {
        vks := vks[cID := ChildVK(map[], addr)];
      }
    }

    method AddServiceToLeaf(cID: NodeID, svc: Service, ap: Addr, stale: Option<int>)
      returns (newService: bool, err: AddError)
      modifies this`leaves
      ensures newService == (cID in old(leaves) && svc !in old(leaves)[cID])
      ensures err == if cID !in old(leaves) then UnknownChild
                     else if newService && stale.None? then StaleTimeRequired else NoError
      ensures leaves == if err != NoError then old(leaves) else
                        var time := if stale.Some? then stale.value else old(leaves)[cID][svc].stale;
                        old(leaves)[cID := old(leaves)[cID][svc := LeafService(ap, time)]]
    {
      if cID !in leaves {
        return false, UnknownChild;
      }
      var staleTime := if stale.Some? then stale.value else 0;
      if svc in leaves[cID] {
        newService := false;
        if stale.None? {
          staleTime := leaves[cID][svc].stale;
        }
      } else {
        newService := true;
        if stale.None? {
          return true, StaleTimeRequired;
        }
      }
      leaves := leaves[cID := leaves[cID][svc := LeafService(ap, staleTime)]];
      return newService, NoError;
    }

    method AddServiceToVK(cID: NodeID, svc: Service, ap: Addr) returns (newService: bool, err: AddError)
      modifies this`vks
      ensures newService == (cID in old(vks) && svc !in old(vks)[cID].services)
      ensures err == if cID in old(vks) then NoError else UnknownChild
      ensures vks == if !newService then old(vks) else
                     old(vks)[cID := old(vks)[cID].(services := old(vks)[cID].services[svc := ap])]
    {
      if cID !in vks {
        return false, UnknownChild;
      }
      if svc in vks[cID].services {
        return false, NoError;
      }
      vks := vks[cID := vks[cID].(services := vks[cID].services[svc := ap])];
      return true, NoError;
    }

    method AddService(cID: NodeID, svc: Service, addr: Addr, stale: Option<int>) returns (err: AddError)
      modifies this
      ensures (Value(), err) == ProofTables.AddService(old(Value()), cID, svc, addr, stale)
    {
      var isNew: bool;
      if cID in leaves {
        isNew, err := AddServiceToLeaf(cID, svc, addr, stale);
        if err != NoError {
          return err;
        }
      } else if cID in vks {
        isNew, err := AddServiceToVK(cID, svc, addr);
        SameRecord(old(vks), cID);
      } else {
        return UnknownChild;
      }
      ghost var recorded := Value();
      if svc in services {
        var providers := services[svc];
        var i := 0;
        while i < |providers|
          invariant 0 <= i <= |providers| && Value() == recorded
          invariant forall j | 0 <= j < i :: providers[j].cID != cID
        {
          if providers[i].cID == cID {
            assert IndexOf(providers, cID) == i;
            services := services[svc := providers[i := Provider(cID, addr)]];
            return NoError;
          }
          i := i + 1;
        }
        assert IndexOf(providers, cID) == |providers|;
        services := services[svc := providers + [Provider(cID, addr)]];
      } else {
        assert Put([], cID, addr) == [Provider(cID, addr)];
        services := services[svc := [Provider(cID, addr)]];
      }
      return NoError;
    }

    /** The callback of a leaf service's timer. */
    method PruneLeafService(cID: NodeID, svc: Service)
      modifies this`leaves
      ensures Value() == FireServiceTimer(old(Value()), cID, svc)
    {
      if cID in leaves {
        leaves := leaves[cID := leaves[cID] - {svc}];
      }
    }

    /** The callback of a leaf's timer. */
    method PruneLeaf(cID: NodeID)
      modifies this`leaves
      ensures Value() == FireLeafTimer(old(Value()), cID)
    {
      if cID in leaves && leaves[cID] == map[] {
        leaves := leaves - {cID};
      }
    }

    /** The callback of a child VK's timer. */
    method PruneVK(cID: NodeID)
      modifies this`vks, this`services
      ensures Value() == ProofTables.PruneVK(old(Value()), cID)
    {
      if cID !in vks {
        return;
      }
      ghost var before := services;
      ghost var done: set<Service> := {};
      var names := vks[cID].services.Keys;
      var todo := names;
      assert Purged(before, {}, cID) == before;
      while todo != {}
        invariant vks == old(vks) && todo <= names && done == names - todo
        invariant services == Purged(before, done, cID)
      {
        var sn :| sn in todo;
        todo := todo - {sn};
        PurgedStep(before, done, sn, cID);
        if sn in services {
          var rest := Drop(services[sn], cID);
          services := if rest == [] then services - {sn} else services[sn := rest];
        }
        done := done + {sn};
      }
      assert done == names;
      vks := vks - {cID};
    }
  }
}
