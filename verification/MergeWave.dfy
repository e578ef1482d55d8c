/**
  The wave of INCREMENTs after a MERGE. Starting from a vault with exact heights, deliver the messages in
  any order, any of them several times: once none is in flight, the new root and every old descendant
  that is on record all the way down are one higher and nothing else moved. Heights are exact again
  exactly when no old descendant was missing from its parent's record.
 */
module MergeWave {
  import opened Basics
  import opened Versions
  import opened ChildTables
  import opened VaultNode
  import opened Vault

  /** The parent is exactly one level up. */
  predicate ExactLink(w: World, v: NodeID)
    requires v in w.vks
  {
    var p := w.vks[v].parentID;
    p == 0 || (p in w.vks && w.vks[p].height == w.vks[v].height + 1)
  }

  ghost predicate Exact(w: World) {
    Named(w) && forall v {:trigger ExactLink(w, v)} | v in w.vks :: ExactLink(w, v)
  }

  /** k links up from v is r, and every vaultkeeper on the way is on its parent's record. */
  ghost predicate RecordedChain(w: World, v: NodeID, k: nat, r: NodeID) {
    Up(w, v, k) == r && forall j | 0 <= j < k :: Up(w, v, j) in w.vks && OnRecord(w, Up(w, v, j))
  }

  /** v is r or hangs below r, on record all the way. */
  ghost predicate RecordedBelow(w: World, v: NodeID, r: NodeID) {
    exists k: nat :: RecordedChain(w, v, k, r)
  }

  /** Everyone who hangs below r is on its parent's record. */
  ghost predicate AllOnRecord(w: World, r: NodeID) {
    forall v | v in w.vks && v != r && Below(w, v, r) :: OnRecord(w, v)
  }

  predicate WaveStep(w: World, s: Step) {
    match s
    case Deliver(m, version) => m in w.wire && (m.dest in w.vks ==> version in w.vks[m.dest].supported)
    case Repeat(m) => m in w.wire
    case _ => false
  }

  ghost predicate AllWaveSteps(w: World, ss: seq<Step>)
    decreases |ss|
  {
    ss == [] || (WaveStep(w, ss[0]) && AllWaveSteps(Take(w, ss[0]), ss[1..]))
  }

  function Ripple(w: World, ss: seq<Step>): World
    requires AllWaveSteps(w, ss)
    decreases |ss|
  {
    if ss == [] then w else Ripple(Take(w, ss[0]), ss[1..])
  }

  /** Whoever was raised got it from a raised parent that has it on record. */
  predicate Justified(w0: World, r: NodeID, up: set<NodeID>, v: NodeID)
    requires v in w0.vks
  {
    v == r || (w0.vks[v].parentID in up && OnRecord(w0, v))
  }

  /** A recorded child of a raised parent is raised, or its INCREMENT is on the way. */
  predicate Told(w0: World, up: set<NodeID>, wire: multiset<Increment>, v: NodeID)
    requires v in w0.vks && up <= w0.vks.Keys
  {
    w0.vks[v].parentID in up && OnRecord(w0, v) ==> v in up || Notice(w0, v) in wire
  }

  /** The raised vaultkeepers `up` and the messages in flight, seen against the vault before the merge. */
  ghost predicate Front(w0: World, r: NodeID, up: set<NodeID>, wire: multiset<Increment>) {
    && r in up && up <= w0.vks.Keys
    && (forall v {:trigger Justified(w0, r, up, v)} | v in up :: Justified(w0, r, up, v))
    && (forall v {:trigger Told(w0, up, wire, v)} | v in w0.vks :: Told(w0, up, wire, v))
    && (forall m | m in wire :: Expected(w0, up, m))
  }

  /** A message in flight is left from before the merge, or was sent by a raised vaultkeeper to a recorded child. */
  predicate Expected(w0: World, up: set<NodeID>, m: Increment) {
    m.from in w0.vks &&
    (m.newHeight < w0.vks[m.from].height ||
     (m.newHeight == w0.vks[m.from].height && m.from in up && m.dest in w0.vks[m.from].tables.cvks))
  }

  /** The message raises its addressee: it comes from the parent, says one more, and is the first to say so. */
  predicate IsNews(w0: World, up: set<NodeID>, m: Increment) {
    && m.dest in w0.vks && m.from in w0.vks
    && w0.vks[m.dest].parentID == m.from && m.newHeight == w0.vks[m.from].height && m.dest !in up
  }

  /** The INCREMENT that is due to v. */
  function Notice(w0: World, v: NodeID): Increment
    requires v in w0.vks && w0.vks[v].parentID in w0.vks
  {
    Increment(w0.vks[v].parentID, v, w0.vks[w0.vks[v].parentID].height)
  }

  /** What the merge and the wave have changed about v: at most its height, unless it is r or t. */
  predicate LiftedNode(w0: World, r: NodeID, t: NodeID, up: set<NodeID>, w: World, v: NodeID)
    requires v in w0.vks && v in w.vks
  {
    var n0, n := w0.vks[v], w.vks[v];
    && n.id == v
    && n.height == n0.height + (if v in up then 1 else 0)
    && n.parentID == (if v == t then r else n0.parentID)
    && n.tables.cvks.Keys == n0.tables.cvks.Keys + (if v == r then {t} else {})
    && (v != r ==> n.tables == n0.tables)
    && (v != r && v != t ==> n == n0.(height := n.height))
  }

  /** `w` differs from the vault before the merge by the merge itself and by one height for each of `up`. */
  ghost predicate Lifted(w0: World, r: NodeID, t: NodeID, up: set<NodeID>, w: World) {
    && w.vks.Keys == w0.vks.Keys && 0 !in w.vks
    && forall v | v in w.vks :: LiftedNode(w0, r, t, up, w, v)
  }

  ghost predicate Wave(w0: World, r: NodeID, t: NodeID, up: set<NodeID>, w: World) {
    Lifted(w0, r, t, up, w) && Front(w0, r, up, w.wire)
  }

  /** Two distinct roots of one height in a vault of exact heights. */
  ghost predicate TwoRoots(w0: World, r: NodeID, t: NodeID) {
    && Exact(w0)
    && r in w0.vks && t in w0.vks && r != t
    && IsRoot(w0.vks[r]) && IsRoot(w0.vks[t])
    && w0.vks[r].height == w0.vks[t].height
  }

  /**
    The situation a MERGE between two roots starts from. `Rising` adds to exact heights only that messages
    still in flight announce less than their sender's height, as they do in every run.
   */
  ghost predicate ReadyToMerge(w0: World, r: NodeID, t: NodeID, version: Version, rAddr: Addr) {
    && Exact(w0) && Rising(w0)
    && r in w0.vks && t in w0.vks && r != t
    && IsRoot(w0.vks[r]) && IsRoot(w0.vks[t])
    && t !in w0.vks[r].tables.leaves
    && OfferMerge(w0, r, t, version, rAddr).1.Accepted?
  }

  lemma MergeStartsWave(w0: World, r: NodeID, t: NodeID, version: Version, rAddr: Addr, tAddr: Addr)
    requires ReadyToMerge(w0, r, t, version, rAddr)
    ensures TwoRoots(w0, r, t)
    ensures Wave(w0, r, t, {r}, TakeMerge(w0, r, t, version, rAddr, tAddr))
  {
    AcceptedMerge(w0, r, t, version, rAddr, tAddr);
    MergeLifts(w0, r, t, version, rAddr, tAddr);
    MergeSends(w0, r, t, version, rAddr, tAddr);
    FrontStarts(w0, r, t, TakeMerge(w0, r, t, version, rAddr, tAddr).wire);
  }

  /** The requester announces its old height to every child VK it had on record. */
  lemma MergeSends(w0: World, r: NodeID, t: NodeID, version: Version, rAddr: Addr, tAddr: Addr)
    requires ReadyToMerge(w0, r, t, version, rAddr)
    ensures var wire := TakeMerge(w0, r, t, version, rAddr, tAddr).wire;
            && (forall m | m in wire :: m in w0.wire ||
                  (m.from == r && m.newHeight == w0.vks[r].height && m.dest in w0.vks[r].tables.cvks))
            && (forall c | c in w0.vks[r].tables.cvks && c != t :: Increment(r, c, w0.vks[r].height) in wire)
  {
    AcceptedMerge(w0, r, t, version, rAddr, tAddr);
    var w := TakeMerge(w0, r, t, version, rAddr, tAddr);
    assert w.vks[r].tables.cvks.Keys == w0.vks[r].tables.cvks.Keys + {t};
    assert w.wire == w0.wire + multiset(FanOut(w.vks[r], {t}));
    forall c | c in w0.vks[r].tables.cvks && c != t
      ensures Increment(r, c, w0.vks[r].height) in FanOut(w.vks[r], {t})
    {
      assert c in w.vks[r].tables.cvks.Keys;
    }
    forall m | m in FanOut(w.vks[r], {t})
      ensures m.dest in w0.vks[r].tables.cvks.Keys
    {
    }
  }

  lemma FrontStarts(w0: World, r: NodeID, t: NodeID, wire: multiset<Increment>)
    requires Rising(w0) && r in w0.vks && t in w0.vks && r != t && IsRoot(w0.vks[t])
    requires forall m | m in wire :: m in w0.wire ||
               (m.from == r && m.newHeight == w0.vks[r].height && m.dest in w0.vks[r].tables.cvks)
    requires forall c | c in w0.vks[r].tables.cvks && c != t :: Increment(r, c, w0.vks[r].height) in wire
    ensures Front(w0, r, {r}, wire)
  {
    assert Justified(w0, r, {r}, r);
  }

  lemma MergeLifts(w0: World, r: NodeID, t: NodeID, version: Version, rAddr: Addr, tAddr: Addr)
    requires ReadyToMerge(w0, r, t, version, rAddr)
    ensures Lifted(w0, r, t, {r}, TakeMerge(w0, r, t, version, rAddr, tAddr))
  {
    AcceptedMerge(w0, r, t, version, rAddr, tAddr);
    MergeOffers(w0.vks[t], Request(false, version, r), MergeRequest(w0, r, rAddr), None);
    var w := TakeMerge(w0, r, t, version, rAddr, tAddr);
    assert w.vks[r].tables.cvks.Keys == w0.vks[r].tables.cvks.Keys + {t};
    forall v | v in w.vks
      ensures LiftedNode(w0, r, t, {r}, w, v)
    {
      assert v != r && v != t ==> w.vks[v] == w0.vks[v];
    }
  }

  /** A supported INCREMENT from the parent with the next height raises and fans out; any other does nothing. */
  lemma IncrementExactly(n: Node, version: Version, from: NodeID, newHeight: uint32)
    requires version in n.supported && newHeight < TWO_TO_16
    ensures var (n', _, sent) := ServeIncrement(n, Request(false, version, from), Present(newHeight));
            if n.parentID == from && newHeight == n.height + 1
            then n' == n.(height := newHeight) && sent == FanOut(n', {})
            else n' == n && sent == {}
  {
  }

  lemma FrontUsesUp(w0: World, r: NodeID, up: set<NodeID>, wire: multiset<Increment>, m: Increment)
    requires Exact(w0) && Front(w0, r, up, wire) && m in wire
    requires !IsNews(w0, up, m)
    ensures Front(w0, r, up, wire - multiset{m})
  {
    forall v | v in w0.vks
      ensures Told(w0, up, wire - multiset{m}, v)
    {
      assert Told(w0, up, wire, v);
    }
  }

  lemma FrontRepeats(w0: World, r: NodeID, up: set<NodeID>, wire: multiset<Increment>, m: Increment)
    requires Exact(w0) && Front(w0, r, up, wire) && m in wire
    ensures Front(w0, r, up, wire + multiset{m})
  {
    forall v | v in w0.vks
      ensures Told(w0, up, wire + multiset{m}, v)
    {
      assert Told(w0, up, wire, v);
    }
  }

  lemma FrontAdvances(w0: World, r: NodeID, up: set<NodeID>, wire: multiset<Increment>, m: Increment,
                      sent: set<Increment>)
    requires Exact(w0) && Front(w0, r, up, wire) && m in wire && IsNews(w0, up, m)
    requires forall x | x in sent :: x.from == m.dest && x.newHeight == w0.vks[m.dest].height
    requires forall x | x in sent :: x.dest in w0.vks[m.dest].tables.cvks
    requires forall v | v in w0.vks && w0.vks[v].parentID == m.dest && OnRecord(w0, v) :: Notice(w0, v) in sent
    ensures Front(w0, r, up + {m.dest}, wire - multiset{m} + multiset(sent))
  {
    var up', wire' := up + {m.dest}, wire - multiset{m} + multiset(sent);
    forall v | v in up'
      ensures Justified(w0, r, up', v)
    {
      assert v in up ==> Justified(w0, r, up, v);
      assert v == m.dest ==> Expected(w0, up, m);
    }
    forall v | v in w0.vks
      ensures Told(w0, up', wire', v)
    {
      assert Told(w0, up, wire, v);
      assert w0.vks[v].parentID == m.dest && OnRecord(w0, v) ==> Notice(w0, v) in sent;
    }
    forall x | x in wire'
      ensures Expected(w0, up', x)
    {
      assert x in wire ==> Expected(w0, up, x);
      assert x in wire || x in sent;
    }
  }

  /** The vault once `d` has taken a new height and told its children. */
  function After(w: World, m: Increment): World
    requires m.dest in w.vks && m.newHeight < TWO_TO_16
  {
    var d := w.vks[m.dest].(height := m.newHeight);
    World(w.vks[m.dest := d], w.wire - multiset{m} + multiset(FanOut(d, {})))
  }

  lemma DeliveryExactly(w: World, m: Increment, version: Version)
    requires WaveStep(w, Deliver(m, version)) && m.newHeight < TWO_TO_16
    ensures TakeDelivery(w, m, version) ==
            if m.dest in w.vks && w.vks[m.dest].parentID == m.from && m.newHeight == w.vks[m.dest].height + 1
            then After(w, m) else w.(wire := w.wire - multiset{m})
  {
    if m.dest in w.vks {
      IncrementExactly(w.vks[m.dest], version, m.from, m.newHeight);
      assert w.vks[m.dest := w.vks[m.dest]] == w.vks;
      assert w.wire - multiset{m} + multiset{} == w.wire - multiset{m};
    }
  }

  /** News is one ahead of the child it reaches. */
  lemma FirstNotice(w0: World, r: NodeID, t: NodeID, up: set<NodeID>, w: World, m: Increment)
    requires TwoRoots(w0, r, t) && Lifted(w0, r, t, up, w) && Front(w0, r, up, w.wire) && m in w.wire
    requires IsNews(w0, up, m)
    ensures m.newHeight == w.vks[m.dest].height + 1 && w.vks[m.dest].parentID == m.from
  {
    assert ExactLink(w0, m.dest);
    assert m.dest != t && m.dest != r;
  }

  lemma RaisingLifts(w0: World, r: NodeID, t: NodeID, up: set<NodeID>, w: World, d: NodeID, w': World)
    requires Lifted(w0, r, t, up, w) && d in w.vks && d !in up
    requires w.vks[d].height < MAX_UINT16
    requires w'.vks == w.vks[d := w.vks[d].(height := w.vks[d].height + 1)]
    ensures Lifted(w0, r, t, up + {d}, w')
  {
    forall v | v in w'.vks
      ensures LiftedNode(w0, r, t, up + {d}, w', v)
    {
      assert LiftedNode(w0, r, t, up, w, v);
    }
  }

  lemma FanOutExactly(n: Node, newHeight: uint16)
    requires newHeight > 0
    ensures var sent := FanOut(n.(height := newHeight), {});
            && (forall x | x in sent :: x.from == n.id && x.newHeight == newHeight - 1 && x.dest in n.tables.cvks)
            && (forall c | c in n.tables.cvks :: Increment(n.id, c, newHeight - 1) in sent)
  {
  }

  lemma RaisingAdvances(w0: World, r: NodeID, t: NodeID, up: set<NodeID>, w: World, m: Increment)
    requires TwoRoots(w0, r, t)
    requires Wave(w0, r, t, up, w) && m in w.wire && IsNews(w0, up, m)
    requires m.newHeight == w.vks[m.dest].height + 1 < TWO_TO_16
    ensures Front(w0, r, up + {m.dest}, After(w, m).wire)
  {
    var d := m.dest;
    assert LiftedNode(w0, r, t, up, w, d);
    ChildrenAreTold(w0, d, w.vks[d], m.newHeight);
    FrontAdvances(w0, r, up, w.wire, m, FanOut(w.vks[d].(height := m.newHeight), {}));
  }

  /** A vaultkeeper raised by one tells exactly the children it had on record before the merge. */
  lemma ChildrenAreTold(w0: World, d: NodeID, n: Node, newHeight: uint16)
    requires d in w0.vks && n.id == d && n.tables.cvks.Keys == w0.vks[d].tables.cvks.Keys
    requires newHeight == w0.vks[d].height + 1
    ensures var sent := FanOut(n.(height := newHeight), {});
            && (forall x | x in sent ::
                  x.from == d && x.newHeight == w0.vks[d].height && x.dest in w0.vks[d].tables.cvks)
            && (forall v | v in w0.vks && w0.vks[v].parentID == d && OnRecord(w0, v) :: Notice(w0, v) in sent)
  {
    FanOutExactly(n, newHeight);
    forall v | v in w0.vks && w0.vks[v].parentID == d && OnRecord(w0, v)
      ensures Notice(w0, v) in FanOut(n.(height := newHeight), {})
    {
      assert v in n.tables.cvks.Keys;
    }
  }

  /** Who is raised after a delivery. */
  function Reached(w0: World, up: set<NodeID>, m: Increment): set<NodeID> {
    if IsNews(w0, up, m) then up + {m.dest} else up
  }

  lemma DuplicateIsIgnored(w0: World, r: NodeID, t: NodeID, up: set<NodeID>, w: World, m: Increment)
    requires TwoRoots(w0, r, t)
    requires Wave(w0, r, t, up, w) && m in w.wire && !IsNews(w0, up, m)
    ensures !(m.dest in w.vks && w.vks[m.dest].parentID == m.from && m.newHeight == w.vks[m.dest].height + 1)
  {
    assert Expected(w0, up, m);
    if m.dest in w.vks {
      assert ExactLink(w0, m.dest);
      assert t in up ==> Justified(w0, r, up, t);
    }
  }

  // ---- what is still to be delivered ------------------------------------------------------------

  /** How many child records the vaultkeepers `vs` hold together. */
  ghost function Records(w0: World, vs: set<NodeID>): nat
    requires vs <= w0.vks.Keys
  {
    if vs == {} then 0
    else
      var v :| v in vs;
      |w0.vks[v].tables.cvks| + Records(w0, vs - {v})
  }

  lemma {:induction false} RecordsWithout(w0: World, vs: set<NodeID>, x: NodeID)
    requires vs <= w0.vks.Keys && x in vs
    ensures Records(w0, vs) == |w0.vks[x].tables.cvks| + Records(w0, vs - {x})
    decreases |vs|
  {
    var v :| v in vs && Records(w0, vs) == |w0.vks[v].tables.cvks| + Records(w0, vs - {v});
    if v != x {
      RecordsWithout(w0, vs - {v}, x);
      RecordsWithout(w0, vs - {x}, v);
      assert vs - {v} - {x} == vs - {x} - {v};
    }
  }

  /** Deliveries still to come: the messages in flight, and one per child of each vaultkeeper not yet raised. */
  ghost function Load(w0: World, up: set<NodeID>, wire: multiset<Increment>): nat {
    |wire| + Records(w0, w0.vks.Keys - up)
  }

  lemma FanOutSize(n: Node, except: set<NodeID>)
    ensures |FanOut(n, except)| <= |n.tables.cvks.Keys - except|
  {
    var targets := n.tables.cvks.Keys - except;
    assert FanOut(n, except) == set c | c in targets :: Increment(n.id, c, Pred32(n.height));
    ImageSize(n, targets);
  }

  lemma {:induction false} ImageSize(n: Node, targets: set<NodeID>)
    ensures |set c | c in targets :: Increment(n.id, c, Pred32(n.height))| <= |targets|
    decreases |targets|
  {
    var image := set c | c in targets :: Increment(n.id, c, Pred32(n.height));
    if targets != {} {
      var c :| c in targets;
      ImageSize(n, targets - {c});
      var rest := set x | x in targets - {c} :: Increment(n.id, x, Pred32(n.height));
      assert image == rest + {Increment(n.id, c, Pred32(n.height))};
    }
  }

  lemma NewsLightens(w0: World, up: set<NodeID>, wire: multiset<Increment>, m: Increment, sent: set<Increment>)
    requires m in wire && m.dest in w0.vks && m.dest !in up
    requires |sent| <= |w0.vks[m.dest].tables.cvks|
    ensures Load(w0, up + {m.dest}, wire - multiset{m} + multiset(sent)) < Load(w0, up, wire)
  {
    var vs := w0.vks.Keys - up;
    RecordsWithout(w0, vs, m.dest);
    assert w0.vks.Keys - (up + {m.dest}) == vs - {m.dest};
    assert wire == (wire - multiset{m}) + multiset{m};
    assert |multiset(sent)| == |sent|;
  }

  lemma SameRecords(w0: World, r: NodeID, t: NodeID, up: set<NodeID>, w: World, v: NodeID)
    requires Lifted(w0, r, t, up, w) && v in w0.vks && v != r
    ensures |w.vks[v].tables.cvks.Keys - {}| == |w0.vks[v].tables.cvks|
  {
    assert w.vks[v].tables.cvks.Keys - {} == w0.vks[v].tables.cvks.Keys;
    assert |w0.vks[v].tables.cvks.Keys| == |w0.vks[v].tables.cvks|;
  }

  // ---- one delivery -----------------------------------------------------------------------------

  /** The delivery of a first notice is a step of the wave. */
  lemma NewsKeepsWave(w0: World, r: NodeID, t: NodeID, up: set<NodeID>, w: World, m: Increment)
    requires TwoRoots(w0, r, t) && Wave(w0, r, t, up, w) && m in w.wire
    requires m.dest in w.vks && w.vks[m.dest].parentID == m.from && m.newHeight == w.vks[m.dest].height + 1
    requires IsNews(w0, up, m) && m.newHeight < TWO_TO_16
    ensures Wave(w0, r, t, up + {m.dest}, After(w, m))
    ensures Load(w0, up + {m.dest}, After(w, m).wire) < Load(w0, up, w.wire)
  {
    RaisingLifts(w0, r, t, up, w, m.dest, After(w, m));
    RaisingAdvances(w0, r, t, up, w, m);
    SameRecords(w0, r, t, up, w, m.dest);
    FanOutSize(w.vks[m.dest].(height := m.newHeight), {});
    NewsLightens(w0, up, w.wire, m, FanOut(w.vks[m.dest].(height := m.newHeight), {}));
  }

  /** Any other delivery just uses its message up. */
  lemma StaleKeepsWave(w0: World, r: NodeID, t: NodeID, up: set<NodeID>, w: World, m: Increment)
    requires TwoRoots(w0, r, t) && Wave(w0, r, t, up, w) && m in w.wire && !IsNews(w0, up, m)
    ensures Wave(w0, r, t, up, w.(wire := w.wire - multiset{m}))
    ensures Load(w0, up, w.wire - multiset{m}) < Load(w0, up, w.wire)
  {
    FrontUsesUp(w0, r, up, w.wire, m);
    assert w.wire == (w.wire - multiset{m}) + multiset{m};
  }

  /** Delivering one INCREMENT keeps the wave and leaves less to deliver. */
  lemma DeliveryKeepsWave(w0: World, r: NodeID, t: NodeID, up: set<NodeID>, w: World, m: Increment, version: Version)
    requires TwoRoots(w0, r, t)
    requires Wave(w0, r, t, up, w) && WaveStep(w, Deliver(m, version))
    ensures Wave(w0, r, t, Reached(w0, up, m), TakeDelivery(w, m, version))
    ensures Load(w0, Reached(w0, up, m), TakeDelivery(w, m, version).wire) < Load(w0, up, w.wire)
  {
    if IsNews(w0, up, m) {
      NewsArrives(w0, r, t, up, w, m, version);
      NewsKeepsWave(w0, r, t, up, w, m);
    } else {
      StaleArrives(w0, r, t, up, w, m, version);
      StaleKeepsWave(w0, r, t, up, w, m);
    }
  }

  lemma NewsArrives(w0: World, r: NodeID, t: NodeID, up: set<NodeID>, w: World, m: Increment, version: Version)
    requires TwoRoots(w0, r, t) && Wave(w0, r, t, up, w) && WaveStep(w, Deliver(m, version))
    requires IsNews(w0, up, m)
    ensures m.dest in w.vks && w.vks[m.dest].parentID == m.from
    ensures m.newHeight == w.vks[m.dest].height + 1 < TWO_TO_16
    ensures TakeDelivery(w, m, version) == After(w, m)
  {
    NoticesFit(w0, r, up, w.wire, m);
    FirstNotice(w0, r, t, up, w, m);
    DeliveryExactly(w, m, version);
  }

  lemma StaleArrives(w0: World, r: NodeID, t: NodeID, up: set<NodeID>, w: World, m: Increment, version: Version)
    requires TwoRoots(w0, r, t) && Wave(w0, r, t, up, w) && WaveStep(w, Deliver(m, version))
    requires !IsNews(w0, up, m)
    ensures TakeDelivery(w, m, version) == w.(wire := w.wire - multiset{m})
  {
    NoticesFit(w0, r, up, w.wire, m);
    DuplicateIsIgnored(w0, r, t, up, w, m);
    DeliveryExactly(w, m, version);
  }

  lemma NoticesFit(w0: World, r: NodeID, up: set<NodeID>, wire: multiset<Increment>, m: Increment)
    requires Front(w0, r, up, wire) && m in wire
    ensures m.newHeight < TWO_TO_16
  {
    assert Expected(w0, up, m);
  }

  lemma {:induction false} WaveGoesOn(w0: World, r: NodeID, t: NodeID, up: set<NodeID>, w: World, ss: seq<Step>)
    returns (up': set<NodeID>)
    requires TwoRoots(w0, r, t)
    requires Wave(w0, r, t, up, w) && AllWaveSteps(w, ss)
    ensures Wave(w0, r, t, up', Ripple(w, ss))
    decreases |ss|
  {
    up' := up;
    if ss != [] {
      var s := ss[0];
      if s.Deliver? {
        DeliveryKeepsWave(w0, r, t, up, w, s.m, s.version);
        up' := WaveGoesOn(w0, r, t, Reached(w0, up, s.m), Take(w, s), ss[1..]);
      } else {
        RepeatKeepsWave(w0, r, t, up, w, s.m);
        up' := WaveGoesOn(w0, r, t, up, Take(w, s), ss[1..]);
      }
    }
  }

  lemma RepeatKeepsWave(w0: World, r: NodeID, t: NodeID, up: set<NodeID>, w: World, m: Increment)
    requires Exact(w0) && Wave(w0, r, t, up, w) && m in w.wire
    ensures Wave(w0, r, t, up, w.(wire := w.wire + multiset{m}))
  {
    FrontRepeats(w0, r, up, w.wire, m);
    assert forall v | v in w.vks :: LiftedNode(w0, r, t, up, w, v);
  }

  // ---- the end of the wave --------------------------------------------------------------------

  lemma {:induction false} RecordedAreRaised(w0: World, r: NodeID, up: set<NodeID>, v: NodeID, k: nat, j: nat)
    requires Exact(w0) && Front(w0, r, up, multiset{})
    requires j <= k && RecordedChain(w0, v, k, r)
    ensures Up(w0, v, j) in up
    decreases k - j
  {
    if j < k {
      RecordedAreRaised(w0, r, up, v, k, j + 1);
      assert Told(w0, up, multiset{}, Up(w0, v, j));
    }
  }

  lemma {:induction false} RaisedAreRecorded(w0: World, r: NodeID, up: set<NodeID>, v: NodeID, k: nat)
    requires Exact(w0) && Front(w0, r, up, multiset{}) && Up(w0, v, k) in up
    requires forall j | 0 <= j < k :: Up(w0, v, j) in w0.vks && OnRecord(w0, Up(w0, v, j))
    ensures RecordedBelow(w0, v, r)
    decreases TWO_TO_16 - w0.vks[Up(w0, v, k)].height
  {
    var u := Up(w0, v, k);
    if u == r {
      assert RecordedChain(w0, v, k, r);
    } else {
      assert ExactLink(w0, u) && Justified(w0, r, up, u);
      RaisedAreRecorded(w0, r, up, v, k + 1);
    }
  }

  /** In the end exactly those are raised that hang below r on record all the way. */
  lemma RaisedIffRecorded(w0: World, r: NodeID, up: set<NodeID>, v: NodeID)
    requires Exact(w0) && Front(w0, r, up, multiset{}) && v in w0.vks
    ensures v in up <==> RecordedBelow(w0, v, r)
    ensures RecordedBelow(w0, v, r) ==> Below(w0, v, r)
  {
    assert Up(w0, v, 0) == v;
    if v in up {
      RaisedAreRecorded(w0, r, up, v, 0);
    }
    if RecordedBelow(w0, v, r) {
      var k: nat :| RecordedChain(w0, v, k, r);
      RecordedAreRaised(w0, r, up, v, k, 0);
    }
  }

  /** Nobody was left behind: every child of a raised vaultkeeper is raised. */
  ghost predicate NobodyLeft(w0: World, up: set<NodeID>) {
    forall v | v in w0.vks && w0.vks[v].parentID in up :: v in up
  }

  lemma ExactIffNobodyLeft(w0: World, r: NodeID, t: NodeID, up: set<NodeID>, w: World)
    requires TwoRoots(w0, r, t) && Wave(w0, r, t, up, w) && w.wire == multiset{}
    ensures Exact(w) <==> NobodyLeft(w0, up)
  {
    forall v | v in w.vks
      ensures ExactLink(w, v) <==> (w0.vks[v].parentID in up ==> v in up)
    {
      LinkExactIff(w0, r, t, up, w, v);
    }
  }

  lemma LinkExactIff(w0: World, r: NodeID, t: NodeID, up: set<NodeID>, w: World, v: NodeID)
    requires TwoRoots(w0, r, t) && Lifted(w0, r, t, up, w) && Front(w0, r, up, multiset{}) && v in w.vks
    ensures ExactLink(w, v) <==> (w0.vks[v].parentID in up ==> v in up)
  {
    assert ExactLink(w0, v) && (v in up ==> Justified(w0, r, up, v));
    assert LiftedNode(w0, r, t, up, w, v);
  }

  lemma {:induction false} NobodyLeftBelow(w0: World, r: NodeID, up: set<NodeID>, v: NodeID, k: nat, j: nat)
    requires Named(w0) && r in up && up <= w0.vks.Keys && NobodyLeft(w0, up)
    requires j <= k && Up(w0, v, k) == r
    ensures Up(w0, v, j) in up
    decreases k - j
  {
    if j < k {
      NobodyLeftBelow(w0, r, up, v, k, j + 1);
    }
  }

  lemma NobodyLeftIffOnRecord(w0: World, r: NodeID, up: set<NodeID>)
    requires Exact(w0) && Front(w0, r, up, multiset{})
    ensures NobodyLeft(w0, up) <==> AllOnRecord(w0, r)
  {
    if NobodyLeft(w0, up) {
      forall v | v in w0.vks && v != r && Below(w0, v, r)
        ensures OnRecord(w0, v)
      {
        var k: nat :| Up(w0, v, k) == r;
        NobodyLeftBelow(w0, r, up, v, k, 0);
        assert Up(w0, v, 0) == v && Justified(w0, r, up, v);
      }
    }
    if AllOnRecord(w0, r) {
      forall v | v in w0.vks && w0.vks[v].parentID in up
        ensures v in up
      {
        RaisedIffRecorded(w0, r, up, w0.vks[v].parentID);
        ChildIsBelow(w0, v, r);
        assert Told(w0, up, multiset{}, v);
      }
    }
  }

  /**
    The merge theorem: when nothing is in flight any more, every vaultkeeper is settled, and heights are
    exact again if and only if every old descendant of the requester was on record.
   */
  lemma MergeWaveOutcome(w0: World, r: NodeID, t: NodeID, version: Version, rAddr: Addr, tAddr: Addr, ss: seq<Step>)
    requires ReadyToMerge(w0, r, t, version, rAddr)
    requires AllWaveSteps(TakeMerge(w0, r, t, version, rAddr, tAddr), ss)
    requires Ripple(TakeMerge(w0, r, t, version, rAddr, tAddr), ss).wire == multiset{}
    ensures var w := Ripple(TakeMerge(w0, r, t, version, rAddr, tAddr), ss);
            && w.vks.Keys == w0.vks.Keys
            && (forall v | v in w0.vks :: SettledNode(w0, r, t, w, v))
            && (Exact(w) <==> AllOnRecord(w0, r))
  {
    MergeStartsWave(w0, r, t, version, rAddr, tAddr);
    var w1 := TakeMerge(w0, r, t, version, rAddr, tAddr);
    var up := WaveGoesOn(w0, r, t, {r}, w1, ss);
    SettledWave(w0, r, t, up, Ripple(w1, ss));
  }

  lemma SettledWave(w0: World, r: NodeID, t: NodeID, up: set<NodeID>, w: World)
    requires TwoRoots(w0, r, t) && Wave(w0, r, t, up, w) && w.wire == multiset{}
    ensures forall v | v in w0.vks :: SettledNode(w0, r, t, w, v)
    ensures Exact(w) <==> AllOnRecord(w0, r)
  {
    ExactIffNobodyLeft(w0, r, t, up, w);
    NobodyLeftIffOnRecord(w0, r, up);
    forall v | v in w0.vks
      ensures SettledNode(w0, r, t, w, v)
    {
      NodeSettles(w0, r, t, up, w, v);
    }
  }

  /**
    What has become of v once the wave is over: it is one higher exactly when it is the requester or an
    old descendant on record all the way, only the absorbed root has a new parent, and nothing else has
    changed in the absorbed vault.
   */
  ghost predicate SettledNode(w0: World, r: NodeID, t: NodeID, w: World, v: NodeID)
    requires v in w0.vks && v in w.vks
  {
    && w.vks[v].height == w0.vks[v].height + (if RecordedBelow(w0, v, r) then 1 else 0)
    && w.vks[v].parentID == (if v == t then r else w0.vks[v].parentID)
    && (Below(w0, v, t) ==>
          if v == t then w.vks[v].height == w0.vks[v].height && w.vks[v].tables == w0.vks[v].tables
          else w.vks[v] == w0.vks[v])
  }

  lemma NodeSettles(w0: World, r: NodeID, t: NodeID, up: set<NodeID>, w: World, v: NodeID)
    requires TwoRoots(w0, r, t) && Wave(w0, r, t, up, w) && w.wire == multiset{} && v in w0.vks
    ensures SettledNode(w0, r, t, w, v)
  {
    assert LiftedNode(w0, r, t, up, w, v);
    AbsorbedStayPut(w0, r, t, up, v);
  }

  lemma AbsorbedStayPut(w0: World, r: NodeID, t: NodeID, up: set<NodeID>, v: NodeID)
    requires TwoRoots(w0, r, t) && Front(w0, r, up, multiset{}) && v in w0.vks
    ensures v in up <==> RecordedBelow(w0, v, r)
    ensures Below(w0, v, t) ==> v !in up && v != r
  {
    RaisedIffRecorded(w0, r, up, v);
    if Below(w0, v, t) {
      OneRootEach(w0, v, r, t);
      assert Up(w0, v, 0) == v;
    }
  }

  /** The intended case: with everyone on record the requester and all its old descendants are one higher. */
  lemma MergeWaveIsExact(w0: World, r: NodeID, t: NodeID, version: Version, rAddr: Addr, tAddr: Addr, ss: seq<Step>)
    requires ReadyToMerge(w0, r, t, version, rAddr) && AllOnRecord(w0, r)
    requires AllWaveSteps(TakeMerge(w0, r, t, version, rAddr, tAddr), ss)
    requires Ripple(TakeMerge(w0, r, t, version, rAddr, tAddr), ss).wire == multiset{}
    ensures var w := Ripple(TakeMerge(w0, r, t, version, rAddr, tAddr), ss);
            && w.vks.Keys == w0.vks.Keys
            && (forall v | v in w0.vks :: w.vks[v].height == w0.vks[v].height + if Below(w0, v, r) then 1 else 0)
            && (forall v | v in w0.vks && v != t && Below(w0, v, t) :: w.vks[v] == w0.vks[v])
            && w.vks[t].height == w0.vks[t].height && w.vks[t].tables == w0.vks[t].tables
            && Exact(w)
  {
    MergeWaveOutcome(w0, r, t, version, rAddr, tAddr, ss);
    var w := Ripple(TakeMerge(w0, r, t, version, rAddr, tAddr), ss);
    assert Up(w0, t, 0) == t && Below(w0, t, t) && SettledNode(w0, r, t, w, t);
    forall v | v in w0.vks
      ensures RecordedBelow(w0, v, r) <==> Below(w0, v, r)
      ensures SettledNode(w0, r, t, w, v)
    {
      if Below(w0, v, r) {
        var k: nat :| Up(w0, v, k) == r;
        FirstReach(w0, v, r, k);
      }
      if RecordedBelow(w0, v, r) {
        var k: nat :| RecordedChain(w0, v, k, r);
      }
    }
  }

  /** Where everyone below r is on record, so is every chain up to r. */
  lemma FirstReach(w: World, v: NodeID, r: NodeID, k: nat)
    requires Named(w) && r in w.vks && IsRoot(w.vks[r]) && AllOnRecord(w, r)
    requires Up(w, v, k) == r
    ensures RecordedBelow(w, v, r)
  {
    forall j | 0 <= j < k
      ensures Up(w, v, j) in w.vks && OnRecord(w, Up(w, v, j))
    {
      ChainIsInside(w, v, k, j);
      if Up(w, v, j) == r {
        RootsAreFinal(w, v, j, k, r);
      } else {
        UpAdds(w, v, j, k - j);
        assert Below(w, Up(w, v, j), r);
      }
    }
    assert RecordedChain(w, v, k, r);
  }

  lemma {:induction false} RootsAreFinal(w: World, v: NodeID, k: nat, j: nat, r: NodeID)
    requires Named(w) && r in w.vks && IsRoot(w.vks[r]) && Up(w, v, k) == r && k < j
    ensures Up(w, v, j) == 0
  {
    if j > k + 1 {
      RootsAreFinal(w, v, k, j - 1, r);
    }
  }

  lemma OneRootEach(w: World, v: NodeID, r: NodeID, t: NodeID)
    requires Named(w) && r in w.vks && t in w.vks && r != t && IsRoot(w.vks[r]) && IsRoot(w.vks[t])
    requires Below(w, v, t)
    ensures !Below(w, v, r)
  {
    var j: nat :| Up(w, v, j) == t;
    forall k: nat
      ensures Up(w, v, k) != r
    {
      if Up(w, v, k) == r {
        if k < j {
          RootsAreFinal(w, v, k, j, r);
        } else if j < k {
          RootsAreFinal(w, v, j, k, t);
        }
      }
    }
  }

  // ---- the wave ends ----------------------------------------------------------------------------

  ghost predicate Deliveries(ss: seq<Step>) {
    forall s | s in ss :: s.Deliver?
  }

  /** However the messages are ordered, there are at most as many deliveries as the load says. */
  lemma {:induction false} WaveIsBounded(w0: World, r: NodeID, t: NodeID, up: set<NodeID>, w: World, ss: seq<Step>)
    requires TwoRoots(w0, r, t)
    requires Wave(w0, r, t, up, w) && AllWaveSteps(w, ss) && Deliveries(ss)
    ensures |ss| <= Load(w0, up, w.wire)
    decreases |ss|
  {
    if ss != [] {
      var m, version := ss[0].m, ss[0].version;
      DeliveryKeepsWave(w0, r, t, up, w, m, version);
      WaveIsBounded(w0, r, t, Reached(w0, up, m), Take(w, ss[0]), ss[1..]);
    }
  }

  /** Without duplicated messages a merge takes at most one delivery per child record, besides what was in flight. */
  lemma MergeIsBounded(w0: World, r: NodeID, t: NodeID, version: Version, rAddr: Addr, tAddr: Addr, ss: seq<Step>)
    requires ReadyToMerge(w0, r, t, version, rAddr)
    requires AllWaveSteps(TakeMerge(w0, r, t, version, rAddr, tAddr), ss) && Deliveries(ss)
    ensures |ss| <= |w0.wire| + Records(w0, w0.vks.Keys)
  {
    MergeStartsWave(w0, r, t, version, rAddr, tAddr);
    var w := TakeMerge(w0, r, t, version, rAddr, tAddr);
    WaveIsBounded(w0, r, t, {r}, w, ss);
    FirstMessages(w0, r, t, version, rAddr, tAddr);
    RecordsWithout(w0, w0.vks.Keys, r);
  }

  lemma FirstMessages(w0: World, r: NodeID, t: NodeID, version: Version, rAddr: Addr, tAddr: Addr)
    requires ReadyToMerge(w0, r, t, version, rAddr)
    ensures |TakeMerge(w0, r, t, version, rAddr, tAddr).wire| <= |w0.wire| + |w0.vks[r].tables.cvks|
  {
    MergeStartsWave(w0, r, t, version, rAddr, tAddr);
    var w := TakeMerge(w0, r, t, version, rAddr, tAddr);
    assert w.wire == w0.wire + multiset(FanOut(w.vks[r], {t}));
    FanOutSize(w.vks[r], {t});
    assert w.vks[r].tables.cvks.Keys - {t} == w0.vks[r].tables.cvks.Keys - {t};
    assert |w0.vks[r].tables.cvks.Keys| == |(w0.vks[r].tables.cvks.Keys - {t}) + (w0.vks[r].tables.cvks.Keys * {t})|;
  }

  /** Everyone understands version `version`. */
  ghost predicate Speaks(w: World, version: Version) {
    forall v | v in w.vks :: version in w.vks[v].supported
  }

  lemma DeliveryKeepsSpeech(w: World, m: Increment, version: Version)
    requires Speaks(w, version)
    ensures Speaks(TakeDelivery(w, m, version), version)
  {
  }

  /** The wave can always be brought to its end, whichever message is delivered next. */
  lemma {:induction false} WaveSettles(w0: World, r: NodeID, t: NodeID, up: set<NodeID>, w: World, version: Version)
    returns (ss: seq<Step>)
    requires TwoRoots(w0, r, t)
    requires Wave(w0, r, t, up, w) && Speaks(w, version)
    ensures AllWaveSteps(w, ss) && Deliveries(ss) && Ripple(w, ss).wire == multiset{}
    decreases Load(w0, up, w.wire)
  {
    ss := [];
    if w.wire != multiset{} {
      var m :| m in w.wire;
      DeliveryKeepsWave(w0, r, t, up, w, m, version);
      DeliveryKeepsSpeech(w, m, version);
      var rest := WaveSettles(w0, r, t, Reached(w0, up, m), TakeDelivery(w, m, version), version);
      ss := [Deliver(m, version)] + rest;
      OneMoreDelivery(w, m, version, rest);
    }
  }

  lemma OneMoreDelivery(w: World, m: Increment, version: Version, rest: seq<Step>)
    requires WaveStep(w, Deliver(m, version))
    requires AllWaveSteps(TakeDelivery(w, m, version), rest) && Deliveries(rest)
    ensures var ss := [Deliver(m, version)] + rest;
            AllWaveSteps(w, ss) && Deliveries(ss) && Ripple(w, ss) == Ripple(TakeDelivery(w, m, version), rest)
  {
    assert ([Deliver(m, version)] + rest)[1..] == rest;
  }

  /**
    So when everyone understands the version used, a MERGE between two roots can be completed, with one
    root fewer, and then the whole vault is exact exactly when everyone below the requester was on record.
   */
  lemma MergeCompletes(w0: World, r: NodeID, t: NodeID, version: Version, rAddr: Addr, tAddr: Addr)
    returns (ss: seq<Step>)
    requires ReadyToMerge(w0, r, t, version, rAddr) && Speaks(w0, version)
    ensures AllWaveSteps(TakeMerge(w0, r, t, version, rAddr, tAddr), ss)
    ensures var w := Ripple(TakeMerge(w0, r, t, version, rAddr, tAddr), ss);
            && w.wire == multiset{} && (Exact(w) <==> AllOnRecord(w0, r))
            && w.vks.Keys == w0.vks.Keys
            && forall v | v in w.vks :: IsRoot(w.vks[v]) <==> IsRoot(w0.vks[v]) && v != t
  {
    MergeStartsWave(w0, r, t, version, rAddr, tAddr);
    var w1 := TakeMerge(w0, r, t, version, rAddr, tAddr);
    MergeKeepsSpeech(w0, r, t, version, rAddr, tAddr);
    ss := WaveSettles(w0, r, t, {r}, w1, version);
    MergeWaveOutcome(w0, r, t, version, rAddr, tAddr, ss);
    OneRootFewer(w0, r, t, Ripple(w1, ss));
  }

  lemma OneRootFewer(w0: World, r: NodeID, t: NodeID, w: World)
    requires w.vks.Keys == w0.vks.Keys && 0 !in w0.vks && r in w0.vks
    requires forall v | v in w0.vks :: SettledNode(w0, r, t, w, v)
    ensures forall v | v in w.vks :: IsRoot(w.vks[v]) <==> IsRoot(w0.vks[v]) && v != t
  {
    assert forall v | v in w.vks :: SettledNode(w0, r, t, w, v);
  }

  lemma MergeKeepsSpeech(w: World, r: NodeID, t: NodeID, version: Version, rAddr: Addr, tAddr: Addr)
    requires Speaks(w, version) && r in w.vks && t in w.vks && r != t
    ensures Speaks(TakeMerge(w, r, t, version, rAddr, tAddr), version)
  {
  }

  /** A JOIN by a root adds one exact link, on record, or none. */
  lemma JoinKeepsExact(w: World, c: NodeID, p: NodeID, version: Version, cAddr: Addr, pAddr: Addr)
    requires Exact(w) && c in w.vks && p in w.vks && c != p && IsRoot(w.vks[c])
    ensures var w' := TakeJoin(w, c, p, version, cAddr, pAddr);
            Exact(w') && forall v | v in w.vks && OnRecord(w, v) :: OnRecord(w', v)
  {
    var w' := TakeJoin(w, c, p, version, cAddr, pAddr);
    JoinLinks(w, c, p, version, cAddr, pAddr);
    JoinRecords(w, c, p, version, cAddr, pAddr);
    forall v | v in w'.vks
      ensures ExactLink(w', v) && (OnRecord(w, v) ==> OnRecord(w', v))
    {
      assert ExactLink(w, v);
    }
  }

  lemma JoinRecords(w: World, c: NodeID, p: NodeID, version: Version, cAddr: Addr, pAddr: Addr)
    requires Named(w) && c in w.vks && p in w.vks && c != p && IsRoot(w.vks[c])
    ensures var w' := TakeJoin(w, c, p, version, cAddr, pAddr);
            && w'.vks[c].tables == w.vks[c].tables
            && w.vks[p].tables.cvks.Keys <= w'.vks[p].tables.cvks.Keys
            && (w'.vks[c].parentID != 0 ==> c in w'.vks[p].tables.cvks)
  {
    JoinKeepsStructure(w.vks[p], Request(false, version, c), JoinRequest(w, c, cAddr));
  }

  // ---- when a record has expired ------------------------------------------------------------------

  /** Vaultkeeper 3 has joined 1; vaultkeeper 2 stands alone. */
  function Joined(v: Version): World {
    var w0 := World(map[1 := Fresh(1, {v}, 1), 2 := Fresh(2, {v}, 1), 3 := Fresh(3, {v}, 0)], multiset{});
    var w1 := Take(w0, Local(1, Hello(Request(false, v, 3), false)));
    Take(w1, JoinVault(3, 1, v, "vk3", "vk1"))
  }

  /** After that, the record of 3 at 1 has expired, and 1 has greeted 2. */
  function ExpiredRecord(v: Version): World {
    JoinedIs(v);
    var w := Take(Joined(v), Local(1, ExpireCVK(3)));
    Take(w, Local(2, Hello(Request(false, v, 1), false)))
  }

  lemma JoinedIs(v: Version)
    ensures var w := Joined(v);
            && w.vks.Keys == {1, 2, 3} && w.wire == multiset{}
            && w.vks[2] == Fresh(2, {v}, 1)
            && w.vks[3] == JoinAccepted(Fresh(3, {v}, 0), 1, "vk1")
            && w.vks[1] == Fresh(1, {v}, 1).(tables := w.vks[1].tables, greeted := w.vks[1].greeted,
                                             installed := w.vks[1].installed)
            && RemoveCVK(w.vks[1].tables, 3) == EMPTY_TABLES
  {
    var n1 := ServeHello(Fresh(1, {v}, 1), Request(false, v, 3), false).0;
    JoinOfFresh(n1, 3, v);
  }

  lemma ExpiredRecordIs(v: Version)
    ensures Stranded(ExpiredRecord(v), v)
  {
    JoinedIs(v);
    var w := Take(Joined(v), Local(1, ExpireCVK(3)));
    assert Bare(w.vks[1], 1, v) && Bare(w.vks[2], 2, v) && Bare(w.vks[3], 3, v);
    assert Apply(w.vks[2], Hello(Request(false, v, 1), false)).hellos == {1};
  }

  /** 3 hangs below 1 without being on record, and 2 is ready for a MERGE from 1. */
  predicate Stranded(w: World, v: Version) {
    && w.vks.Keys == {1, 2, 3} && w.wire == multiset{}
    && Bare(w.vks[1], 1, v) && Bare(w.vks[2], 2, v) && Bare(w.vks[3], 3, v)
    && w.vks[1].height == 1 && w.vks[2].height == 1 && w.vks[3].height == 0
    && w.vks[1].parentID == 0 && w.vks[2].parentID == 0 && w.vks[3].parentID == 1
    && w.vks[2].parentAddr == None && 1 in w.vks[2].hellos
  }

  predicate Bare(n: Node, id: NodeID, v: Version) {
    n.id == id && n.supported == {v} && n.tables == EMPTY_TABLES
  }

  lemma JoinOfFresh(n: Node, c: NodeID, v: Version)
    requires v in n.supported && c in n.hellos && n.tables == EMPTY_TABLES && n.height == 1
    ensures var (n', reply) := ServeJoin(n, Request(false, v, c), Present(JoinBody(true, 0, Some("vk3"))));
            reply.Accepted? && RemoveCVK(n'.tables, c) == EMPTY_TABLES
            && n' == n.(tables := n'.tables, hellos := n.hellos - {c}, installed := n'.installed)
  {
    assert Without(map[], {}, c) == map[] && SoleProvided(map[], {}, c) == {};
  }

  /**
    The condition cannot be dropped: from new vaultkeepers, an expired record makes the wave pass by a
    child that still has its parent, with no message lost, and leaves it two levels below.
   */
  lemma ExpiredRecordMissesWave(v: Version)
    ensures var w := ExpiredRecord(v);
            && ReadyToMerge(w, 1, 2, v, "vk1") && Speaks(w, v) && w.wire == multiset{}
            && w.vks[3].parentID == 1 && !OnRecord(w, 3)
    ensures var w' := TakeMerge(ExpiredRecord(v), 1, 2, v, "vk1", "vk2");
            && w'.wire == multiset{} && !Exact(w')
            && w'.vks[3].parentID == 1 && w'.vks[1].height == 2 && w'.vks[3].height == 0
  {
    ExpiredRecordIs(v);
    StrandedIsMissed(ExpiredRecord(v), v);
  }

  lemma StrandedIsMissed(w: World, v: Version)
    requires Stranded(w, v)
    ensures ReadyToMerge(w, 1, 2, v, "vk1") && Speaks(w, v) && !OnRecord(w, 3)
    ensures var w' := TakeMerge(w, 1, 2, v, "vk1", "vk2");
            && w'.wire == multiset{} && !Exact(w')
            && w'.vks[3].parentID == 1 && w'.vks[1].height == 2 && w'.vks[3].height == 0
  {
    assert forall x | x in w.vks :: ExactLink(w, x) && LinkRises(w, x);
    MergeAcceptedIff(w.vks[2], Request(false, v, 1), MergeRequest(w, 1, "vk1"), None);
    AcceptedMerge(w, 1, 2, v, "vk1", "vk2");
    MergeSends(w, 1, 2, v, "vk1", "vk2");
    var w' := TakeMerge(w, 1, 2, v, "vk1", "vk2");
    assert w'.wire == multiset{} by {
      assert forall m | m in w'.wire :: false;
    }
    assert !ExactLink(w', 3);
  }
}
