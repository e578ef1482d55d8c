/**
  Hand-off routing of GET and LIST: a vaultkeeper that does not answer passes the request to its parent
  and forgets it. With forwards delivered, routing is a walk up the parent links.
 */
module Routing {
  import opened Basics
  import opened Versions
  import opened ChildTables
  import opened VaultNode
  import opened Vault

  /** Where a request ends: at a vaultkeeper that answers the client, or unanswered. */
  datatype End<+T> = AnsweredBy(vk: NodeID, value: T) | Unanswered

  /** A parent address goes with a parent ID. */
  ghost predicate Addressed(w: World) {
    && 0 !in w.vks
    && forall v | v in w.vks :: w.vks[v].id == v && (w.vks[v].parentAddr.Some? <==> w.vks[v].parentID != 0)
  }

  /** `hops` counts the vaultkeepers a request may visit; zero counts as one. */
  function Reach(hops: uint32): nat {
    if hops == 0 then 1 else hops
  }

  /** The request gets as far as k links up. */
  ghost predicate Climbs(w: World, v: NodeID, hops: uint32, k: nat) {
    k < Reach(hops) && forall j | 0 <= j <= k :: Up(w, v, j) in w.vks
  }

  /** Nothing is left to climb after k links: hops are used up or a root is reached. */
  predicate AtEnd(w: World, v: NodeID, hops: uint32, k: nat) {
    k + 1 == Reach(hops) || Up(w, v, k + 1) == 0
  }

  // ---- GET --------------------------------------------------------------------------------------

  /**
    A GET with header ID `from` arrives at v. The dispatcher ignores packets carrying v's own ID;
    forwarded requests carry the library's own version.
   */
  function RouteGet(w: World, v: NodeID, from: NodeID, version: Version, body: GetBody, lib: Version): End<GetAnswer>
    decreases body.hops
  {
    if v !in w.vks || from == v then Unanswered
    else
      match ServeGet(w.vks[v], version, Present(body))
      case Answered(a) => AnsweredBy(v, a)
      case Forwarded(h) =>
        if h < body.hops then RouteGet(w, w.vks[v].parentID, v, lib, body.(hops := h), lib) else Unanswered
      case _ => Unanswered
  }

  predicate Knows(w: World, v: NodeID, s: Service) {
    v in w.vks && s in w.vks[v].tables.all
  }

  /** The GET stops k links up: at the first vaultkeeper that knows the service, or else at the end of the climb. */
  ghost predicate GetStopsAt(w: World, v: NodeID, s: Service, hops: uint32, k: nat) {
    && Climbs(w, v, hops, k)
    && (forall j | 0 <= j < k :: !Knows(w, Up(w, v, j), s))
    && (Knows(w, Up(w, v, k), s) || AtEnd(w, v, hops, k))
  }

  /** The vaultkeeper j links up takes the request from below: its version is supported and the ID is not its own. */
  predicate TakesGet(w: World, v: NodeID, from: NodeID, version: Version, lib: Version, j: nat) {
    var u := Up(w, v, j);
    && u in w.vks
    && (if j == 0 then version else lib) in w.vks[u].supported
    && (if j == 0 then from else Up(w, v, j - 1)) != u
  }

  /** What the last vaultkeeper answers. */
  function GetAnswerOf(w: World, u: NodeID, s: Service): GetAnswer {
    if Knows(w, u, s) then Found(w.vks[u].tables.all[s].Values) else NotFound
  }

  /**
    GET refines the walk up the ancestor chain: it is answered, by the vaultkeeper where the walk stops,
    exactly when everyone on the way takes it. No acyclicity is needed.
   */
  lemma {:induction false} GetRefinesWalk(w: World, v: NodeID, from: NodeID, version: Version, body: GetBody,
                                          lib: Version, k: nat)
    requires Addressed(w) && body.token != "" && body.respAddr.Some?
    requires GetStopsAt(w, v, body.service, body.hops, k)
    ensures RouteGet(w, v, from, version, body, lib) ==
            if forall j | 0 <= j <= k :: TakesGet(w, v, from, version, lib, j)
            then AnsweredBy(Up(w, v, k), GetAnswerOf(w, Up(w, v, k), body.service))
            else Unanswered
    decreases k
  {
    assert Up(w, v, 0) == v && Up(w, v, 1) == w.vks[v].parentID;
    GetHop(w, v, from, version, body, lib);
    if TakesGet(w, v, from, version, lib, 0) && k > 0 {
      var p, body' := w.vks[v].parentID, body.(hops := body.hops - 1);
      assert !Knows(w, v, body.service) && p in w.vks;
      GetMovesUp(w, v, body, k);
      GetRefinesWalk(w, p, v, lib, body', lib, k - 1);
      UpShift(w, v, k - 1);
      TakersShift(w, v, from, version, lib, k);
    }
  }

  /** One hop: dropped, answered, or passed on. */
  lemma GetHop(w: World, v: NodeID, from: NodeID, version: Version, body: GetBody, lib: Version)
    requires Addressed(w) && v in w.vks && body.token != "" && body.respAddr.Some?
    ensures RouteGet(w, v, from, version, body, lib) ==
            if version !in w.vks[v].supported || from == v then Unanswered
            else if Knows(w, v, body.service) || body.hops <= 1 || w.vks[v].parentID == 0
            then AnsweredBy(v, GetAnswerOf(w, v, body.service))
            else RouteGet(w, w.vks[v].parentID, v, lib, body.(hops := body.hops - 1), lib)
  {
  }

  lemma GetMovesUp(w: World, v: NodeID, body: GetBody, k: nat)
    requires v in w.vks && k > 0 && GetStopsAt(w, v, body.service, body.hops, k)
    ensures body.hops > 1 && GetStopsAt(w, w.vks[v].parentID, body.service, body.hops - 1, k - 1)
  {
    var p := w.vks[v].parentID;
    forall j: nat
      ensures Up(w, p, j) == Up(w, v, j + 1)
    {
      UpShift(w, v, j);
    }
  }

  lemma TakersShift(w: World, v: NodeID, from: NodeID, version: Version, lib: Version, k: nat)
    requires v in w.vks && k > 0 && TakesGet(w, v, from, version, lib, 0)
    ensures (forall j | 0 <= j <= k :: TakesGet(w, v, from, version, lib, j)) <==>
            (forall j | 0 <= j <= k - 1 :: TakesGet(w, w.vks[v].parentID, v, lib, lib, j))
  {
    var p := w.vks[v].parentID;
    forall j: nat
      ensures TakesGet(w, p, v, lib, lib, j) <==> TakesGet(w, v, from, version, lib, j + 1)
    {
      UpShift(w, v, j);
      if j > 0 {
        UpShift(w, v, j - 1);
      }
    }
    if forall j | 0 <= j <= k - 1 :: TakesGet(w, p, v, lib, lib, j) {
      forall j | 0 <= j <= k
        ensures TakesGet(w, v, from, version, lib, j)
      {
        assert j > 0 ==> TakesGet(w, p, v, lib, lib, j - 1);
      }
    }
  }

  /** A walk always stops somewhere, within the hop limit, whatever the parent links look like. */
  lemma {:induction false} GetStops(w: World, v: NodeID, s: Service, hops: uint32) returns (k: nat)
    requires v in w.vks && forall u | u in w.vks :: w.vks[u].parentID == 0 || w.vks[u].parentID in w.vks
    ensures GetStopsAt(w, v, s, hops, k)
    decreases hops
  {
    assert Up(w, v, 0) == v && Up(w, v, 1) == w.vks[v].parentID;
    if Knows(w, v, s) || hops <= 1 || w.vks[v].parentID == 0 {
      k := 0;
    } else {
      var p := w.vks[v].parentID;
      var k' := GetStops(w, p, s, hops - 1);
      k := k' + 1;
      forall j: nat
        ensures Up(w, p, j) == Up(w, v, j + 1)
      {
        UpShift(w, v, j);
      }
      forall j | 0 <= j <= k
        ensures Up(w, v, j) in w.vks && (j < k ==> !Knows(w, Up(w, v, j), s))
      {
        if j > 0 {
          assert Up(w, p, j - 1) in w.vks;
          assert j < k ==> !Knows(w, Up(w, p, j - 1), s);
        }
      }
    }
  }

  /**
    In a vault whose heights rise and whose vaultkeepers all speak the versions used, every GET from
    outside is answered where the walk stops; a found answer carries an address listed there.
   */
  lemma GetIsAnswered(w: World, v: NodeID, from: NodeID, version: Version, body: GetBody, lib: Version) returns (k: nat)
    requires Addressed(w) && Rising(w) && v in w.vks && from !in w.vks
    requires body.token != "" && body.respAddr.Some?
    requires forall u | u in w.vks :: version in w.vks[u].supported && lib in w.vks[u].supported
    requires forall u | u in w.vks :: Agrees(w.vks[u].tables)
    ensures GetStopsAt(w, v, body.service, body.hops, k)
    ensures var u := Up(w, v, k);
            && RouteGet(w, v, from, version, body, lib) == AnsweredBy(u, GetAnswerOf(w, u, body.service))
            && (Knows(w, u, body.service) ==> w.vks[u].tables.all[body.service].Values != {})
  {
    assert forall u | u in w.vks :: LinkRises(w, u);
    k := GetStops(w, v, body.service, body.hops);
    forall j | 0 <= j <= k
      ensures TakesGet(w, v, from, version, lib, j)
    {
      if j > 0 {
        assert Up(w, v, j - 1) in w.vks && LinkRises(w, Up(w, v, j - 1));
      }
    }
    GetRefinesWalk(w, v, from, version, body, lib, k);
    var u := Up(w, v, k);
    if Knows(w, u, body.service) {
      var c :| c in w.vks[u].tables.all[body.service];
      assert w.vks[u].tables.all[body.service][c] in w.vks[u].tables.all[body.service].Values;
    }
  }

  // ---- LIST -------------------------------------------------------------------------------------

  /** A LIST marks its token at every vaultkeeper that handles it; the version of the header is passed on. */
  function RouteList(w: World, v: NodeID, from: NodeID, version: Version, body: ListBody): (World, End<set<Service>>)
    decreases body.hops
  {
    if v !in w.vks || from == v then (w, Unanswered)
    else
      var (n, outcome) := ServeList(w.vks[v], version, Present(body), true);
      var w1 := w.(vks := w.vks[v := n]);
      match outcome
      case Answered(names) => (w1, AnsweredBy(v, names))
      case Forwarded(h) =>
        if h < body.hops then RouteList(w1, w.vks[v].parentID, v, version, body.(hops := h)) else (w1, Unanswered)
      case _ => (w1, Unanswered)
  }

  /** The LIST stops k links up: at chain position min(hop count, distance to the root). */
  ghost predicate ListStopsAt(w: World, v: NodeID, hops: uint32, k: nat) {
    Climbs(w, v, hops, k) && AtEnd(w, v, hops, k)
  }

  /** The vaultkeeper j links up has not seen the token, and has not been visited further down. */
  predicate TakesList(w: World, v: NodeID, version: Version, token: string, j: nat) {
    var u := Up(w, v, j);
    && u in w.vks
    && version in w.vks[u].supported
    && token !in w.vks[u].closed
    && forall i | 0 <= i < j :: Up(w, v, i) != u
  }

  ghost predicate AllTakeList(w: World, v: NodeID, version: Version, token: string, k: nat) {
    forall j | 0 <= j <= k :: TakesList(w, v, version, token, j)
  }

  /**
    LIST refines the walk to the end of the climb: it is answered there, with every service name listed,
    exactly when everyone on the way supports the version, is new to the token, and is met only once.
   */
  lemma {:induction false} ListRefinesWalk(w: World, v: NodeID, from: NodeID, version: Version, body: ListBody, k: nat)
    requires Addressed(w) && from != v && body.token != "" && body.respAddr.Some?
    requires ListStopsAt(w, v, body.hops, k)
    ensures RouteList(w, v, from, version, body).1 ==
            if AllTakeList(w, v, version, body.token, k)
            then AnsweredBy(Up(w, v, k), w.vks[Up(w, v, k)].tables.all.Keys)
            else Unanswered
    decreases k
  {
    assert Up(w, v, 0) == v && Up(w, v, 1) == w.vks[v].parentID;
    ListHop(w, v, from, version, body);
    if TakesList(w, v, version, body.token, 0) && k > 0 {
      var p := w.vks[v].parentID;
      ListClimbs(w, v, version, body, k);
      if p == v {
        assert !TakesList(w, v, version, body.token, 1);
      } else {
        ListRefinesWalk(Marked(w, v, body.token), p, v, version, body.(hops := body.hops - 1), k - 1);
      }
    }
  }

  /** After the first hop the rest of the climb is a climb from the parent, in the vault with the token marked. */
  lemma ListClimbs(w: World, v: NodeID, version: Version, body: ListBody, k: nat)
    requires Addressed(w) && v in w.vks && k > 0
    requires ListStopsAt(w, v, body.hops, k) && TakesList(w, v, version, body.token, 0)
    ensures var w1, p := Marked(w, v, body.token), w.vks[v].parentID;
            && body.hops > 1 && p in w.vks && Addressed(w1)
            && ListStopsAt(w1, p, body.hops - 1, k - 1)
            && Up(w1, p, k - 1) == Up(w, v, k)
            && Up(w, v, k) in w.vks && w1.vks[Up(w, v, k)].tables == w.vks[Up(w, v, k)].tables
            && (AllTakeList(w, v, version, body.token, k) <==> AllTakeList(w1, p, version, body.token, k - 1))
  {
    MarkedAddressed(w, v, body.token);
    ListMovesUp(w, v, body.token, body.hops, k);
    ListTakersShift(w, v, version, body.token, k);
    UpShift(w, v, k - 1);
    SameUp(w, Marked(w, v, body.token), w.vks[v].parentID, k - 1);
    assert Up(w, v, 0) == v && Up(w, v, 1) in w.vks;
  }

  function Marked(w: World, v: NodeID, token: string): World
    requires v in w.vks
  {
    w.(vks := w.vks[v := w.vks[v].(closed := w.vks[v].closed + {token})])
  }

  /** One hop: dropped, answered, or marked and passed on. */
  lemma ListHop(w: World, v: NodeID, from: NodeID, version: Version, body: ListBody)
    requires Addressed(w) && v in w.vks && from != v && body.token != "" && body.respAddr.Some?
    ensures RouteList(w, v, from, version, body).1 ==
            if version !in w.vks[v].supported || body.token in w.vks[v].closed then Unanswered
            else if body.hops <= 1 || w.vks[v].parentID == 0 then AnsweredBy(v, w.vks[v].tables.all.Keys)
            else RouteList(Marked(w, v, body.token), w.vks[v].parentID, v, version, body.(hops := body.hops - 1)).1
  {
  }

  lemma {:induction false} SameUp(w: World, w1: World, u: NodeID, j: nat)
    requires w1.vks.Keys == w.vks.Keys && forall u | u in w.vks :: w1.vks[u].parentID == w.vks[u].parentID
    ensures Up(w1, u, j) == Up(w, u, j)
  {
    if j > 0 {
      SameUp(w, w1, u, j - 1);
    }
  }

  lemma MarkedAddressed(w: World, v: NodeID, token: string)
    requires Addressed(w) && v in w.vks
    ensures Addressed(Marked(w, v, token))
  {
  }

  /** Walking up from the parent in the marked vault is walking up from v, one link behind. */
  lemma MarkedUp(w: World, v: NodeID, token: string, j: nat)
    requires v in w.vks
    ensures Up(Marked(w, v, token), w.vks[v].parentID, j) == Up(w, v, j + 1)
  {
    SameUp(w, Marked(w, v, token), w.vks[v].parentID, j);
    UpShift(w, v, j);
  }

  lemma ListMovesUp(w: World, v: NodeID, token: string, hops: uint32, k: nat)
    requires v in w.vks && k > 0 && ListStopsAt(w, v, hops, k)
    ensures hops > 1 && ListStopsAt(Marked(w, v, token), w.vks[v].parentID, hops - 1, k - 1)
  {
    forall j: nat
      ensures Up(Marked(w, v, token), w.vks[v].parentID, j) == Up(w, v, j + 1)
    {
      MarkedUp(w, v, token, j);
    }
  }

  lemma ListTakersShift(w: World, v: NodeID, version: Version, token: string, k: nat)
    requires v in w.vks && k > 0 && TakesList(w, v, version, token, 0)
    ensures (forall j | 0 <= j <= k :: TakesList(w, v, version, token, j)) <==>
            (forall j | 0 <= j <= k - 1 :: TakesList(Marked(w, v, token), w.vks[v].parentID, version, token, j))
  {
    var w1, p := Marked(w, v, token), w.vks[v].parentID;
    forall j: nat
      ensures TakesList(w1, p, version, token, j) <==> TakesList(w, v, version, token, j + 1)
    {
      TakerShifts(w, v, version, token, j);
    }
    if forall j | 0 <= j <= k - 1 :: TakesList(w1, p, version, token, j) {
      forall j | 0 <= j <= k
        ensures TakesList(w, v, version, token, j)
      {
        assert j > 0 ==> TakesList(w1, p, version, token, j - 1);
      }
    }
  }

  /** Being new to the token after v has marked it is the same as being new to it and not v. */
  lemma TakerShifts(w: World, v: NodeID, version: Version, token: string, j: nat)
    requires v in w.vks
    ensures TakesList(Marked(w, v, token), w.vks[v].parentID, version, token, j) <==>
            TakesList(w, v, version, token, j + 1)
  {
    var w1, p := Marked(w, v, token), w.vks[v].parentID;
    forall i: nat
      ensures Up(w1, p, i) == Up(w, v, i + 1)
    {
      MarkedUp(w, v, token, i);
    }
    assert Up(w, v, 0) == v;
    var u := Up(w, v, j + 1);
    if forall i | 0 <= i < j :: Up(w1, p, i) != u {
      forall i | 0 < i < j + 1
        ensures Up(w, v, i) != u
      {
        assert Up(w1, p, i - 1) != u;
      }
    }
    if forall i | 0 <= i < j + 1 :: Up(w, v, i) != u {
      forall i | 0 <= i < j
        ensures Up(w1, p, i) != u
      {
        assert Up(w, v, i + 1) != u;
      }
    }
  }

  /** What a LIST answer holds: exactly the names some child of the answering vaultkeeper offers. */
  lemma ListedNamesAreOffered(t: Tables, s: Service)
    requires Agrees(t)
    ensures s in t.all.Keys <==> exists c :: Offers(t, c, s).Some?
  {
    if s in t.all {
      var c :| c in t.all[s];
      assert Listed(t.all, s, c) == Offers(t, c, s);
    }
    if exists c :: Offers(t, c, s).Some? {
      var c :| Offers(t, c, s).Some?;
      assert Listed(t.all, s, c) == Offers(t, c, s);
    }
  }

  /** A climb always ends somewhere, whatever the parent links look like. */
  lemma {:induction false} ListStops(w: World, v: NodeID, hops: uint32) returns (k: nat)
    requires v in w.vks && forall u | u in w.vks :: w.vks[u].parentID == 0 || w.vks[u].parentID in w.vks
    ensures ListStopsAt(w, v, hops, k)
    decreases hops
  {
    assert Up(w, v, 0) == v && Up(w, v, 1) == w.vks[v].parentID;
    if hops <= 1 || w.vks[v].parentID == 0 {
      k := 0;
    } else {
      var p := w.vks[v].parentID;
      var k' := ListStops(w, p, hops - 1);
      k := k' + 1;
      forall j: nat
        ensures Up(w, p, j) == Up(w, v, j + 1)
      {
        UpShift(w, v, j);
      }
      assert forall j | 0 < j <= k :: Up(w, p, j - 1) == Up(w, v, j);
    }
  }

  /** Where heights rise, nobody is met twice: every LIST with a fresh token is answered at the end of its climb. */
  lemma ListIsAnswered(w: World, v: NodeID, from: NodeID, version: Version, body: ListBody) returns (k: nat)
    requires Addressed(w) && Rising(w) && v in w.vks && from !in w.vks
    requires body.token != "" && body.respAddr.Some?
    requires forall u | u in w.vks :: version in w.vks[u].supported && body.token !in w.vks[u].closed
    ensures ListStopsAt(w, v, body.hops, k)
    ensures RouteList(w, v, from, version, body).1 == AnsweredBy(Up(w, v, k), w.vks[Up(w, v, k)].tables.all.Keys)
  {
    assert forall u | u in w.vks :: LinkRises(w, u);
    k := ListStops(w, v, body.hops);
    ListIsAnsweredAt(w, v, from, version, body, k);
  }

  lemma ListIsAnsweredAt(w: World, v: NodeID, from: NodeID, version: Version, body: ListBody, k: nat)
    requires Addressed(w) && Rising(w) && from !in w.vks
    requires body.token != "" && body.respAddr.Some?
    requires forall u | u in w.vks :: version in w.vks[u].supported && body.token !in w.vks[u].closed
    requires ListStopsAt(w, v, body.hops, k)
    ensures RouteList(w, v, from, version, body).1 == AnsweredBy(Up(w, v, k), w.vks[Up(w, v, k)].tables.all.Keys)
  {
    assert Up(w, v, 0) == v;
    forall j | 0 <= j <= k
      ensures TakesList(w, v, version, body.token, j)
    {
      forall i | 0 <= i < j
        ensures Up(w, v, i) != Up(w, v, j)
      {
        UpAdds(w, v, i, j - i);
        ParentLinksAreAcyclic(w, Up(w, v, i), j - i);
      }
    }
    ListRefinesWalk(w, v, from, version, body, k);
  }
}
