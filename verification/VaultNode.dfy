/**
  One vaultkeeper as a value, and each packet handler as a function from the old value to the new one.
  Bodies arrive already decoded (or marked absent or malformed), and every choice that timers or map
  order make at run time is an argument.
 */
module VaultNode {
  import opened Basics
  import opened Versions
  import opened ChildTables

  /**
    `parentID` is 0 and `parentAddr` None at a root. `hellos` are the pending HELLOs, `closed` the LIST
    tokens seen recently. `greeted` counts the HELLOs served per ID; `installed` counts the children
    installed by JOIN and the parents accepted by MERGE per ID.
   */
  datatype Node = Node(
    id: NodeID,
    supported: set<Version>,
    height: uint16,
    parentID: NodeID,
    parentAddr: Option<Addr>,
    hellos: set<NodeID>,
    closed: set<string>,
    tables: Tables,
    greeted: multiset<NodeID>,
    installed: multiset<NodeID>)

  /** A new vaultkeeper is a root without children; `hoard` is its configured initial height. */
  function Fresh(id: NodeID, supported: set<Version>, hoard: uint16): Node {
    Node(id, supported, hoard, 0, None, {}, {}, EMPTY_TABLES, multiset{}, multiset{})
  }

  datatype Request = Request(shorthand: bool, version: Version, id: NodeID)

  datatype JoinBody = JoinBody(isVk: bool, height: uint32, vkAddr: Option<Addr>)
  /** `vkAddress` is None when the field is missing, Some(None) when it does not parse. */
  datatype MergeBody = MergeBody(height: uint32, vkAddress: Option<Option<Addr>>)
  datatype RegisterBody = RegisterBody(service: Service, stale: Option<int>, addr: Option<Addr>)
  datatype ListBody = ListBody(token: string, hops: uint32, respAddr: Option<Addr>)
  datatype GetBody = GetBody(token: string, service: Service, hops: uint32, respAddr: Option<Addr>)

  /** An INCREMENT on the wire, addressed to a child VK. */
  datatype Increment = Increment(from: NodeID, dest: NodeID, newHeight: uint32)

  // ---- HELLO, JOIN ------------------------------------------------------------------------------

  function ServeHello(n: Node, req: Request, hasBody: bool): (Node, Reply) {
    if req.shorthand then (n, Refused(ShorthandNotAccepted))
    else if hasBody then (n, Refused(BodyNotAccepted))
    else (n.(hellos := n.hellos + {req.id}, greeted := n.greeted + multiset{req.id}),
          Accepted(OwnHeight(n.height)))
  }

  function ServeJoin(n: Node, req: Request, body: Body<JoinBody>): (Node, Reply) {
    if req.shorthand then (n, Refused(ShorthandNotAccepted))
    else if body.Absent? then (n, Refused(BodyRequired))
    else if req.version !in n.supported then (n, Refused(VersionNotSupported))
    else if body.Malformed? then (n, Refused(MalformedBody))
    else if body.value.isVk then JoinVK(n, req.id, body.value)
    else JoinLeaf(n, req.id)
  }

  function JoinVK(n: Node, id: NodeID, j: JoinBody): (Node, Reply) {
    if j.height != Pred32(n.height) then (n, Refused(BadHeight))
    else if j.vkAddr.None? then (n, Refused(MalformedAddress))
    else if id in n.tables.cvks then (n, Accepted(OwnHeight(n.height)))  // refreshed
    else if id !in n.hellos then (n, Refused(HelloRequired))
    else
      var n1 := n.(hellos := n.hellos - {id});
      if id in n.tables.leaves then (n1, Refused(IdInUse))
      else (n1.(tables := AddCVK(n.tables, id, j.vkAddr.value), installed := n.installed + multiset{id}),
            Accepted(OwnHeight(n.height)))
  }

  function JoinLeaf(n: Node, id: NodeID): (Node, Reply) {
    if id !in n.hellos then (n, Refused(HelloRequired))
    else
      var n1 := n.(hellos := n.hellos - {id});
      if id in n.tables.cvks then (n1, Refused(IdInUse))
      else if id in n.tables.leaves then (n1, Accepted(OwnHeight(n.height)))  // already known
      else (n1.(tables := AddLeaf(n.tables, id), installed := n.installed + multiset{id}),
            Accepted(OwnHeight(n.height)))
  }

  /**
    JOIN is accepted exactly from a child of the right height (a VK's 32-bit height must be one below, in
    32-bit arithmetic) that is already known or has greeted and is not known as the other kind.
   */
  lemma JoinAcceptedIff(n: Node, req: Request, j: JoinBody)
    ensures ServeJoin(n, req, Present(j)).1.Accepted? <==>
            && !req.shorthand && req.version in n.supported
            && if j.isVk
               then && (j.height + 1 == n.height || (n.height == 0 && j.height + 1 == TWO_TO_32))
                    && j.vkAddr.Some?
                    && (req.id in n.tables.cvks || (req.id in n.hellos && req.id !in n.tables.leaves))
               else req.id in n.hellos && req.id !in n.tables.cvks
  {
  }

  /** One HELLO admits one JOIN: a leaf that joins again must greet again, a VK is merely refreshed. */
  lemma HelloAdmitsOneJoin(n: Node, req: Request, j: JoinBody)
    requires !req.shorthand && req.version in n.supported
    requires req.id !in n.tables.leaves && req.id !in n.tables.cvks
    ensures var n1 := ServeHello(n, req, false).0;
            var (n2, first) := ServeJoin(n1, req, Present(j));
            && (first.Accepted? <==> j.isVk ==> j.height == Pred32(n.height) && j.vkAddr.Some?)
            && (first.Accepted? ==>
                  && req.id !in n2.hellos
                  && n2.tables.cvks.Keys == n.tables.cvks.Keys + (if j.isVk then {req.id} else {})
                  && n2.tables.leaves.Keys == n.tables.leaves.Keys + (if j.isVk then {} else {req.id})
                  && ServeJoin(n2, req, Present(j)) == (n2, if j.isVk then first else Refused(HelloRequired)))
  {
  }

  // ---- MERGE, INCREMENT -------------------------------------------------------------------------

  function DropParent(n: Node): Node {
    n.(parentID := 0, parentAddr := None)
  }

  function MergeHeight(body: Body<MergeBody>): uint32 {
    if body.Present? then body.value.height else 0
  }

  /** The address given in the body, else the sender's; an absent body yields none that parses. */
  function MergeAddr(body: Body<MergeBody>, sender: Option<Addr>): Option<Addr> {
    if !body.Present? then None
    else if body.value.vkAddress.Some? then body.value.vkAddress.value
    else sender
  }

  function ServeMerge(n: Node, req: Request, body: Body<MergeBody>, sender: Option<Addr>): (Node, Reply) {
    if req.shorthand then (n, Refused(ShorthandNotAccepted))
    else if req.version !in n.supported then (n, Refused(VersionNotSupported))
    else if n.parentID == req.id then
      if body.Malformed? then (n, Refused(MalformedBody))
      else if MergeHeight(body) != n.height then (DropParent(n), Refused(BadHeight))
      else (n, Accepted(OwnHeight(n.height)))  // our earlier acceptance was lost
    else if n.parentAddr.Some? then (n, Refused(NotRoot))
    else if req.id !in n.hellos then (n, Refused(HelloRequired))
    else
      var n1 := n.(hellos := n.hellos - {req.id});
      if req.id in n.tables.leaves || req.id in n.tables.cvks then (n1, Refused(IdInUse))
      else if body.Malformed? then (n1, Refused(MalformedBody))
      else if MergeHeight(body) != n.height then (n1, Refused(BadHeight))
      else if MergeHeight(body) > MAX_UINT16 - 1 then (n1, Refused(BadHeight))
      else if MergeAddr(body, sender).None? then (n1, Refused(MalformedAddress))
      else (n1.(parentID := req.id, parentAddr := MergeAddr(body, sender),
                installed := n.installed + multiset{req.id}), Accepted(OwnHeight(n.height)))
  }

  /**
    MERGE is accepted exactly at equal heights, either from the present parent, or by a root with room to
    rise from a greeted stranger whose address is known. A missing body means height 0 and no address.
   */
  lemma MergeAcceptedIff(n: Node, req: Request, body: Body<MergeBody>, sender: Option<Addr>)
    ensures ServeMerge(n, req, body, sender).1.Accepted? <==>
            && !req.shorthand && req.version in n.supported && !body.Malformed?
            && (if body.Absent? then n.height == 0 else body.value.height == n.height)
            && (n.parentID == req.id
                || (&& n.parentAddr.None? && n.height < MAX_UINT16
                    && req.id in n.hellos && req.id !in n.tables.leaves && req.id !in n.tables.cvks
                    && body.Present?
                    && match body.value.vkAddress
                       case Some(given) => given.Some?
                       case None => sender.Some?))
  {
  }

  /**
    A stranger whose MERGE is accepted becomes the parent, at the address the MERGE carries, whoever seems
    to have sent it; at the sender's only when it carries none. An address that does not parse is refused.
   */
  lemma MergeTakesAddress(n: Node, req: Request, h: uint32, given: Option<Option<Addr>>, sender: Option<Addr>)
    requires n.parentID != req.id
    ensures var (n', reply) := ServeMerge(n, req, Present(MergeBody(h, given)), sender);
            && (reply.Accepted? ==> n'.parentID == req.id)
            && (forall a | reply.Accepted? && given == Some(Some(a)) :: n'.parentAddr == Some(a))
            && (reply.Accepted? && given == None ==> n'.parentAddr == sender)
    ensures given == Some(None) ==>
              (ServeMerge(n, req, Present(MergeBody(h, given)), sender).1 == Refused(MalformedAddress) <==>
               exists a :: ServeMerge(n, req, Present(MergeBody(h, Some(Some(a)))), sender).1.Accepted?)
  {
    if given == Some(None) {
      assert ServeMerge(n, req, Present(MergeBody(h, given)), sender).1 == Refused(MalformedAddress) ==>
             ServeMerge(n, req, Present(MergeBody(h, Some(Some("")))), sender).1.Accepted?;
    }
  }

  /** An INCREMENT to every child VK but those in `except`. */
  function FanOut(n: Node, except: set<NodeID>): set<Increment> {
    set c | c in n.tables.cvks && c !in except :: Increment(n.id, c, Pred32(n.height))
  }

  /** The requester's half of an accepted MERGE; refused when the target is one of its leaves. */
  function MergeAccepted(n: Node, target: NodeID, addr: Addr): (Node, set<Increment>, bool) {
    var n1 := n.(height := Succ16(n.height));
    if target in n.tables.leaves then (n1, {}, false)
    else
      var n2 := n1.(tables := AddCVK(n.tables, target, addr));
      (n2, FanOut(n2, {target}), true)
  }

  function ServeIncrement(n: Node, req: Request, body: Body<uint32>): (Node, Reply, set<Increment>) {
    if req.shorthand then (n, Refused(ShorthandNotAccepted), {})
    else if req.version !in n.supported then (n, Refused(VersionNotSupported), {})
    else if n.parentID != req.id then (n, Refused(NotParent), {})
    else if body.Malformed? then (n, Refused(MalformedBody), {})
    else
      var newHeight := if body.Present? then body.value else 0;
      if newHeight == n.height then (n, Accepted(OwnHeight(n.height)), {})  // duplicate
      else if newHeight == n.height + 1 then
        var n1 := n.(height := Succ16(n.height));
        (n1, Accepted(OwnHeight(n1.height)), FanOut(n1, {}))
      else (n, Refused(BadHeight), {})
  }

  /**
    INCREMENT is accepted exactly from the parent, for the present height or the next; it is acknowledged
    with the height announced, and handed on to every child VK exactly when the height is new.
   */
  lemma IncrementAcceptedIff(n: Node, req: Request, body: Body<uint32>)
    ensures var (n', reply, sent) := ServeIncrement(n, req, body);
            var h := if body.Present? then body.value else 0;
            && (reply.Accepted? <==>
                  && !req.shorthand && req.version in n.supported && req.id == n.parentID && !body.Malformed?
                  && (h == n.height || h == n.height + 1))
            && n' == n.(height := n'.height)
            && (reply.Accepted? && h < TWO_TO_16 ==> n'.height == h && reply.ack == OwnHeight(h))
            && (!reply.Accepted? ==> n' == n)
            && (forall m :: m in sent <==>
                  && reply.Accepted? && h != n.height && m.dest in n.tables.cvks
                  && m.from == n.id && m.newHeight == (if h < TWO_TO_16 then h - 1 else TWO_TO_32 - 1))
  {
    var (n', reply, sent) := ServeIncrement(n, req, body);
    assert forall m | m in sent :: m == Increment(n.id, m.dest, Pred32(n'.height));
    assert forall m: Increment :: m == Increment(m.from, m.dest, m.newHeight);
  }

  /** The requester's half of an accepted JOIN. */
  function JoinAccepted(n: Node, parentID: NodeID, addr: Addr): Node {
    n.(parentID := parentID, parentAddr := Some(addr))
  }

  // ---- services ---------------------------------------------------------------------------------

  /** `up` is set when the registration is repeated to the parent. */
  function ServeRegister(n: Node, req: Request, body: Body<RegisterBody>, stopped: bool)
    : (r: (Node, Reply, bool))
  {
    if req.shorthand then (n, Refused(ShorthandNotAccepted), false)
    else if body.Absent? then (n, Refused(BodyRequired), false)
    else if req.version !in n.supported then (n, Refused(VersionNotSupported), false)
    else if body.Malformed? then (n, Refused(MalformedBody), false)
    else
      var r := body.value;
      if r.service == "" then (n, Refused(BadServiceName), false)
      else if r.stale.None? then (n, Refused(BadStaleTime), false)
      else if r.addr.None? then (n, Refused(MalformedAddress), false)
      else if req.id !in n.tables.leaves && req.id !in n.tables.cvks then (n, Refused(UnknownChildId), false)
      else
        (n.(tables := AddService(n.tables, req.id, r.service, r.addr.value, r.stale.value, stopped)),
         Accepted(ForService(r.service)), n.parentAddr.Some?)
  }

  function ServeDeregister(n: Node, req: Request, body: Body<Service>): (Node, Reply) {
    if req.shorthand then (n, Refused(ShorthandNotAccepted))
    else if body.Absent? then (n, Refused(BodyRequired))
    else if req.version !in n.supported then (n, Refused(VersionNotSupported))
    else if body.Malformed? then (n, Refused(MalformedBody))
    else
      var (t, fault) := Deregister(n.tables, req.id, body.value);
      (n.(tables := t), if fault.Some? then Refused(fault.value) else Accepted(ForService(body.value)))
  }

  function ServeLeave(n: Node, req: Request, hasBody: bool, armed: set<Service>, recheck: bool): (Node, Reply) {
    if req.shorthand then (n, Refused(ShorthandNotAccepted))
    else if hasBody then (n, Refused(BodyNotAccepted))
    else if req.version !in n.supported then (n, Refused(VersionNotSupported))
    else if req.id in n.tables.cvks then (n.(tables := RemoveCVK(n.tables, req.id)), Accepted(NoBody))
    else if req.id in n.tables.leaves then
      (n.(tables := RemoveLeaf(n.tables, req.id, armed, recheck)), Accepted(NoBody))
    else (n, Refused(UnknownChildId))
  }

  /** Of the services named, those the leaf has whose timer could still be stopped, and the others. */
  function Refreshed(services: seq<Service>, known: set<Service>): seq<Service> {
    if services == [] then []
    else Refreshed(services[..|services| - 1], known) +
         if services[|services| - 1] in known then [services[|services| - 1]] else []
  }

  function Unknowns(services: seq<Service>, known: set<Service>): seq<Service> {
    if services == [] then []
    else Unknowns(services[..|services| - 1], known) +
         if services[|services| - 1] in known then [] else [services[|services| - 1]]
  }

  datatype HeartbeatReply = Beat(refreshed: seq<Service>, unknown: seq<Service>) | NoBeat(fault: Fault)

  /** A heartbeat restarts timers but changes no table. `running` are the timers that had not fired. */
  function ServeServiceHeartbeat(n: Node, req: Request, body: Body<seq<Service>>, running: set<Service>)
    : HeartbeatReply
  {
    if req.shorthand then NoBeat(ShorthandNotAccepted)
    else if body.Absent? then NoBeat(BodyRequired)
    else if req.version !in n.supported then NoBeat(VersionNotSupported)
    else if body.Malformed? then NoBeat(MalformedBody)
    else if req.id !in n.tables.leaves then NoBeat(UnknownChildId)
    else
      var known := n.tables.leaves[req.id].Keys * running;
      if Refreshed(body.value, known) == [] then NoBeat(AllUnknown)
      else Beat(Refreshed(body.value, known), Unknowns(body.value, known))
  }

  /**
    A heartbeat of a known leaf is answered name by name, as often as asked: as refreshed exactly those on
    the leaf's record whose timer was still running, as unknown all others. It is a fault if none was refreshed.
   */
  lemma HeartbeatPartitions(n: Node, req: Request, names: seq<Service>, running: set<Service>)
    requires !req.shorthand && req.version in n.supported && req.id in n.tables.leaves
    ensures var r := ServeServiceHeartbeat(n, req, Present(names), running);
            if exists s :: s in names && s in n.tables.leaves[req.id] && s in running
            then && r.Beat?
                 && forall s :: var refreshed := s in n.tables.leaves[req.id] && s in running;
                                && multiset(r.refreshed)[s] == (if refreshed then multiset(names)[s] else 0)
                                && multiset(r.unknown)[s] == (if refreshed then 0 else multiset(names)[s])
            else r == NoBeat(AllUnknown)
  {
    var record := n.tables.leaves[req.id];
    var known := record.Keys * running;
    RefreshedIff(names, known);
    assert (exists s :: s in names && s in known) <==> exists s :: s in names && s in record && s in running;
    forall s
      ensures multiset(Refreshed(names, known))[s] == (if s in record && s in running then multiset(names)[s] else 0)
      ensures multiset(Unknowns(names, known))[s] == (if s in record && s in running then 0 else multiset(names)[s])
    {
      SidesPartition(names, known, s);
    }
  }

  lemma {:induction false} RefreshedIff(services: seq<Service>, known: set<Service>)
    ensures Refreshed(services, known) != [] <==> exists s :: s in services && s in known
  {
    if services != [] {
      RefreshedIff(services[..|services| - 1], known);
      InitAndLast(services);
    }
  }

  /** Every service named is on exactly one side, as often as named. */
  lemma {:induction false} SidesPartition(services: seq<Service>, known: set<Service>, s: Service)
    ensures multiset(Refreshed(services, known))[s] == if s in known then multiset(services)[s] else 0
    ensures multiset(Unknowns(services, known))[s] == if s in known then 0 else multiset(services)[s]
  {
    if services != [] {
      var init, last := services[..|services| - 1], services[|services| - 1];
      SidesPartition(init, known, s);
      CountLast(init, last, s);
      CountLast(Refreshed(init, known), last, s);
      CountLast(Unknowns(init, known), last, s);
      InitAndLast(services);
    }
  }

  lemma InitAndLast(services: seq<Service>)
    requires services != []
    ensures services == services[..|services| - 1] + [services[|services| - 1]]
  {
  }

  lemma CountLast(init: seq<Service>, last: Service, s: Service)
    ensures multiset(init + [last])[s] == multiset(init)[s] + if s == last then 1 else 0
    ensures init + [] == init
  {
    assert multiset(init + [last]) == multiset(init) + multiset{last};
  }

  // ---- client requests --------------------------------------------------------------------------

  datatype Outcome<+T> =
    | Faulted(fault: Fault)
    | Duplicate                       // token already handled: acknowledged and dropped
    | Answered(value: T)
    | Forwarded(hops: uint32)

  function LessOne(hops: uint32): uint32 {
    if hops > 0 then hops - 1 else 0
  }

  /** `sent` says whether a forward could be sent to the parent; if not, the answer is given here. */
  function ServeList(n: Node, version: Version, body: Body<ListBody>, sent: bool): (Node, Outcome<set<Service>>) {
    if version !in n.supported then (n, Faulted(VersionNotSupported))
    else if body.Absent? then (n, Faulted(BodyRequired))
    else if body.Malformed? then (n, Faulted(MalformedBody))
    else if body.value.token == "" then (n, Faulted(BadToken))
    else if body.value.respAddr.None? then (n, Faulted(MalformedAddress))
    else if body.value.token in n.closed then (n, Duplicate)
    else
      var n1 := n.(closed := n.closed + {body.value.token});
      if LessOne(body.value.hops) == 0 || n.parentAddr.None? || !sent then (n1, Answered(n.tables.all.Keys))
      else (n1, Forwarded(LessOne(body.value.hops)))
  }

  /** A GET answer carries the address of any one provider, or says that there is none. */
  datatype GetAnswer = Found(addrs: set<Addr>) | NotFound

  function ServeGet(n: Node, version: Version, body: Body<GetBody>): Outcome<GetAnswer> {
    if version !in n.supported then Faulted(VersionNotSupported)
    else if body.Absent? then Faulted(BodyRequired)
    else if body.Malformed? then Faulted(MalformedBody)
    else if body.value.token == "" then Faulted(BadToken)
    else if body.value.respAddr.None? then Faulted(MalformedAddress)
    else if body.value.service in n.tables.all then Answered(Found(n.tables.all[body.value.service].Values))
    else if LessOne(body.value.hops) == 0 || n.parentAddr.None? then Answered(NotFound)
    else Forwarded(LessOne(body.value.hops))
  }

  /** What a joining vaultkeeper registers with its parent: every provider of every service it lists. */
  ghost predicate HandsUp(all: Index, sent: seq<(Service, Addr)>) {
    && (forall m | m in sent :: m.0 in all && m.1 in all[m.0].Values)
    && (forall s, c | s in all && c in all[s] :: (s, all[s][c]) in sent)
  }

  // ---- everything that can happen to a vaultkeeper ------------------------------------------------

  datatype Event =
    | Hello(req: Request, hasBody: bool)
    | ForgetHello(id: NodeID)
    | Join(req: Request, join: Body<JoinBody>)
    | Merge(req: Request, merge: Body<MergeBody>, sender: Option<Addr>)
    | MergedWith(target: NodeID, addr: Addr)
    | JoinedUnder(parentID: NodeID, addr: Addr)
    | Incr(req: Request, incr: Body<uint32>)
    | Register(req: Request, reg: Body<RegisterBody>, stopped: bool)
    | Dereg(req: Request, name: Body<Service>)
    | Leave(req: Request, hasBody: bool, armed: set<Service>, recheck: bool)
    | StaleService(id: NodeID, service: Service, running: bool)
    | ServicelessLeaf(id: NodeID)
    | ExpireCVK(id: NodeID)
    | List(version: Version, list: Body<ListBody>, sent: bool)
    | ForgetToken(token: string)
    | LoseParent

  /** An event that cannot happen in the current state (a callback nobody armed) is ignored. */
  function Apply(n: Node, e: Event): Node {
    match e
    case Hello(req, hasBody) => ServeHello(n, req, hasBody).0
    case ForgetHello(id) => n.(hellos := n.hellos - {id})
    case Join(req, body) => ServeJoin(n, req, body).0
    case Merge(req, body, sender) => ServeMerge(n, req, body, sender).0
    case MergedWith(target, addr) => MergeAccepted(n, target, addr).0
    case JoinedUnder(parentID, addr) => JoinAccepted(n, parentID, addr)
    case Incr(req, body) => ServeIncrement(n, req, body).0
    case Register(req, body, stopped) => ServeRegister(n, req, body, stopped).0
    case Dereg(req, body) => ServeDeregister(n, req, body).0
    case Leave(req, hasBody, armed, recheck) => ServeLeave(n, req, hasBody, armed, recheck).0
    case StaleService(id, s, running) =>
      if (id, s) in n.tables.prunes then n.(tables := FirePrune(n.tables, id, s, running)) else n
    case ServicelessLeaf(id) =>
      if id in n.tables.rechecks then n.(tables := FireRecheck(n.tables, id)) else n
    case ExpireCVK(id) => n.(tables := RemoveCVK(n.tables, id))
    case List(version, body, sent) => ServeList(n, version, body, sent).0
    case ForgetToken(token) => n.(closed := n.closed - {token})
    case LoseParent => DropParent(n)
  }

  function Run(n: Node, es: seq<Event>): Node {
    if es == [] then n else Apply(Run(n, es[..|es| - 1]), es[|es| - 1])
  }

  // ---- what every run keeps ---------------------------------------------------------------------

  function JoinChange(n: Node, req: Request, body: Body<JoinBody>): Change {
    if ServeJoin(n, req, body).1.Accepted? && req.id !in n.tables.cvks then
      if body.value.isVk then CVKAdded(req.id, body.value.vkAddr.value) else LeafAdded(req.id)
    else Untouched
  }

  function RegisterChange(n: Node, req: Request, body: Body<RegisterBody>, stopped: bool): Change {
    if ServeRegister(n, req, body, stopped).1.Accepted? then
      ServiceAdded(req.id, body.value.service, body.value.addr.value, body.value.stale.value, stopped)
    else Untouched
  }

  function DeregChange(n: Node, req: Request, body: Body<Service>): Change {
    if !req.shorthand && req.version in n.supported && body.Present? then Deregistered(req.id, body.value)
    else Untouched
  }

  function LeaveChange(n: Node, req: Request, hasBody: bool, armed: set<Service>, recheck: bool): Change {
    if req.shorthand || hasBody || req.version !in n.supported then Untouched
    else if req.id in n.tables.cvks then CVKRemoved(req.id)
    else LeafRemoved(req.id, armed, recheck)
  }

  /** What an event does to the child tables. */
  function ChangeOf(n: Node, e: Event): Change {
    match e
    case Join(req, body) => JoinChange(n, req, body)
    case MergedWith(target, addr) => CVKAdded(target, addr)
    case Register(req, body, stopped) => RegisterChange(n, req, body, stopped)
    case Dereg(req, body) => DeregChange(n, req, body)
    case Leave(req, hasBody, armed, recheck) => LeaveChange(n, req, hasBody, armed, recheck)
    case StaleService(id, s, running) =>
      if (id, s) in n.tables.prunes then ServicePruned(id, s, running) else Untouched
    case ServicelessLeaf(id) => if id in n.tables.rechecks then LeafRechecked(id) else Untouched
    case ExpireCVK(id) => CVKRemoved(id)
    case _ => Untouched
  }

  /** Every event changes the child tables by one critical section, or not at all. */
  lemma ApplyChanges(n: Node, e: Event)
    ensures Apply(n, e).tables == Changed(n.tables, ChangeOf(n, e))
  {
    match e
    case Hello(req, hasBody) => HelloChanges(n, req, hasBody);
    case Join(req, body) => JoinChanges(n, req, body);
    case Dereg(req, body) => DeregChanges(n, req, body);
    case Leave(req, hasBody, armed, recheck) => LeaveChanges(n, req, hasBody, armed, recheck);
    case Register(req, body, stopped) => RegisterChanges(n, req, body, stopped);
    case Merge(req, body, sender) => MergeChanges(n, req, body, sender);
    case MergedWith(target, addr) => MergedChanges(n, target, addr);
    case Incr(req, body) => IncrChanges(n, req, body);
    case List(version, body, sent) => ListChanges(n, version, body, sent);
    case StaleService(id, s, running) => StaleChanges(n, id, s, running);
    case ServicelessLeaf(id) => ServicelessChanges(n, id);
    case ExpireCVK(id) =>
    case _ => OtherChanges(n, e);
  }

  lemma StaleChanges(n: Node, id: NodeID, s: Service, running: bool)
    ensures Apply(n, StaleService(id, s, running)).tables ==
            Changed(n.tables, ChangeOf(n, StaleService(id, s, running)))
  {
  }

  lemma ServicelessChanges(n: Node, id: NodeID)
    ensures Apply(n, ServicelessLeaf(id)).tables == Changed(n.tables, ChangeOf(n, ServicelessLeaf(id)))
  {
  }

  lemma OtherChanges(n: Node, e: Event)
    requires e.ForgetHello? || e.JoinedUnder? || e.ForgetToken? || e.LoseParent?
    ensures Apply(n, e).tables == Changed(n.tables, ChangeOf(n, e))
  {
  }

  lemma HelloChanges(n: Node, req: Request, hasBody: bool)
    ensures ServeHello(n, req, hasBody).0.tables == n.tables
  {
  }

  lemma JoinChanges(n: Node, req: Request, body: Body<JoinBody>)
    ensures ServeJoin(n, req, body).0.tables == Changed(n.tables, JoinChange(n, req, body))
  {
  }

  lemma DeregChanges(n: Node, req: Request, body: Body<Service>)
    ensures ServeDeregister(n, req, body).0.tables == Changed(n.tables, DeregChange(n, req, body))
  {
  }

  lemma LeaveChanges(n: Node, req: Request, hasBody: bool, armed: set<Service>, recheck: bool)
    ensures ServeLeave(n, req, hasBody, armed, recheck).0.tables ==
            Changed(n.tables, LeaveChange(n, req, hasBody, armed, recheck))
  {
    var change := LeaveChange(n, req, hasBody, armed, recheck);
    match change
    case CVKRemoved(id) =>
    case LeafRemoved(id, _, _) => StrangerLeaves(n.tables, id, armed, recheck);
    case _ =>
  }

  lemma StrangerLeaves(t: Tables, id: NodeID, armed: set<Service>, recheck: bool)
    ensures id !in t.leaves ==> RemoveLeaf(t, id, armed, recheck) == t
  {
  }

  lemma RegisterChanges(n: Node, req: Request, body: Body<RegisterBody>, stopped: bool)
    ensures ServeRegister(n, req, body, stopped).0.tables == Changed(n.tables, RegisterChange(n, req, body, stopped))
  {
  }

  lemma MergedChanges(n: Node, target: NodeID, addr: Addr)
    ensures MergeAccepted(n, target, addr).0.tables == AddCVK(n.tables, target, addr)
  {
  }

  lemma IncrChanges(n: Node, req: Request, body: Body<uint32>)
    ensures ServeIncrement(n, req, body).0.tables == n.tables
  {
  }

  lemma ListChanges(n: Node, version: Version, body: Body<ListBody>, sent: bool)
    ensures ServeList(n, version, body, sent).0.tables == n.tables
  {
  }

  lemma MergeChanges(n: Node, req: Request, body: Body<MergeBody>, sender: Option<Addr>)
    ensures ServeMerge(n, req, body, sender).0.tables == n.tables
  {
  }

  /** Additions and DEREGISTERs balance after any run, for every service. */
  lemma {:induction false} DeregistersAreConserved(n: Node, es: seq<Event>)
    requires Conserved(n.tables)
    ensures Conserved(Run(n, es).tables)
  {
    if es != [] {
      var m, e := Run(n, es[..|es| - 1]), es[|es| - 1];
      DeregistersAreConserved(n, es[..|es| - 1]);
      ApplyChanges(m, e);
      ChangeConserves(m.tables, ChangeOf(m, e));
    }
  }

  /** Every serviceless leaf stays watched after any run. */
  lemma {:induction false} LeavesStayCovered(n: Node, es: seq<Event>)
    requires Covered(n.tables)
    ensures Covered(Run(n, es).tables)
  {
    if es != [] {
      var m, e := Run(n, es[..|es| - 1]), es[|es| - 1];
      LeavesStayCovered(n, es[..|es| - 1]);
      ApplyChanges(m, e);
      ChangeCovers(m.tables, ChangeOf(m, e));
    }
  }

  /**
    HELLO conservation: children installed by JOIN plus parents accepted by MERGE never exceed the
    HELLOs served, ID by ID; a HELLO still pending is one more not yet spent.
   */
  ghost predicate HellosCover(n: Node) {
    forall id: NodeID :: n.installed[id] + (if id in n.hellos then 1 else 0) <= n.greeted[id]
  }

  lemma {:induction false} HellosAreConserved(n: Node, es: seq<Event>)
    requires HellosCover(n)
    ensures HellosCover(Run(n, es))
  {
    if es != [] {
      var m, e := Run(n, es[..|es| - 1]), es[|es| - 1];
      HellosAreConserved(n, es[..|es| - 1]);
      forall id: NodeID
        ensures Apply(m, e).installed[id] + (if id in Apply(m, e).hellos then 1 else 0) <= Apply(m, e).greeted[id]
      {
        StepSpendsHellos(m, e, id);
      }
    }
  }

  lemma StepSpendsHellos(n: Node, e: Event, id: NodeID)
    requires n.installed[id] + (if id in n.hellos then 1 else 0) <= n.greeted[id]
    ensures var n' := Apply(n, e);
            n'.installed[id] + (if id in n'.hellos then 1 else 0) <= n'.greeted[id]
  {
    match e
    case Hello(req, hasBody) =>
    case ForgetHello(c) =>
    case Join(req, body) =>
      assert Apply(n, e).greeted == n.greeted;
      if body.Present? {
        if body.value.isVk {
          assert ServeJoin(n, req, body).0 in {n, JoinVK(n, req.id, body.value).0};
        } else {
          assert ServeJoin(n, req, body).0 in {n, JoinLeaf(n, req.id).0};
        }
      }
    case Merge(req, body, sender) =>
    case _ =>
      assert Apply(n, e).greeted == n.greeted && Apply(n, e).installed == n.installed;
      assert Apply(n, e).hellos == n.hellos;
  }

  /** A repeated JOIN of a known child VK, and a repeated MERGE from the parent, install nothing. */
  lemma DuplicatesInstallNothing(n: Node, req: Request, join: Body<JoinBody>, merge: Body<MergeBody>,
                                 sender: Option<Addr>)
    ensures join.Present? && join.value.isVk && req.id in n.tables.cvks ==> ServeJoin(n, req, join).0 == n
    ensures req.id == n.parentID ==>
              var n' := ServeMerge(n, req, merge, sender).0;
              n' == n || n' == DropParent(n)
  {
  }

  // ---- index agreement over runs ----------------------------------------------------------------

  /** Nodes do not change kind: `vks` are the IDs of vaultkeepers, every other ID is a leaf. */
  predicate KindStable(e: Event, vks: set<NodeID>) {
    match e
    case Join(req, body) => body.Present? ==> (body.value.isVk <==> req.id in vks)
    case MergedWith(target, _) => target in vks
    case _ => true
  }

  /** A merge target is not still recorded as a child VK with services. */
  predicate FreshTarget(n: Node, e: Event) {
    e.MergedWith? && e.target in n.tables.cvks ==> n.tables.cvks[e.target].services == map[]
  }

  ghost predicate Admissible(n: Node, es: seq<Event>, vks: set<NodeID>) {
    es != [] ==>
      && Admissible(n, es[..|es| - 1], vks)
      && KindStable(es[|es| - 1], vks)
      && FreshTarget(Run(n, es[..|es| - 1]), es[|es| - 1])
  }

  /** In every state reached without an ID changing kind, the index agrees with the children's records. */
  lemma {:induction false} IndexAgreesAlways(n: Node, es: seq<Event>, vks: set<NodeID>)
    requires Agrees(n.tables) && KindsKept(n.tables, vks)
    requires Admissible(n, es, vks)
    ensures Agrees(Run(n, es).tables) && KindsKept(Run(n, es).tables, vks)
  {
    if es != [] {
      var m, e := Run(n, es[..|es| - 1]), es[|es| - 1];
      IndexAgreesAlways(n, es[..|es| - 1], vks);
      ApplyChanges(m, e);
      EventIsHarmless(m, e, vks);
      ChangeKeepsKinds(m.tables, ChangeOf(m, e), vks);
      ChangeAgreesIff(m.tables, ChangeOf(m, e));
    }
  }

  /** Leaves and child VKs are disjoint and no listed service is without provider, after any run at all. */
  lemma {:induction false} TidyAlways(n: Node, es: seq<Event>)
    requires Tidy(n.tables)
    ensures Tidy(Run(n, es).tables)
  {
    if es != [] {
      var m, e := Run(n, es[..|es| - 1]), es[|es| - 1];
      TidyAlways(n, es[..|es| - 1]);
      ApplyChanges(m, e);
      ChangeTidies(m.tables, ChangeOf(m, e));
    }
  }

  /** When no ID changes kind, every record is in the index, even if a MERGE target was still recorded. */
  lemma {:induction false} RecordsAreListedAlways(n: Node, es: seq<Event>, vks: set<NodeID>)
    requires Contained(n.tables) && KindsKept(n.tables, vks)
    requires forall e | e in es :: KindStable(e, vks)
    ensures Contained(Run(n, es).tables) && KindsKept(Run(n, es).tables, vks)
  {
    if es != [] {
      var m, e := Run(n, es[..|es| - 1]), es[|es| - 1];
      RecordsAreListedAlways(n, es[..|es| - 1], vks);
      ApplyChanges(m, e);
      KindsStayRight(m, e, vks);
      ChangeKeepsKinds(m.tables, ChangeOf(m, e), vks);
      ChangeContainsIff(m.tables, ChangeOf(m, e));
    }
  }

  lemma KindsStayRight(n: Node, e: Event, vks: set<NodeID>)
    requires KindsKept(n.tables, vks) && KindStable(e, vks)
    ensures var c := ChangeOf(n, e);
            && RightKind(c, vks)
            && (c.ServicePruned? ==> c.id !in n.tables.cvks)
  {
  }

  lemma EventIsHarmless(n: Node, e: Event, vks: set<NodeID>)
    requires KindsKept(n.tables, vks) && KindStable(e, vks) && FreshTarget(n, e)
    ensures RightKind(ChangeOf(n, e), vks) && Harmless(n.tables, ChangeOf(n, e))
  {
  }

  /** Everything the previous theorems ask of the initial state holds of a new vaultkeeper. */
  lemma FreshIsGood(id: NodeID, supported: set<Version>, hoard: uint16, vks: set<NodeID>)
    ensures var n := Fresh(id, supported, hoard);
            && Agrees(n.tables) && Tidy(n.tables) && Contained(n.tables) && KindsKept(n.tables, vks)
            && Covered(n.tables) && Conserved(n.tables) && Timed(n.tables) && HellosCover(n)
  {
  }

  /**
    Without `FreshTarget` the index can go wrong: merging with a vaultkeeper that is still recorded as
    a child replaces its record, and the index goes on listing a service the record no longer has.
   */
  lemma RemergingBreaksAgreement(id: NodeID, v: Version, hoard: uint16)
    ensures var register := Request(false, v, 5);
            var dns := RegisterBody("dns", Some(0), Some("host"));
            var n1 := Apply(Fresh(id, {v}, hoard), MergedWith(5, "vk5"));
            var n2 := Apply(n1, Register(register, Present(dns), true));
            Agrees(n2.tables) && !Agrees(Apply(n2, MergedWith(5, "vk5")).tables)
  {
    var t1 := AddCVK(EMPTY_TABLES, 5, "vk5");
    AddCVKAgreesIff(EMPTY_TABLES, 5, "vk5");
    AddServiceAgrees(t1, 5, "dns", "host", 0, true);
    var t2 := AddService(t1, 5, "dns", "host", 0, true);
    assert Offers(t2, 5, "dns") == Some("host");
    AddCVKAgreesIff(t2, 5, "vk5");
  }

  // ---- stale timers over runs -------------------------------------------------------------------

  /** Every event of the run stops the timers it should. */
  ghost predicate Punctual(n: Node, es: seq<Event>) {
    es != [] ==>
      var m, e := Run(n, es[..|es| - 1]), es[|es| - 1];
      Punctual(n, es[..|es| - 1]) && StopsItsTimers(m.tables, ChangeOf(m, e))
  }

  /** While no event leaves a timer running, each service on a leaf's record has its own timer and no other. */
  lemma {:induction false} TimedAlways(n: Node, es: seq<Event>)
    requires Timed(n.tables) && Punctual(n, es)
    ensures Timed(Run(n, es).tables)
  {
    if es != [] {
      var m, e := Run(n, es[..|es| - 1]), es[|es| - 1];
      TimedAlways(n, es[..|es| - 1]);
      ApplyChanges(m, e);
      ChangeKeepsTimedIff(m.tables, ChangeOf(m, e));
    }
  }

  /** Leaf 5 deregisters its service and registers it again at once. */
  function Reregistered(n: Node, v: Version): Node {
    DnsOf5(Apply(n, Dereg(Request(false, v, 5), Present("dns"))), v)
  }

  /**
    DEREGISTER stops no timer, so a service registered again has two, and the older one, firing first,
    drops a registration that is still fresh.
   */
  lemma FreshServiceIsDropped(id: NodeID, v: Version)
    ensures var n := Reregistered(LeafArrives(Fresh(id, {v}, 1), v), v);
            && HasService(n.tables, 5, "dns") && n.tables.prunes[(5, "dns")] == 2
            && var n' := Apply(n, StaleService(5, "dns", false));
               !HasService(n'.tables, 5, "dns") && (5, "dns") in n'.tables.prunes && "dns" !in n'.tables.all
  {
    var n0 := LeafArrives(Fresh(id, {v}, 1), v);
    LeafArrivesIs(Fresh(id, {v}, 1), v);
    DeregisteredBare(n0.tables);
    var n1 := Apply(n0, Dereg(Request(false, v, 5), Present("dns")));
    AgainIs(n1, v);
    OlderTimerFires(Reregistered(n0, v));
  }

  lemma AgainIs(n: Node, v: Version)
    requires n.supported == {v} && n.tables.leaves == map[5 := map[]] && n.tables.cvks == map[]
    requires n.tables.all == map[] && n.tables.prunes[(5, "dns")] == 1
    ensures var t := DnsOf5(n, v).tables;
            && t.leaves == map[5 := map["dns" := LeafService("host", 0)]] && t.cvks == map[]
            && t.all == map["dns" := map[5 := "host"]] && t.prunes[(5, "dns")] == 2
  {
  }

  lemma OlderTimerFires(n: Node)
    requires n.tables.leaves == map[5 := map["dns" := LeafService("host", 0)]] && n.tables.cvks == map[]
    requires n.tables.all == map["dns" := map[5 := "host"]] && n.tables.prunes[(5, "dns")] == 2
    ensures var t := Apply(n, StaleService(5, "dns", false)).tables;
            !HasService(t, 5, "dns") && (5, "dns") in t.prunes && "dns" !in t.all
  {
    FirePruneTables(n.tables, 5, "dns", false);
    ForgetLeaves(n.tables, 5, "dns");
    ForgetIsUnlist(n.tables, 5, "dns");
    assert n.tables.all["dns"].Keys == {5};
  }

  // ---- an ID that changes kind ------------------------------------------------------------------

  function DnsOf5(n: Node, v: Version): Node {
    Apply(n, Register(Request(false, v, 5), Present(RegisterBody("dns", Some(0), Some("host"))), true))
  }

  /** Leaf 5 joins and registers a service. */
  function LeafArrives(n: Node, v: Version): Node {
    var n1 := Apply(n, Hello(Request(false, v, 5), false));
    DnsOf5(Apply(n1, Join(Request(false, v, 5), Present(JoinBody(false, 0, None)))), v)
  }

  /** It deregisters the service, whose timer goes on running, and leaves. */
  function LeafDeparts(n: Node, v: Version): Node {
    var n1 := Apply(n, Dereg(Request(false, v, 5), Present("dns")));
    Apply(n1, Leave(Request(false, v, 5), false, {"dns"}, true))
  }

  /** Then 5 joins as a child VK and registers the same service. */
  function VKArrives(n: Node, v: Version): Node {
    var n1 := Apply(n, Hello(Request(false, v, 5), false));
    DnsOf5(Apply(n1, Join(Request(false, v, 5), Present(JoinBody(true, 0, Some("vk5"))))), v)
  }

  /** A vaultkeeper of height 1 without children or services. */
  predicate Childless(n: Node, v: Version) {
    && n.supported == {v} && n.height == 1
    && n.tables.leaves == map[] && n.tables.cvks == map[] && n.tables.all == map[]
  }

  lemma LeafArrivesIs(n: Node, v: Version)
    requires Childless(n, v)
    ensures var t := LeafArrives(n, v).tables;
            && t.leaves == map[5 := map["dns" := LeafService("host", 0)]] && t.cvks == map[]
            && t.all == map["dns" := map[5 := "host"]]
            && t.prunes == n.tables.prunes + multiset{(5, "dns")}
            && LeafArrives(n, v).supported == {v} && LeafArrives(n, v).height == 1
  {
    LeafSettlesIs(n, v);
    var n1 := Apply(n, Hello(Request(false, v, 5), false));
    var n2 := Apply(n1, Join(Request(false, v, 5), Present(JoinBody(false, 0, None))));
    assert AddService(n2.tables, 5, "dns", "host", 0, true).prunes == n.tables.prunes + multiset{(5, "dns")};
  }

  lemma LeafSettlesIs(n: Node, v: Version)
    requires Childless(n, v)
    ensures var n1 := Apply(n, Hello(Request(false, v, 5), false));
            var n2 := Apply(n1, Join(Request(false, v, 5), Present(JoinBody(false, 0, None))));
            && n2.tables.leaves == map[5 := map[]] && n2.tables.cvks == map[] && n2.tables.all == map[]
            && n2.tables.prunes == n.tables.prunes && n2.supported == {v} && n2.height == 1
  {
    var n1 := Apply(n, Hello(Request(false, v, 5), false));
    assert Apply(n1, Join(Request(false, v, 5), Present(JoinBody(false, 0, None)))).tables == AddLeaf(n.tables, 5);
  }

  lemma LeafDepartsIs(n: Node, v: Version)
    requires n.supported == {v} && n.height == 1
    requires n.tables.leaves == map[5 := map["dns" := LeafService("host", 0)]] && n.tables.cvks == map[]
    requires n.tables.all == map["dns" := map[5 := "host"]]
    ensures Childless(LeafDeparts(n, v), v) && LeafDeparts(n, v).tables.prunes == n.tables.prunes
  {
    DeregisteredBare(n.tables);
    RemovedBare(Deregister(n.tables, 5, "dns").0);
  }

  lemma DeregisteredBare(t: Tables)
    requires t.leaves == map[5 := map["dns" := LeafService("host", 0)]] && t.cvks == map[]
    requires t.all == map["dns" := map[5 := "host"]]
    ensures var t' := Deregister(t, 5, "dns").0;
            t'.leaves == map[5 := map[]] && t'.cvks == map[] && t'.all == map[] && t'.prunes == t.prunes
  {
    DeregisterIsUnlist(t, 5, "dns");
    assert t.all["dns"].Keys == {5};
    assert Without(t.all, {"dns"}, 5) == map[];
  }

  lemma RemovedBare(t: Tables)
    requires t.leaves == map[5 := map[]] && t.cvks == map[] && t.all == map[]
    ensures var t' := RemoveLeaf(t, 5, {"dns"}, true);
            t'.leaves == map[] && t'.cvks == map[] && t'.all == map[] && t'.prunes == t.prunes
  {
    assert StoppedPrunes(t, 5, {"dns"}) == multiset{};
  }

  lemma VKArrivesIs(n: Node, v: Version)
    requires Childless(n, v)
    ensures var t := VKArrives(n, v).tables;
            && t.leaves == map[] && t.cvks == map[5 := ChildVK(map["dns" := "host"], "vk5")]
            && t.all == map["dns" := map[5 := "host"]] && t.prunes == n.tables.prunes
  {
    var n1 := Apply(n, Hello(Request(false, v, 5), false));
    var n2 := Apply(n1, Join(Request(false, v, 5), Present(JoinBody(true, 0, Some("vk5")))));
    assert n2.tables == AddCVK(n.tables, 5, "vk5");
    assert n2.tables.cvks == map[5 := ChildVK(map[], "vk5")];
  }

  /** When the timer of the leaf's service fires at last, the index loses what the child VK has on record. */
  lemma ChangedKindBreaksAgreement(id: NodeID, v: Version)
    ensures var n := VKArrives(LeafDeparts(LeafArrives(Fresh(id, {v}, 1), v), v), v);
            && Agrees(n.tables) && (5, "dns") in n.tables.prunes
            && !Agrees(Apply(n, StaleService(5, "dns", false)).tables)
  {
    var n0 := Fresh(id, {v}, 1);
    LeafArrivesIs(n0, v);
    LeafDepartsIs(LeafArrives(n0, v), v);
    VKArrivesIs(LeafDeparts(LeafArrives(n0, v), v), v);
    TimerBreaksAgreement(VKArrives(LeafDeparts(LeafArrives(n0, v), v), v));
  }

  lemma TimerBreaksAgreement(n: Node)
    requires n.tables.leaves == map[] && n.tables.cvks == map[5 := ChildVK(map["dns" := "host"], "vk5")]
    requires n.tables.all == map["dns" := map[5 := "host"]] && (5, "dns") in n.tables.prunes
    ensures Agrees(n.tables) && !Agrees(Apply(n, StaleService(5, "dns", false)).tables)
  {
    assert 5 in n.tables.all["dns"];
    FirePruneAgreesIff(n.tables, 5, "dns", false);
  }
}
