/**
  How each kind of message is answered: what can be wrong with it, which of several faults is named, and
  what an answer without a fault says and changes.
 */
module Answers {
  import opened Basics
  import opened Versions
  import opened ChildTables
  import opened VaultNode

  /** One thing to look at: whether it is wrong, and the fault if so. */
  datatype Check = Check(wrong: bool, fault: Fault)

  ghost predicate Passes(checks: seq<Check>) {
    forall i | 0 <= i < |checks| :: !checks[i].wrong
  }

  /** The fault named is that of the first check that fails. */
  ghost predicate NamesFirst(fault: Option<Fault>, checks: seq<Check>) {
    match fault
    case None => Passes(checks)
    case Some(f) => exists i :: 0 <= i < |checks| && checks[i] == Check(true, f) && Passes(checks[..i])
  }

  function FaultOf(reply: Reply): Option<Fault> {
    if reply.Refused? then Some(reply.fault) else None
  }

  /** What is looked at first in a message that needs a body, before what it says. */
  function Reading<T>(n: Node, req: Request, body: Body<T>): seq<Check> {
    [Check(req.shorthand, ShorthandNotAccepted), Check(body.Absent?, BodyRequired),
     Check(req.version !in n.supported, VersionNotSupported), Check(body.Malformed?, MalformedBody)]
  }

  lemma ReadingOrder<T>(n: Node, req: Request, body: Body<T>)
    ensures var checks := Reading(n, req, body);
            && checks[0].fault == ShorthandNotAccepted && checks[1].fault == BodyRequired
            && checks[2].fault == VersionNotSupported && checks[3].fault == MalformedBody
    ensures Passes(Reading(n, req, body)) <==> !req.shorthand && req.version in n.supported && body.Present?
  {
    var checks := Reading(n, req, body);
    assert checks[0].fault == ShorthandNotAccepted && checks[1].fault == BodyRequired;
    assert checks[2].fault == VersionNotSupported && checks[3].fault == MalformedBody;
  }

  // ---- HELLO --------------------------------------------------------------------------------------

  /** HELLO is never refused for its version, and is remembered exactly when it is answered. */
  lemma HelloAnswers(n: Node, req: Request, hasBody: bool)
    ensures var (n', reply) := ServeHello(n, req, hasBody);
            && NamesFirst(FaultOf(reply), [Check(req.shorthand, ShorthandNotAccepted),
                                           Check(hasBody, BodyNotAccepted)])
            && (reply.Accepted? ==> reply.ack == OwnHeight(n.height))
            && n' == n.(hellos := n'.hellos, greeted := n'.greeted)
            && (forall c :: c in n'.hellos <==> c in n.hellos || (c == req.id && reply.Accepted?))
            && (forall c :: n'.greeted[c] == n.greeted[c] + if c == req.id && reply.Accepted? then 1 else 0)
  {
    var checks := [Check(req.shorthand, ShorthandNotAccepted), Check(hasBody, BodyNotAccepted)];
    assert checks[0].fault == ShorthandNotAccepted && checks[1].fault == BodyNotAccepted;
  }

  // ---- JOIN ---------------------------------------------------------------------------------------

  /** The VK or leaf is on record already. */
  predicate Rejoins(n: Node, id: NodeID, j: JoinBody) {
    if j.isVk then id in n.tables.cvks else id in n.tables.leaves
  }

  function Joining(n: Node, id: NodeID, j: JoinBody): seq<Check> {
    [Check(j.isVk && n.height != (j.height + 1) % TWO_TO_32, BadHeight),
     Check(j.isVk && j.vkAddr.None?, MalformedAddress),
     Check(id !in n.hellos && !(j.isVk && Rejoins(n, id, j)), HelloRequired),
     Check(if j.isVk then id in n.tables.leaves && !Rejoins(n, id, j) else id in n.tables.cvks, IdInUse)]
  }

  /** A JOIN that cannot be read changes nothing; otherwise its height, address and greeting are judged. */
  lemma JoinAnswers(n: Node, req: Request, body: Body<JoinBody>)
    ensures var (n', reply) := ServeJoin(n, req, body);
            if !Passes(Reading(n, req, body))
            then n' == n && NamesFirst(FaultOf(reply), Reading(n, req, body))
            else body.Present? && NamesFirst(FaultOf(reply), Joining(n, req.id, body.value))
                 && (reply.Accepted? ==> reply.ack == OwnHeight(n.height))
  {
    ReadingOrder(n, req, body);
    if body.Present? {
      var checks := Joining(n, req.id, body.value);
      assert checks[0].fault == BadHeight && checks[1].fault == MalformedAddress;
      assert checks[2].fault == HelloRequired && checks[3].fault == IdInUse;
    }
  }

  /**
    A HELLO is used up by the JOIN it is needed for, even if the ID turns out to be in use. A node new to
    the tables is entered, a VK with the address it gave; one on record is left as it is.
   */
  lemma JoinEnters(n: Node, req: Request, j: JoinBody)
    ensures var (n', reply) := ServeJoin(n, req, Present(j));
            var enters := reply.Accepted? && !Rejoins(n, req.id, j);
            && n' == n.(hellos := n'.hellos, tables := n'.tables, installed := n'.installed)
            && (forall c :: c in n'.hellos <==> c in n.hellos && !(c == req.id && Spends(n, req.id, j, reply)))
            && (forall c :: n'.installed[c] == n.installed[c] + if c == req.id && enters then 1 else 0)
            && n'.tables == Changed(n.tables, if !enters then Untouched
                                              else if j.isVk then CVKAdded(req.id, j.vkAddr.value)
                                              else LeafAdded(req.id))
  {
  }

  predicate Spends(n: Node, id: NodeID, j: JoinBody, reply: Reply) {
    reply == Refused(IdInUse) || (reply.Accepted? && !(j.isVk && Rejoins(n, id, j)))
  }

  // ---- MERGE, INCREMENT ---------------------------------------------------------------------------

  /** The height a MERGE or INCREMENT announces; 0 is sent as no body at all. */
  predicate Announces(body: Body<MergeBody>, h: uint16) {
    if body.Present? then body.value.height == h else h == 0
  }

  predicate Addressless(body: Body<MergeBody>, sender: Option<Addr>) {
    !body.Present? || body.value.vkAddress == Some(None) || (body.value.vkAddress == None && sender == None)
  }

  function Opening(n: Node, req: Request): seq<Check> {
    [Check(req.shorthand, ShorthandNotAccepted), Check(req.version !in n.supported, VersionNotSupported)]
  }

  lemma OpeningOrder(n: Node, req: Request)
    ensures var checks := Opening(n, req);
            checks[0].fault == ShorthandNotAccepted && checks[1].fault == VersionNotSupported
    ensures Passes(Opening(n, req)) <==> !req.shorthand && req.version in n.supported
  {
    var checks := Opening(n, req);
    assert checks[0].fault == ShorthandNotAccepted && checks[1].fault == VersionNotSupported;
  }

  function Merging(n: Node, id: NodeID, body: Body<MergeBody>, sender: Option<Addr>): seq<Check> {
    [Check(n.parentAddr.Some?, NotRoot), Check(id !in n.hellos, HelloRequired),
     Check(id in n.tables.leaves || id in n.tables.cvks, IdInUse), Check(body.Malformed?, MalformedBody),
     Check(!Announces(body, n.height) || n.height == MAX_UINT16, BadHeight),
     Check(Addressless(body, sender), MalformedAddress)]
  }

  /** A MERGE from a stranger: the checks, in order; from the parent see `RepeatedMergeAnswers`. */
  lemma MergeAnswers(n: Node, req: Request, body: Body<MergeBody>, sender: Option<Addr>)
    requires n.parentID != req.id
    ensures var (n', reply) := ServeMerge(n, req, body, sender);
            && (if !Passes(Opening(n, req)) then n' == n && NamesFirst(FaultOf(reply), Opening(n, req))
                else NamesFirst(FaultOf(reply), Merging(n, req.id, body, sender)))
            && (reply.Accepted? ==> reply.ack == OwnHeight(n.height))
  {
    OpeningOrder(n, req);
    var checks := Merging(n, req.id, body, sender);
    assert checks[0].fault == NotRoot && checks[1].fault == HelloRequired && checks[2].fault == IdInUse;
    assert checks[3].fault == MalformedBody && checks[4].fault == BadHeight && checks[5].fault == MalformedAddress;
  }

  /** The HELLO of a MERGE is used up once it has been asked for, and an accepted stranger is the parent. */
  lemma MergeLinksStranger(n: Node, req: Request, body: Body<MergeBody>, sender: Option<Addr>)
    requires n.parentID != req.id
    ensures var (n', reply) := ServeMerge(n, req, body, sender);
            && (forall c :: c in n'.hellos <==>
                  c in n.hellos && (c != req.id || !Passes(Opening(n, req)) || n.parentAddr.Some?))
            && (!reply.Accepted? ==> n' == n.(hellos := n'.hellos))
            && (reply.Accepted? ==>
                  && n' == n.(parentID := req.id, parentAddr := n'.parentAddr, hellos := n'.hellos,
                              installed := n.installed + multiset{req.id})
                  && n'.parentAddr.Some?)
  {
    OpeningOrder(n, req);
  }

  /** A MERGE from the parent is a repetition if the height is right; if not, the parent is given up. */
  lemma RepeatedMergeAnswers(n: Node, req: Request, body: Body<MergeBody>, sender: Option<Addr>)
    requires n.parentID == req.id
    ensures var (n', reply) := ServeMerge(n, req, body, sender);
            if !Passes(Opening(n, req)) then n' == n && NamesFirst(FaultOf(reply), Opening(n, req))
            else if body.Malformed? then n' == n && reply == Refused(MalformedBody)
            else if Announces(body, n.height) then n' == n && reply == Accepted(OwnHeight(n.height))
            else n'.parentID == 0 && n'.parentAddr == None && reply == Refused(BadHeight)
                 && n' == n.(parentID := n'.parentID, parentAddr := n'.parentAddr)
  {
    OpeningOrder(n, req);
  }

  function Incrementing(n: Node, id: NodeID, body: Body<uint32>): seq<Check> {
    var h := if body.Present? then body.value else 0;
    [Check(n.parentID != id, NotParent), Check(body.Malformed?, MalformedBody),
     Check(h != n.height && h != n.height + 1, BadHeight)]
  }

  /** Which of several faults of an INCREMENT is named; `IncrementAcceptedIff` says the rest. */
  lemma IncrementAnswers(n: Node, req: Request, body: Body<uint32>)
    ensures var reply := ServeIncrement(n, req, body).1;
            if !Passes(Opening(n, req)) then NamesFirst(FaultOf(reply), Opening(n, req))
            else NamesFirst(FaultOf(reply), Incrementing(n, req.id, body))
  {
    OpeningOrder(n, req);
    var checks := Incrementing(n, req.id, body);
    assert checks[0].fault == NotParent && checks[1].fault == MalformedBody && checks[2].fault == BadHeight;
  }

  // ---- services -----------------------------------------------------------------------------------

  function Registering(n: Node, id: NodeID, r: RegisterBody): seq<Check> {
    [Check(r.service == "", BadServiceName), Check(r.stale.None?, BadStaleTime),
     Check(r.addr.None?, MalformedAddress), Check(id !in n.tables.leaves && id !in n.tables.cvks, UnknownChildId)]
  }

  /** Which of several faults of a REGISTER is named, and that it is acknowledged with the service's name. */
  lemma RegisterAnswers(n: Node, req: Request, body: Body<RegisterBody>, stopped: bool)
    ensures var reply := ServeRegister(n, req, body, stopped).1;
            if !Passes(Reading(n, req, body)) then NamesFirst(FaultOf(reply), Reading(n, req, body))
            else body.Present? && NamesFirst(FaultOf(reply), Registering(n, req.id, body.value))
                 && (reply.Accepted? ==> reply.ack == ForService(body.value.service))
  {
    ReadingOrder(n, req, body);
    if body.Present? {
      var checks := Registering(n, req.id, body.value);
      assert checks[0].fault == BadServiceName && checks[1].fault == BadStaleTime;
      assert checks[2].fault == MalformedAddress && checks[3].fault == UnknownChildId;
    }
  }

  /** An accepted REGISTER enters the service as given and goes on to the parent, if there is one. */
  lemma RegisterEnters(n: Node, req: Request, body: Body<RegisterBody>, stopped: bool)
    ensures var (n', reply, up) := ServeRegister(n, req, body, stopped);
            && (up <==> reply.Accepted? && n.parentAddr.Some?)
            && n' == n.(tables := n'.tables)
            && (!reply.Accepted? ==> n' == n)
            && (reply.Accepted? ==>
                  && body.Present? && body.value.addr.Some? && body.value.stale.Some?
                  && n'.tables == AddService(n.tables, req.id, body.value.service, body.value.addr.value,
                                             body.value.stale.value, stopped))
  {
  }

  /** A DEREGISTER is refused exactly when the index lists no such entry, but is carried out anyway. */
  lemma DeregisterAnswers(n: Node, req: Request, body: Body<Service>)
    ensures var (n', reply) := ServeDeregister(n, req, body);
            if !Passes(Reading(n, req, body))
            then n' == n && NamesFirst(FaultOf(reply), Reading(n, req, body))
            else && body.Present?
                 && n' == n.(tables := Changed(n.tables, Deregistered(req.id, body.value)))
                 && reply == if body.value !in n.tables.all then Refused(BadServiceName)
                             else if Listed(n.tables.all, body.value, req.id) == None then Refused(UnknownChildId)
                             else Accepted(ForService(body.value))
  {
    ReadingOrder(n, req, body);
    if body.Present? {
      RemoveProviderIsUnlist(n.tables, body.value, req.id);
    }
  }

  function Leaving(n: Node, req: Request, hasBody: bool): seq<Check> {
    [Check(req.shorthand, ShorthandNotAccepted), Check(hasBody, BodyNotAccepted),
     Check(req.version !in n.supported, VersionNotSupported),
     Check(req.id !in n.tables.cvks && req.id !in n.tables.leaves, UnknownChildId)]
  }

  /** LEAVE is acknowledged to every child on record, which is then on record no more. */
  lemma LeaveAnswers(n: Node, req: Request, hasBody: bool, armed: set<Service>, recheck: bool)
    ensures var (n', reply) := ServeLeave(n, req, hasBody, armed, recheck);
            && NamesFirst(FaultOf(reply), Leaving(n, req, hasBody))
            && (reply.Accepted? ==> reply.ack == NoBody)
            && n' == n.(tables := Changed(n.tables, if !reply.Accepted? then Untouched
                                                    else if req.id in n.tables.cvks then CVKRemoved(req.id)
                                                    else LeafRemoved(req.id, armed, recheck)))
  {
    var checks := Leaving(n, req, hasBody);
    assert checks[0].fault == ShorthandNotAccepted && checks[1].fault == BodyNotAccepted;
    assert checks[2].fault == VersionNotSupported && checks[3].fault == UnknownChildId;
  }

  /** A heartbeat that cannot be read, or is not from a leaf, is a fault; see `HeartbeatPartitions` for the rest. */
  lemma HeartbeatFaults(n: Node, req: Request, body: Body<seq<Service>>, running: set<Service>)
    ensures var r := ServeServiceHeartbeat(n, req, body, running);
            if !Passes(Reading(n, req, body))
            then r.NoBeat? && NamesFirst(Some(r.fault), Reading(n, req, body))
            else req.id !in n.tables.leaves ==> r == NoBeat(UnknownChildId)
  {
    ReadingOrder(n, req, body);
  }

  // ---- client requests ----------------------------------------------------------------------------

  /** What is looked at in a client's request, given its token and the address to answer to. */
  function Asking<T>(n: Node, version: Version, body: Body<T>, token: string, respAddr: Option<Addr>): seq<Check> {
    [Check(version !in n.supported, VersionNotSupported), Check(body.Absent?, BodyRequired),
     Check(body.Malformed?, MalformedBody), Check(token == "", BadToken), Check(respAddr.None?, MalformedAddress)]
  }

  lemma AskingOrder<T>(n: Node, version: Version, body: Body<T>, token: string, respAddr: Option<Addr>)
    ensures var checks := Asking(n, version, body, token, respAddr);
            && checks[0].fault == VersionNotSupported && checks[1].fault == BodyRequired
            && checks[2].fault == MalformedBody && checks[3].fault == BadToken && checks[4].fault == MalformedAddress
    ensures Passes(Asking(n, version, body, token, respAddr)) <==>
            version in n.supported && body.Present? && token != "" && respAddr.Some?
  {
    var checks := Asking(n, version, body, token, respAddr);
    assert checks[0].fault == VersionNotSupported && checks[1].fault == BodyRequired;
    assert checks[2].fault == MalformedBody && checks[3].fault == BadToken && checks[4].fault == MalformedAddress;
  }

  function OutcomeFault<T>(outcome: Outcome<T>): Option<Fault> {
    if outcome.Faulted? then Some(outcome.fault) else None
  }

  /** A LIST or GET that has come far enough, or can go no further, is answered where it is. */
  predicate EndsHere(n: Node, hops: uint32) {
    hops <= 1 || n.parentAddr.None?
  }

  /**
    A LIST is dropped if its token was seen; otherwise it is answered with every name listed, at the end of
    its way and also if it cannot be sent on, or sent on with one hop less.
   */
  lemma ListAnswers(n: Node, version: Version, body: Body<ListBody>, sent: bool)
    ensures var (n', outcome) := ServeList(n, version, body, sent);
            var checks := if body.Present? then Asking(n, version, body, body.value.token, body.value.respAddr)
                          else Asking(n, version, body, "", None);
            && NamesFirst(OutcomeFault(outcome), checks)
            && n' == n.(closed := n'.closed)
            && (forall token :: token in n'.closed <==>
                  token in n.closed || (Passes(checks) && body.Present? && token == body.value.token))
            && (Passes(checks) ==>
                  && body.Present?
                  && (outcome.Duplicate? <==> body.value.token in n.closed)
                  && (outcome.Forwarded? <==> body.value.token !in n.closed && !EndsHere(n, body.value.hops) && sent)
                  && (outcome.Forwarded? ==> outcome.hops == body.value.hops - 1)
                  && (outcome.Answered? ==> forall s :: s in outcome.value <==> s in n.tables.all))
  {
    AskingOrder(n, version, body, "", None);
    if body.Present? {
      AskingOrder(n, version, body, body.value.token, body.value.respAddr);
    }
  }

  /** A GET is answered with the addresses listed for the service if any are, wherever it is on its way. */
  lemma GetAnswers(n: Node, version: Version, body: Body<GetBody>)
    ensures var outcome := ServeGet(n, version, body);
            var checks := if body.Present? then Asking(n, version, body, body.value.token, body.value.respAddr)
                          else Asking(n, version, body, "", None);
            && NamesFirst(OutcomeFault(outcome), checks)
            && !outcome.Duplicate?
            && (Passes(checks) ==>
                  body.Present? && var s := body.value.service;
                  && (outcome.Answered? && outcome.value.Found? <==> s in n.tables.all)
                  && (outcome == Answered(NotFound) <==> s !in n.tables.all && EndsHere(n, body.value.hops))
                  && (outcome.Forwarded? ==> outcome.hops == body.value.hops - 1)
                  && (outcome.Answered? && outcome.value.Found? ==>
                        forall a :: a in outcome.value.addrs <==> exists c :: Listed(n.tables.all, s, c) == Some(a)))
  {
    AskingOrder(n, version, body, "", None);
    if body.Present? {
      AskingOrder(n, version, body, body.value.token, body.value.respAddr);
    }
    if body.Present? && body.value.service in n.tables.all {
      AddressesListed(n.tables.all, body.value.service);
    }
  }

  lemma AddressesListed(all: Index, s: Service)
    requires s in all
    ensures forall a :: a in all[s].Values <==> exists c :: Listed(all, s, c) == Some(a)
  {
    forall a | a in all[s].Values
      ensures exists c :: Listed(all, s, c) == Some(a)
    {
      var c :| c in all[s] && all[s][c] == a;
      assert Listed(all, s, c) == Some(a);
    }
  }

  // ---- parents ------------------------------------------------------------------------------------

  /** Joining under a parent records who and where it is, and giving it up undoes just that. */
  lemma ParentComesAndGoes(n: Node, parentID: NodeID, addr: Addr)
    ensures var n' := JoinAccepted(n, parentID, addr);
            && n'.parentID == parentID && n'.parentAddr == Some(addr)
            && (n.parentID == 0 && n.parentAddr == None ==> DropParent(n') == n)
            && DropParent(n').parentID == 0 && DropParent(n').parentAddr == None
  {
  }

  /**
    The requester of an accepted MERGE rises by one level, enters the target without services at its address,
    and tells every other child VK, unless the target is one of its leaves.
   */
  lemma MergeRequesterRises(n: Node, target: NodeID, addr: Addr)
    requires n.height < MAX_UINT16
    ensures var (n', sent, entered) := MergeAccepted(n, target, addr);
            && n'.height == n.height + 1 && n' == n.(height := n'.height, tables := n'.tables)
            && (entered <==> target !in n.tables.leaves)
            && n'.tables == Changed(n.tables, CVKAdded(target, addr))
            && (forall m :: m in sent <==> entered && m.dest in n.tables.cvks && m.dest != target
                                           && m.from == n.id && m.newHeight == n.height)
  {
    var (n', sent, entered) := MergeAccepted(n, target, addr);
    assert n'.tables.cvks.Keys == n.tables.cvks.Keys + if entered then {target} else {};
    assert forall m | m in sent :: m == Increment(n.id, m.dest, n.height);
    assert forall m: Increment :: m == Increment(m.from, m.dest, m.newHeight);
  }

  /** An ID whose HELLO has been forgotten must greet again, and a LIST token that has been is as good as new. */
  lemma ForgottenIsGone(n: Node, req: Request, join: JoinBody, list: ListBody, sent: bool)
    ensures var n' := Apply(n, ForgetHello(req.id));
            && n' == n.(hellos := n'.hellos) && (forall c | c != req.id :: c in n'.hellos <==> c in n.hellos)
            && (!(join.isVk && req.id in n.tables.cvks) ==> !ServeJoin(n', req, Present(join)).1.Accepted?)
    ensures var n' := Apply(n, ForgetToken(list.token));
            && n' == n.(closed := n'.closed) && (forall x | x != list.token :: x in n'.closed <==> x in n.closed)
            && !ServeList(n', req.version, Present(list), sent).1.Duplicate?
  {
  }

  /** A parent given up is obeyed no more. */
  lemma LostParentIsIgnored(n: Node, req: Request, incr: Body<uint32>)
    requires req.id != 0
    ensures var n' := Apply(n, LoseParent);
            && n' == n.(parentID := 0, parentAddr := None)
            && ServeIncrement(n', req, incr).0 == n' && ServeIncrement(n', req, incr).1.Refused?
  {
  }

  /** HELLO, JOIN, MERGE and INCREMENT without fault are acknowledged with the height the vaultkeeper then has. */
  lemma AcksAnnounceHeight(n: Node, req: Request, hasBody: bool, join: Body<JoinBody>, merge: Body<MergeBody>,
                           sender: Option<Addr>, incr: Body<uint32>)
    ensures Acknowledges(ServeHello(n, req, hasBody), !req.shorthand && !hasBody)
    ensures Acknowledges(ServeJoin(n, req, join),
                         Passes(Reading(n, req, join)) && join.Present? && Passes(Joining(n, req.id, join.value)))
    ensures Acknowledges(ServeMerge(n, req, merge, sender),
                         Passes(Opening(n, req)) && if n.parentID == req.id
                                                    then !merge.Malformed? && Announces(merge, n.height)
                                                    else Passes(Merging(n, req.id, merge, sender)))
    ensures var (n', reply, sent) := ServeIncrement(n, req, incr);
            Acknowledges((n', reply), Passes(Opening(n, req)) && Passes(Incrementing(n, req.id, incr)))
  {
    JoinAnswers(n, req, join);
    if n.parentID == req.id {
      RepeatedMergeAnswers(n, req, merge, sender);
    } else {
      MergeAnswers(n, req, merge, sender);
    }
    IncrementAnswers(n, req, incr);
  }

  predicate Acknowledges(r: (Node, Reply), faultless: bool) {
    if faultless then r.1 == Accepted(OwnHeight(r.0.height)) else r.1.Refused?
  }
}
