/**
  The vaultkeeper as an object whose handlers update it in place. Every method is proved to do to the
  object exactly what its counterpart in VaultNode does to the value `State()`.
 */
module VaultKeepers {
  import opened Basics
  import opened Versions
  import opened ChildTables
  import N = VaultNode

  class VaultKeeper {
    const id: NodeID
    const supported: set<Version>

    var height: uint16
    var parentID: NodeID
    var parentAddr: Option<Addr>

    var leaves: map<NodeID, map<Service, LeafService>>
    var cvks: map<NodeID, ChildVK>
    var allServices: Index

    var pendingHellos: set<NodeID>
    var closedListTokens: set<string>

    // timers that are armed or about to run, and the history the conservation laws speak of
    ghost var prunes: multiset<(NodeID, Service)>
    ghost var rechecks: multiset<NodeID>
    ghost var added: multiset<Service>
    ghost var deregs: multiset<Service>
    ghost var greeted: multiset<NodeID>
    ghost var installed: multiset<NodeID>

    ghost function Children(): Tables
      reads this
    {
      Tables(leaves, cvks, allServices, prunes, rechecks, added, deregs)
    }

    ghost function State(): N.Node
      reads this
    {
      N.Node(id, supported, height, parentID, parentAddr, pendingHellos, closedListTokens, Children(),
             greeted, installed)
    }

    constructor (id: NodeID, supported: set<Version>, hoard: uint16)
      ensures State() == N.Fresh(id, supported, hoard)
    {
      this.id, this.supported := id, supported;
      height, parentID, parentAddr := hoard, 0, None;
      leaves, cvks, allServices := map[], map[], map[];
      pendingHellos, closedListTokens := {}, {};
      prunes, rechecks, added, deregs := multiset{}, multiset{}, multiset{}, multiset{};
      greeted, installed := multiset{}, multiset{};
    }

    // ---- child tables -----------------------------------------------------------------------------

    method AddCVK(cID: NodeID, addr: Addr) returns (isLeaf: bool)
      modifies this`cvks
      ensures Children() == ChildTables.AddCVK(old(Children()), cID, addr)
      ensures isLeaf <==> cID in leaves
    {
      if cID in leaves {
        return true;
      }
      cvks := cvks[cID := ChildVK(map[], addr)];
      return false;
    }

    method AddLeaf(lID: NodeID) returns (isCVK: bool)
      modifies this`leaves, this`rechecks
      ensures Children() == ChildTables.AddLeaf(old(Children()), lID)
      ensures isCVK <==> lID in cvks
    {
      if lID in cvks {
        return true;
      } else if lID in leaves {
        return false;
      }
      leaves := leaves[lID := map[]];
      rechecks := rechecks + multiset{lID};
      return false;
    }

    method AddService(childID: NodeID, service: Service, addr: Addr, stale: int, ghost stopped: bool)
      returns (fault: Option<Fault>)
      modifies this`leaves, this`cvks, this`allServices, this`prunes, this`added
      ensures Children() == ChildTables.AddService(old(Children()), childID, service, addr, stale, stopped)
      ensures fault == if childID in old(leaves) || childID in old(cvks) then None else Some(UnknownChildId)
    {
      ghost var t := Record(Children(), childID, service, addr, stale);
      if childID in leaves {
        prunes := Restart(Children(), childID, service, stopped);
        leaves := leaves[childID := leaves[childID][service := LeafService(addr, stale)]];
        assert Children() == t.(prunes := prunes);
      } else if childID in cvks {
        var cvk := cvks[childID];
        cvks := cvks[childID := cvk.(services := cvk.services[service := addr])];
        assert Children() == t;
      } else {
        return Some(UnknownChildId);
      }
      ListProvider(childID, service, addr);
      return None;
    }

    /** The second half of `AddService`: the index. */
    method ListProvider(childID: NodeID, service: Service, addr: Addr)
      modifies this`allServices, this`added
      ensures allServices == Listing(old(allServices), service, childID, addr)
      ensures added == if service in old(allServices) then old(added) else old(added) + multiset{service}
    {
      if service in allServices {
        var providers: map<NodeID, Addr> := allServices[service][childID := addr];
        allServices := allServices[service := providers];
      } else {
        added := added + multiset{service};
        allServices := allServices[service := map[childID := addr]];
      }
    }

    method RemoveProvider(service: Service, childID: NodeID) returns (fault: Option<Fault>)
      modifies this`allServices, this`deregs
      ensures (Children(), fault) == ChildTables.RemoveProvider(old(Children()), service, childID)
    {
      if service !in allServices {
        return Some(BadServiceName);
      } else if childID !in allServices[service] {
        return Some(UnknownChildId);
      }
      ghost var t := Children();
      var rest := allServices[service] - {childID};
      if rest == map[] {
        SoleProvider(allServices, service, childID);
        allServices := allServices - {service};
        deregs := deregs + multiset{service};  // the parent is notified
      } else {
        SharedProvider(allServices, service, childID);
        allServices := allServices[service := rest];
      }
      assert Children() == Unlist(t, {service}, childID);
      return None;
    }

    /** The deferred loop of the removal methods: the child stops providing each of its services. */
    method RemoveAsProvider(names: set<Service>, childID: NodeID)
      modifies this`allServices, this`deregs
      ensures Children() == Unlist(old(Children()), names, childID)
    {
      ghost var t := Children();
      ghost var done := {};
      var todo := names;
      UnlistNothing(t, childID);
      while todo != {}
        invariant todo <= names && done == names - todo
        invariant Children() == Unlist(t, done, childID)
      {
        var svc :| svc in todo;
        todo := todo - {svc};
        WithoutStep(t.all, done, svc, childID);
        RemoveProviderIsUnlist(Children(), svc, childID);
        var _ := RemoveProvider(svc, childID);
        UnlistStep(t, done, svc, childID);
        done := done + {svc};
      }
      assert done == names;
    }

    method RemoveCVK(cID: NodeID) returns (found: bool)
      modifies this`cvks, this`allServices, this`deregs
      ensures Children() == ChildTables.RemoveCVK(old(Children()), cID)
      ensures found <==> cID in old(cvks)
    {
      if cID !in cvks {
        return false;
      }
      var services := cvks[cID].services;
      cvks := cvks - {cID};
      RemoveAsProvider(services.Keys, cID);
      return true;
    }

    /** A child VK's record expires; its cleanup callback gets the expired record. */
    method ExpireCVK(cID: NodeID)
      modifies this`cvks, this`allServices, this`deregs
      ensures Children() == ChildTables.RemoveCVK(old(Children()), cID)
    {
      if cID in cvks {
        var expired := cvks[cID];
        cvks := cvks - {cID};
        RemoveAsProvider(expired.services.Keys, cID);
      }
    }

    method RemoveLeaf(lID: NodeID, ghost armed: set<Service>, ghost recheck: bool) returns (found: bool)
      modifies this`leaves, this`allServices, this`deregs, this`prunes, this`rechecks
      ensures Children() == ChildTables.RemoveLeaf(old(Children()), lID, armed, recheck)
      ensures found <==> lID in old(leaves)
    {
      if lID !in leaves {
        return false;
      }
      var services := leaves[lID];
      ghost var t := StopTimers(Children(), lID, armed, recheck);
      prunes, rechecks := t.prunes, t.rechecks;
      leaves := leaves - {lID};
      assert Children() == t.(leaves := leaves);
      RemoveAsProvider(services.Keys, lID);
      return true;
    }

    /** The stale-service callback. */
    method PruneServiceFromLeaf(childID: NodeID, service: Service, ghost running: bool)
      modifies this`leaves, this`allServices, this`deregs, this`prunes, this`rechecks
      ensures Children() == FirePrune(old(Children()), childID, service, running)
    {
      ghost var t := Children();
      var _ := RemoveProvider(service, childID);
      ghost var t1 := Children();
      if childID in leaves {
        leaves := leaves[childID := leaves[childID] - {service}];
      }
      assert Children() == DropLeafService(t1, childID, service) == Forget(t, childID, service);
      prunes := prunes - multiset{(childID, service)};
      if childID in leaves && leaves[childID] == map[] {
        rechecks := Rearm(rechecks, childID, running);
      }
    }

    /** The serviceless-leaf callback. */
    method PruneServicelessLeaf(lID: NodeID)
      modifies this`leaves, this`rechecks
      ensures Children() == FireRecheck(old(Children()), lID)
    {
      rechecks := rechecks - multiset{lID};
      if lID in leaves && leaves[lID] == map[] {
        leaves := leaves - {lID};
      }
    }

    // ---- structure --------------------------------------------------------------------------------

    method ServeHello(req: N.Request, hasBody: bool) returns (reply: Reply)
      modifies this`pendingHellos, this`greeted
      ensures (State(), reply) == N.ServeHello(old(State()), req, hasBody)
    {
      if req.shorthand {
        return Refused(ShorthandNotAccepted);
      } else if hasBody {
        return Refused(BodyNotAccepted);
      }
      pendingHellos := pendingHellos + {req.id};
      greeted := greeted + multiset{req.id};
      return Accepted(OwnHeight(height));
    }

    method ServeJoin(req: N.Request, body: Body<N.JoinBody>) returns (reply: Reply)
      modifies this`pendingHellos, this`leaves, this`cvks, this`rechecks, this`installed
      ensures (State(), reply) == N.ServeJoin(old(State()), req, body)
    {
      if req.shorthand {
        return Refused(ShorthandNotAccepted);
      } else if body.Absent? {
        return Refused(BodyRequired);
      } else if req.version !in supported {
        return Refused(VersionNotSupported);
      } else if body.Malformed? {
        return Refused(MalformedBody);
      }
      var j := body.value;
      ghost var n := State();
      if j.isVk {
        assert N.ServeJoin(n, req, body) == N.JoinVK(n, req.id, j);
        if j.height != Pred32(height) {
          return Refused(BadHeight);
        }
        if j.vkAddr.None? {
          return Refused(MalformedAddress);
        }
        if req.id in cvks {  // refreshed
          return Accepted(OwnHeight(height));
        }
        if req.id !in pendingHellos {
          return Refused(HelloRequired);
        }
        pendingHellos := pendingHellos - {req.id};
        var isLeaf := AddCVK(req.id, j.vkAddr.value);
        if isLeaf {
          return Refused(IdInUse);
        }
        installed := installed + multiset{req.id};
        assert State() == n.(hellos := pendingHellos, installed := installed,
                             tables := ChildTables.AddCVK(n.tables, req.id, j.vkAddr.value));
        return Accepted(OwnHeight(height));
      } else {
        assert N.ServeJoin(n, req, body) == N.JoinLeaf(n, req.id);
        if req.id !in pendingHellos {
          return Refused(HelloRequired);
        }
        pendingHellos := pendingHellos - {req.id};
        ghost var known := req.id in leaves;
        var isCVK := AddLeaf(req.id);
        if isCVK {
          return Refused(IdInUse);
        }
        installed := if known then installed else installed + multiset{req.id};
        assert State() == n.(hellos := pendingHellos, installed := installed,
                             tables := ChildTables.AddLeaf(n.tables, req.id));
        return Accepted(OwnHeight(height));
      }
    }

    method ServeMerge(req: N.Request, body: Body<N.MergeBody>, sender: Option<Addr>) returns (reply: Reply)
      modifies this`parentID, this`parentAddr, this`pendingHellos, this`installed
      ensures (State(), reply) == N.ServeMerge(old(State()), req, body, sender)
    {
      if req.shorthand {
        return Refused(ShorthandNotAccepted);
      } else if req.version !in supported {
        return Refused(VersionNotSupported);
      }
      var reqHeight := 0;
      if parentID == req.id {
        if body.Malformed? {
          return Refused(MalformedBody);
        } else if body.Present? {
          reqHeight := body.value.height;
        }
        if reqHeight != height {
          parentAddr, parentID := None, 0;
          return Refused(BadHeight);
        }
        return Accepted(OwnHeight(height));
      } else if parentAddr.Some? {
        return Refused(NotRoot);
      }
      if req.id !in pendingHellos {
        return Refused(HelloRequired);
      }
      pendingHellos := pendingHellos - {req.id};
      if req.id in leaves || req.id in cvks {
        return Refused(IdInUse);
      }
      var addr := None;
      if body.Malformed? {
        return Refused(MalformedBody);
      } else if body.Present? {
        reqHeight := body.value.height;
        addr := if body.value.vkAddress.Some? then body.value.vkAddress.value else sender;
      }
      if reqHeight != height {
        return Refused(BadHeight);
      } else if reqHeight > MAX_UINT16 - 1 {
        return Refused(BadHeight);
      }
      if addr.None? {
        return Refused(MalformedAddress);
      }
      parentAddr, parentID := addr, req.id;
      installed := installed + multiset{req.id};
      return Accepted(OwnHeight(height));
    }

    /** One INCREMENT to every child VK but those in `except`, in whatever order the table yields them. */
    method IncrementChildren(except: set<NodeID>) returns (sent: seq<N.Increment>)
      ensures multiset(sent) == multiset(N.FanOut(State(), except))
    {
      sent := [];
      var todo := cvks.Keys;
      while todo != {}
        invariant todo <= cvks.Keys
        invariant multiset(sent) ==
                  multiset(set c | c in cvks.Keys - todo && c !in except :: N.Increment(id, c, Pred32(height)))
      {
        var c :| c in todo;
        ghost var before := set x | x in cvks.Keys - todo && x !in except :: N.Increment(id, x, Pred32(height));
        todo := todo - {c};
        ghost var after := set x | x in cvks.Keys - todo && x !in except :: N.Increment(id, x, Pred32(height));
        if c !in except {
          var m := N.Increment(id, c, Pred32(height));
          assert after == before + {m} && m !in before;
          assert multiset(after) == multiset(before) + multiset{m};
          sent := sent + [m];
        } else {
          assert after == before;
        }
      }
      assert N.FanOut(State(), except) ==
             set c | c in cvks.Keys - todo && c !in except :: N.Increment(id, c, Pred32(height));
    }

    /** The requester's half of an accepted MERGE. */
    method MergeAccepted(target: NodeID, addr: Addr) returns (sent: seq<N.Increment>, ok: bool)
      modifies this`height, this`cvks
      ensures State() == N.MergeAccepted(old(State()), target, addr).0
      ensures multiset(sent) == multiset(N.MergeAccepted(old(State()), target, addr).1)
      ensures ok == N.MergeAccepted(old(State()), target, addr).2
    {
      height := Succ16(height);
      var isLeaf := AddCVK(target, addr);
      if isLeaf {
        return [], false;
      }
      sent := IncrementChildren({target});
      ok := true;
    }

    method ServeIncrement(req: N.Request, body: Body<uint32>) returns (reply: Reply, sent: seq<N.Increment>)
      modifies this`height
      ensures var r := N.ServeIncrement(old(State()), req, body);
              State() == r.0 && reply == r.1 && multiset(sent) == multiset(r.2)
    {
      sent := [];
      if req.shorthand {
        return Refused(ShorthandNotAccepted), [];
      } else if req.version !in supported {
        return Refused(VersionNotSupported), [];
      } else if parentID != req.id {
        return Refused(NotParent), [];
      } else if body.Malformed? {
        return Refused(MalformedBody), [];
      }
      var newHeight := if body.Present? then body.value else 0;
      if newHeight == height {
        return Accepted(OwnHeight(height)), [];
      } else if newHeight == height + 1 {
        height := Succ16(height);
        sent := IncrementChildren({});
        return Accepted(OwnHeight(height)), sent;
      }
      return Refused(BadHeight), [];
    }

    /** The requester's half of an accepted JOIN, and the registrations it then sends to its parent. */
    method JoinAccepted(newParent: NodeID, addr: Addr) returns (sent: seq<(Service, Addr)>)
      modifies this`parentID, this`parentAddr
      ensures State() == N.JoinAccepted(old(State()), newParent, addr)
      ensures N.HandsUp(allServices, sent)
    {
      parentAddr, parentID := Some(addr), newParent;
      sent := [];
      var todo := allServices.Keys;
      while todo != {}
        invariant todo <= allServices.Keys
        invariant forall m | m in sent :: m.0 in allServices && m.1 in allServices[m.0].Values
        invariant forall s, c | s in allServices && s !in todo && c in allServices[s] ::
                    (s, allServices[s][c]) in sent
      {
        var svc :| svc in todo;
        todo := todo - {svc};
        var providers := allServices[svc].Keys;
        while providers != {}
          invariant providers <= allServices[svc].Keys
          invariant forall m | m in sent :: m.0 in allServices && m.1 in allServices[m.0].Values
          invariant forall s, c | s in allServices && s !in todo + {svc} && c in allServices[s] ::
                      (s, allServices[s][c]) in sent
          invariant forall c | c in allServices[svc] && c !in providers :: (svc, allServices[svc][c]) in sent
        {
          var c :| c in providers;
          providers := providers - {c};
          sent := sent + [(svc, allServices[svc][c])];
        }
      }
    }

    /** Leaving, and giving a silent parent up for dead, both clear the parent. */
    method DropParent()
      modifies this`parentID, this`parentAddr
      ensures State() == N.DropParent(old(State()))
    {
      parentAddr, parentID := None, 0;
    }

    // ---- services ---------------------------------------------------------------------------------

    method ServeRegister(req: N.Request, body: Body<N.RegisterBody>, ghost stopped: bool)
      returns (reply: Reply, up: bool)
      modifies this`leaves, this`cvks, this`allServices, this`prunes, this`added
      ensures (State(), reply, up) == N.ServeRegister(old(State()), req, body, stopped)
    {
      if req.shorthand {
        return Refused(ShorthandNotAccepted), false;
      } else if body.Absent? {
        return Refused(BodyRequired), false;
      } else if req.version !in supported {
        return Refused(VersionNotSupported), false;
      } else if body.Malformed? {
        return Refused(MalformedBody), false;
      }
      var r := body.value;
      if r.service == "" {
        return Refused(BadServiceName), false;
      } else if r.stale.None? {
        return Refused(BadStaleTime), false;
      } else if r.addr.None? {
        return Refused(MalformedAddress), false;
      }
      var fault := AddService(req.id, r.service, r.addr.value, r.stale.value, stopped);
      if fault.Some? {
        return Refused(fault.value), false;
      }
      return Accepted(ForService(r.service)), parentAddr.Some?;
    }

    method ServeDeregister(req: N.Request, body: Body<Service>) returns (reply: Reply)
      modifies this`leaves, this`cvks, this`allServices, this`deregs
      ensures (State(), reply) == N.ServeDeregister(old(State()), req, body)
    {
      if req.shorthand {
        return Refused(ShorthandNotAccepted);
      } else if body.Absent? {
        return Refused(BodyRequired);
      } else if req.version !in supported {
        return Refused(VersionNotSupported);
      } else if body.Malformed? {
        return Refused(MalformedBody);
      }
      var fault := RemoveProvider(body.value, req.id);
      if req.id in cvks {
        var cvk := cvks[req.id];
        cvks := cvks[req.id := cvk.(services := cvk.services - {body.value})];
      } else if req.id in leaves {
        leaves := leaves[req.id := leaves[req.id] - {body.value}];
      }
      return if fault.Some? then Refused(fault.value) else Accepted(ForService(body.value));
    }

    method ServeLeave(req: N.Request, hasBody: bool, ghost armed: set<Service>, ghost recheck: bool)
      returns (reply: Reply)
      modifies this`leaves, this`cvks, this`allServices, this`deregs, this`prunes, this`rechecks
      ensures (State(), reply) == N.ServeLeave(old(State()), req, hasBody, armed, recheck)
    {
      if req.shorthand {
        return Refused(ShorthandNotAccepted);
      } else if hasBody {
        return Refused(BodyNotAccepted);
      } else if req.version !in supported {
        return Refused(VersionNotSupported);
      }
      var found := RemoveCVK(req.id);
      if found {
        return Accepted(NoBody);
      }
      found := RemoveLeaf(req.id, armed, recheck);
      if found {
        return Accepted(NoBody);
      }
      return Refused(UnknownChildId);
    }

    /** `running` are the services whose timer can still be stopped. */
    method ServeServiceHeartbeat(req: N.Request, body: Body<seq<Service>>, running: set<Service>)
      returns (r: N.HeartbeatReply)
      ensures r == N.ServeServiceHeartbeat(State(), req, body, running)
    {
      if req.shorthand {
        return N.NoBeat(ShorthandNotAccepted);
      } else if body.Absent? {
        return N.NoBeat(BodyRequired);
      } else if req.version !in supported {
        return N.NoBeat(VersionNotSupported);
      } else if body.Malformed? {
        return N.NoBeat(MalformedBody);
      } else if req.id !in leaves {
        return N.NoBeat(UnknownChildId);
      }
      ghost var known := leaves[req.id].Keys * running;
      var refreshed, unknowns: seq<Service> := [], [];
      var i := 0;
      while i < |body.value|
        invariant 0 <= i <= |body.value|
        invariant refreshed == N.Refreshed(body.value[..i], known)
        invariant unknowns == N.Unknowns(body.value[..i], known)
      {
        var svc := body.value[i];
        assert body.value[..i + 1][..i] == body.value[..i];
        if svc !in leaves[req.id] || svc !in running {
          unknowns := unknowns + [svc];
        } else {
          refreshed := refreshed + [svc];
        }
        i := i + 1;
      }
      assert body.value[..i] == body.value;
      if refreshed == [] {
        return N.NoBeat(AllUnknown);
      }
      return N.Beat(refreshed, unknowns);
    }

    // ---- client requests --------------------------------------------------------------------------

    /** `sent` is the outcome of forwarding, when it comes to that. */
    method ServeList(version: Version, body: Body<N.ListBody>, sent: bool)
      returns (outcome: N.Outcome<set<Service>>)
      modifies this`closedListTokens
      ensures (State(), outcome) == N.ServeList(old(State()), version, body, sent)
    {
      if version !in supported {
        return N.Faulted(VersionNotSupported);
      } else if body.Absent? {
        return N.Faulted(BodyRequired);
      } else if body.Malformed? {
        return N.Faulted(MalformedBody);
      } else if body.value.token == "" {
        return N.Faulted(BadToken);
      } else if body.value.respAddr.None? {
        return N.Faulted(MalformedAddress);
      } else if body.value.token in closedListTokens {
        return N.Duplicate;
      }
      closedListTokens := closedListTokens + {body.value.token};
      var hops := body.value.hops;
      if hops > 0 {
        hops := hops - 1;
      }
      if hops == 0 || parentAddr.None? {
        return N.Answered(allServices.Keys);
      }
      if !sent {  // answer as if we were the final destination
        return N.Answered(allServices.Keys);
      }
      return N.Forwarded(hops);
    }

    /** The answer is the address of an arbitrary provider; None when there is no provider. */
    method ServeGet(version: Version, body: Body<N.GetBody>) returns (outcome: N.Outcome<Option<Addr>>)
      requires forall s | s in allServices :: allServices[s] != map[]
      ensures match N.ServeGet(State(), version, body)
              case Answered(Found(addrs)) =>
                outcome.Answered? && outcome.value.Some? && outcome.value.value in addrs
              case Answered(NotFound) => outcome == N.Answered(None)
              case Faulted(f) => outcome == N.Faulted(f)
              case Forwarded(h) => outcome == N.Forwarded(h)
              case Duplicate => false
    {
      if version !in supported {
        return N.Faulted(VersionNotSupported);
      } else if body.Absent? {
        return N.Faulted(BodyRequired);
      } else if body.Malformed? {
        return N.Faulted(MalformedBody);
      } else if body.value.token == "" {
        return N.Faulted(BadToken);
      } else if body.value.respAddr.None? {
        return N.Faulted(MalformedAddress);
      }
      var hops := body.value.hops;
      if hops > 0 {
        hops := hops - 1;
      }
      if body.value.service in allServices {
        var providers := allServices[body.value.service];
        var k :| k in providers;
        return N.Answered(Some(providers[k]));
      }
      if hops == 0 || parentAddr.None? {
        return N.Answered(None);
      }
      return N.Forwarded(hops);
    }

    // ---- status -----------------------------------------------------------------------------------

    /** The provider counts of a STATUS response: one 32-bit increment per child and service. */
    method CountProviders() returns (counts: map<Service, uint32>)
      requires leaves.Keys !! cvks.Keys
      ensures Counted(Children(), cvks.Keys + leaves.Keys, counts)
    {
      counts := CountVKs();
      counts := CountLeaves(counts);
    }

    method CountVKs() returns (counts: map<Service, uint32>)
      requires leaves.Keys !! cvks.Keys
      ensures Counted(Children(), cvks.Keys, counts)
    {
      counts := map[];
      ghost var done: set<NodeID> := {};
      var todo := cvks.Keys;
      while todo != {}
        invariant todo <= cvks.Keys && done == cvks.Keys - todo
        invariant Counted(Children(), done, counts)
      {
        var c :| c in todo;
        todo := todo - {c};
        ghost var before := counts;
        counts := CountOne(counts, cvks[c].services.Keys);
        CountedStep(Children(), done, c, before, counts);
        done := done + {c};
      }
      assert done == cvks.Keys;
    }

    method CountLeaves(vkCounts: map<Service, uint32>) returns (counts: map<Service, uint32>)
      requires leaves.Keys !! cvks.Keys
      requires Counted(Children(), cvks.Keys, vkCounts)
      ensures Counted(Children(), cvks.Keys + leaves.Keys, counts)
    {
      counts := vkCounts;
      ghost var done := cvks.Keys;
      var todo := leaves.Keys;
      while todo != {}
        invariant todo <= leaves.Keys && done == cvks.Keys + (leaves.Keys - todo)
        invariant Counted(Children(), done, counts)
      {
        var c :| c in todo;
        todo := todo - {c};
        ghost var before := counts;
        counts := CountOne(counts, leaves[c].Keys);
        CountedStep(Children(), done, c, before, counts);
        done := done + {c};
      }
      assert done == cvks.Keys + leaves.Keys;
    }

    static method CountOne(counts: map<Service, uint32>, names: set<Service>) returns (r: map<Service, uint32>)
      ensures Bumped(counts, names, r)
    {
      r := counts;
      var todo := names;
      while todo != {}
        invariant todo <= names
        invariant Bumped(counts, names - todo, r)
      {
        var s :| s in todo;
        todo := todo - {s};
        r := r[s := ((if s in r then r[s] else 0) + 1) % TWO_TO_32];
      }
    }
  }

  // ---- lemmas for the loops -------------------------------------------------------------------------

  lemma SoleProvider(all: Index, s: Service, id: NodeID)
    requires s in all && id in all[s] && all[s] - {id} == map[]
    ensures Without(all, {s}, id) == all - {s} && SoleProvided(all, {s}, id) == {s}
  {
    assert all[s].Keys == (all[s] - {id}).Keys + {id};
  }

  lemma SharedProvider(all: Index, s: Service, id: NodeID)
    requires s in all && id in all[s] && all[s] - {id} != map[]
    ensures Without(all, {s}, id) == all[s := all[s] - {id}] && SoleProvided(all, {s}, id) == {}
  {
    var c :| c in all[s] - {id};
    assert c in all[s].Keys;
  }

  lemma UnlistNothing(t: Tables, id: NodeID)
    ensures Unlist(t, {}, id) == t
  {
    assert Without(t.all, {}, id) == t.all;
    assert SoleProvided(t.all, {}, id) == {};
  }

  lemma UnlistStep(t: Tables, done: set<Service>, s: Service, id: NodeID)
    requires s !in done
    ensures Unlist(Unlist(t, done, id), {s}, id) == Unlist(t, done + {s}, id)
  {
    WithoutStep(t.all, done, s, id);
    var first, second := SoleProvided(t.all, done, id), SoleProvided(Without(t.all, done, id), {s}, id);
    assert first !! second;
    assert multiset(first + second) == multiset(first) + multiset(second);
  }

  /** `after` counts each of `names` once more than `before`, in 32-bit arithmetic. */
  ghost predicate Bumped(before: map<Service, uint32>, names: set<Service>, after: map<Service, uint32>) {
    && after.Keys == before.Keys + names
    && (forall s | s in names :: after[s] == if s in before then (before[s] + 1) % TWO_TO_32 else 1)
    && (forall s | s in before && s !in names :: after[s] == before[s])
  }

  /** Those of `done` that offer `s`. */
  function Offering(t: Tables, done: set<NodeID>, s: Service): set<NodeID> {
    set c | c in done && Offers(t, c, s).Some?
  }

  ghost predicate Counted(t: Tables, done: set<NodeID>, counts: map<Service, uint32>) {
    forall s :: CountIs(counts, s, |Offering(t, done, s)|)
  }

  predicate CountIs(counts: map<Service, uint32>, s: Service, n: nat) {
    (s in counts <==> n > 0) && (s in counts ==> counts[s] == n % TWO_TO_32)
  }

  function Names(t: Tables, c: NodeID): set<Service> {
    if c in t.leaves then t.leaves[c].Keys else if c in t.cvks then t.cvks[c].services.Keys else {}
  }

  lemma CountedStep(t: Tables, done: set<NodeID>, c: NodeID,
                    before: map<Service, uint32>, after: map<Service, uint32>)
    requires t.leaves.Keys !! t.cvks.Keys
    requires Counted(t, done, before) && c !in done
    requires Bumped(before, Names(t, c), after)
    ensures Counted(t, done + {c}, after)
  {
    forall s
      ensures CountIs(after, s, |Offering(t, done + {c}, s)|)
    {
      assert CountIs(before, s, |Offering(t, done, s)|);
      OfferingGrows(t, done, c, s);
      CountBumps(before, Names(t, c), after, s, |Offering(t, done, s)|);
    }
  }

  lemma OfferingGrows(t: Tables, done: set<NodeID>, c: NodeID, s: Service)
    requires t.leaves.Keys !! t.cvks.Keys && c !in done
    ensures |Offering(t, done + {c}, s)| == |Offering(t, done, s)| + if s in Names(t, c) then 1 else 0
  {
    if s in Names(t, c) {
      assert Offering(t, done + {c}, s) == Offering(t, done, s) + {c};
    } else {
      assert Offering(t, done + {c}, s) == Offering(t, done, s);
    }
  }

  lemma CountBumps(before: map<Service, uint32>, names: set<Service>, after: map<Service, uint32>,
                   s: Service, n: nat)
    requires Bumped(before, names, after) && CountIs(before, s, n)
    ensures CountIs(after, s, n + if s in names then 1 else 0)
  {
    assert (n % TWO_TO_32 + 1) % TWO_TO_32 == (n + 1) % TWO_TO_32;
  }

  /** When the index agrees, the counts are the numbers of providers it lists, modulo 2^32. */
  lemma StatusCountsProviders(t: Tables, counts: map<Service, uint32>)
    requires Agrees(t) && Counted(t, t.cvks.Keys + t.leaves.Keys, counts)
    ensures counts.Keys == t.all.Keys
    ensures forall s | s in counts :: counts[s] == |t.all[s]| % TWO_TO_32
  {
    forall s
      ensures s in counts <==> s in t.all
      ensures s in counts ==> counts[s] == |t.all[s]| % TWO_TO_32
    {
      EveryoneOffering(t, s);
      assert CountIs(counts, s, |Offering(t, t.cvks.Keys + t.leaves.Keys, s)|);
    }
  }

  /** In agreeing tables those who offer s are its listed providers. */
  lemma EveryoneOffering(t: Tables, s: Service)
    requires Agrees(t)
    ensures |Offering(t, t.cvks.Keys + t.leaves.Keys, s)| == if s in t.all then |t.all[s]| else 0
    ensures s in t.all ==> |t.all[s]| > 0
  {
    var offering := Offering(t, t.cvks.Keys + t.leaves.Keys, s);
    forall c
      ensures c in offering <==> s in t.all && c in t.all[s]
    {
      assert Listed(t.all, s, c) == Offers(t, c, s);
    }
    if s in t.all {
      assert offering == t.all[s].Keys;
      assert t.all[s] != map[];
    } else {
      assert offering == {};
    }
  }
}
