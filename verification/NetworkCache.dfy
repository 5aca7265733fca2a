/** The network cache (src/network/domain.rs:196-311), the rules that change it (src/network/logic.rs)
    and the stream of persistence commands that follows every change. */
module NetworkCache {
  import opened Common

  datatype Network = Network(id: string, active: bool)

  datatype Hub = Hub(id: string, deviceName: string)

  datatype HubRow = HubRow(id: string, deviceName: string, networkId: string) {
    function CastToHub(): Hub { Hub(id, deviceName) }
  }

  datatype Cache = Cache(networks: map<string, Network>, hubs: map<string, set<Hub>>) {
    function HubsOf(net: string): set<Hub> { if net in hubs then hubs[net] else {} }

    function WithNetwork(n: Network): Cache { this.(networks := networks[n.id := n]) }

    function WithoutNetwork(id: string): Cache { this.(networks := networks - {id}) }

    function WithActive(active: bool, id: string): Cache {
      if id in networks then this.(networks := networks[id := networks[id].(active := active)]) else this
    }

    function WithHub(net: string, hub: Hub): Cache { this.(hubs := hubs[net := HubsOf(net) + {hub}]) }

    function WithoutHub(net: string, hub: string): Cache {
      if net in hubs then this.(hubs := hubs[net := set h | h in hubs[net] && h.id != hub]) else this
    }

    /** `search_hub`: an unknown network answers true, so that its hubs are never stored. */
    predicate Knows(net: string, hub: string) {
      net in networks ==> exists h :: h in HubsOf(net) && h.id == hub
    }
  }

  const EMPTY := Cache(map[], map[])

  /** Hubs the gateway counts, each under the network it was registered for. */
  function Registered(hubs: map<string, set<Hub>>): set<(string, Hub)> {
    set n, h | n in hubs && h in hubs[n] :: (n, h)
  }

  lemma RegisteredMeans(c: Cache, p: (string, Hub))
    ensures p in Registered(c.hubs) <==> p.1 in c.HubsOf(p.0)
  {
  }

  /** Adding, removing and searching a hub, told from what is registered. */
  lemma HubChanges(c: Cache, net: string, hub: Hub, p: (string, Hub))
    ensures p in Registered(c.WithHub(net, hub).hubs) <==> p in Registered(c.hubs) || p == (net, hub)
    ensures p in Registered(c.WithoutHub(net, hub.id).hubs) <==> p in Registered(c.hubs) && !(p.0 == net && p.1.id == hub.id)
  {
    RegisteredMeans(c, p);
    RegisteredMeans(c.WithHub(net, hub), p);
    RegisteredMeans(c.WithoutHub(net, hub.id), p);
    hide Registered;
  }

  lemma KnowsMeans(c: Cache, net: string, hub: string)
    ensures c.Knows(net, hub) <==> net !in c.networks || exists h :: (net, h) in Registered(c.hubs) && h.id == hub
  {
    forall h: Hub ensures (net, h) in Registered(c.hubs) <==> h in c.HubsOf(net) {
      RegisteredMeans(c, (net, h));
    }
    hide Registered;
    if h: Hub :| h in c.HubsOf(net) && h.id == hub {
      assert (net, h) in Registered(c.hubs);
    }
  }

  // --- the manager in place -----------------------------------------------------------------------------------

  class NetworkManager {
    var networks: map<string, Network>
    var hubs: map<string, set<Hub>>

    function View(): Cache
      reads this
    {
      Cache(networks, hubs)
    }

    constructor ()
      ensures View() == EMPTY
    {
      networks, hubs := map[], map[];
    }

    method AddNetwork(network: Network)
      modifies this
      ensures View() == old(View()).WithNetwork(network)
    {
      networks := networks[network.id := network];
    }

    method ChangeActive(active: bool, id: string)
      modifies this
      ensures View() == old(View()).WithActive(active, id)
    {
      if id in networks {
        networks := networks[id := networks[id].(active := active)];
      }
    }

    method RemoveNetwork(id: string)
      modifies this
      ensures View() == old(View()).WithoutNetwork(id)
    {
      networks := networks - {id};
    }

    method AddHub(id: string, hub: Hub) returns (isNew: bool)
      modifies this
      ensures View() == old(View()).WithHub(id, hub) && isNew == (hub !in old(View()).HubsOf(id))
      ensures forall p :: p in Registered(hubs) <==> p in Registered(old(hubs)) || p == (id, hub)
    {
      forall p ensures p in Registered(View().WithHub(id, hub).hubs) <==> p in Registered(hubs) || p == (id, hub) {
        HubChanges(View(), id, hub, p);
      }
      hide Registered;
      if id !in hubs {
        hubs := hubs[id := {}];
      }
      isNew := hub !in hubs[id];
      hubs := hubs[id := hubs[id] + {hub}];
    }

    method RemoveHub(net: string, hub: string)
      modifies this
      ensures View() == old(View()).WithoutHub(net, hub)
      ensures forall p :: p in Registered(hubs) <==> p in Registered(old(hubs)) && !(p.0 == net && p.1.id == hub)
    {
      forall p ensures p in Registered(View().WithoutHub(net, hub).hubs) <==> p in Registered(hubs) && !(p.0 == net && p.1.id == hub) {
        HubChanges(View(), net, Hub(hub, ""), p);
      }
      hide Registered;
      if net in hubs {
        var kept := set h | h in hubs[net] && h.id != hub;
        hubs := hubs[net := kept];
      }
    }

    method SearchHub(net: string, hub: string) returns (found: bool)
      ensures found == View().Knows(net, hub)
      ensures found <==> net !in networks || exists h :: (net, h) in Registered(hubs) && h.id == hub
    {
      KnowsMeans(View(), net, hub);
      hide Registered;
      if net !in networks {
        return true;
      }
      if net in hubs {
        found := exists h :: h in hubs[net] && h.id == hub;
      } else {
        found := false;
      }
    }

    /** The number of hubs that the quorum and the phases are measured against. */
    method GetTotalHubs() returns (total: nat)
      ensures total == |Registered(hubs)|
    {
      total := 0;
      var todo := hubs.Keys;
      ghost var seen: map<string, set<Hub>> := map[];
      while todo != {}
        invariant todo <= hubs.Keys
        invariant seen == map n | n in hubs && n !in todo :: hubs[n]
        invariant total == |Registered(seen)|
        decreases |todo|
      {
        var n :| n in todo;
        RegisteredGrows(seen, n, hubs[n]);
        total := total + |hubs[n]|;
        todo := todo - {n};
        seen := seen[n := hubs[n]];
      }
      assert seen == hubs;
    }
  }

  lemma {:induction false} Tagged(n: string, hs: set<Hub>)
    ensures |set h | h in hs :: (n, h)| == |hs|
    decreases hs
  {
    if hs == {} {
      assert (set h | h in hs :: (n, h)) == {};
    } else {
      var h0 :| h0 in hs;
      Tagged(n, hs - {h0});
      assert (set h | h in hs :: (n, h)) == (set h | h in hs - {h0} :: (n, h)) + {(n, h0)};
    }
  }

  lemma RegisteredGrows(hubs: map<string, set<Hub>>, n: string, hs: set<Hub>)
    requires n !in hubs
    ensures |Registered(hubs[n := hs])| == |Registered(hubs)| + |hs|
  {
    var tagged := set h | h in hs :: (n, h);
    Tagged(n, hs);
    assert Registered(hubs[n := hs]) == Registered(hubs) + tagged;
    assert Registered(hubs) !! tagged;
  }

  // --- the rules ---------------------------------------------------------------------------------------------------

  datatype Input =
    | NetworkMessage(id: string, active: bool, deleteNetwork: bool)
    | Settings(net: string, hub: string)
    | DeleteHubMessage(net: string, hub: string)
    | LinkageRequest(net: string, hub: string, deviceName: string)
    | HubBatch(hubs: seq<HubRow>)
    | NetworkBatch(networks: seq<Network>)
    | OtherInput

  datatype NetworkAction = DeleteAction | UpdateAction | InsertAction | Ignore

  datatype NetworkChanged = Insert(row: Network) | Update(row: Network) | Delete(id: string)

  datatype HubChanged = InsertHub(row: HubRow) | DeleteHub(id: string)

  datatype CoreMessage =
    | DeleteNotice(net: string)
    | ActiveNotice(net: string, active: bool)
    | SettingsForHub(net: string, hub: string)
    | DeleteForHub(net: string, hub: string)
    | GenerateLinkageAck(hub: string)
    | NetworksReady

  datatype Admin = Admin(cache: Cache, nets: seq<NetworkChanged>, hubs: seq<HubChanged>, toCore: seq<CoreMessage>)

  function Decide(c: Cache, id: string, active: bool, deleteNetwork: bool): NetworkAction {
    if id in c.networks && deleteNetwork then DeleteAction
    else if id in c.networks && c.networks[id].active != active then UpdateAction
    else if id !in c.networks && !deleteNetwork then InsertAction
    else Ignore
  }

  function LoadHubs(c: Cache, rows: seq<HubRow>): Cache {
    if rows == [] then c
    else LoadHubs(c, rows[..|rows| - 1]).WithHub(rows[|rows| - 1].networkId, rows[|rows| - 1].CastToHub())
  }

  function LoadNetworks(c: Cache, rows: seq<Network>): Cache {
    if rows == [] then c else LoadNetworks(c, rows[..|rows| - 1]).WithNetwork(rows[|rows| - 1])
  }

  function AdminStep(a: Admin, i: Input): Admin {
    var c := a.cache;
    match i
    case NetworkMessage(id, active, deleteNetwork) => (
      match Decide(c, id, active, deleteNetwork)
      case DeleteAction =>
        a.(cache := c.WithoutNetwork(id), nets := a.nets + [Delete(id)], toCore := a.toCore + [DeleteNotice(id)])
      case UpdateAction =>
        a.(cache := c.WithActive(active, id), nets := a.nets + [Update(Network(id, active))],
           toCore := a.toCore + [ActiveNotice(id, active)])
      case InsertAction =>
        a.(cache := c.WithNetwork(Network(id, active)), nets := a.nets + [Insert(Network(id, active))])
      case Ignore => a)
    case Settings(net, hub) => a.(toCore := a.toCore + [SettingsForHub(net, hub)])
    case DeleteHubMessage(net, hub) =>
      a.(cache := c.WithoutHub(net, hub), hubs := a.hubs + [DeleteHub(net)], toCore := a.toCore + [DeleteForHub(net, hub)])
    case LinkageRequest(net, hub, deviceName) =>
      if c.Knows(net, hub) then a.(toCore := a.toCore + [GenerateLinkageAck(hub)])
      else a.(cache := c.WithHub(net, Hub(hub, deviceName)), hubs := a.hubs + [InsertHub(HubRow(hub, deviceName, net))])
    case HubBatch(rows) => a.(cache := LoadHubs(c, rows))
    case NetworkBatch(rows) => a.(cache := LoadNetworks(c, rows), toCore := a.toCore + [NetworksReady])
    case OtherInput => a
  }

  /** `network_admin`, arm by arm. */
  class NetworkAdmin {
    const manager: NetworkManager
    var nets: seq<NetworkChanged>
    var hubs: seq<HubChanged>
    var toCore: seq<CoreMessage>

    function View(): Admin
      reads this, manager
    {
      Admin(manager.View(), nets, hubs, toCore)
    }

    constructor ()
      ensures View() == Admin(EMPTY, [], [], []) && fresh(manager)
    {
      nets, hubs, toCore := [], [], [];
      manager := new NetworkManager();
    }

    method OnNetwork(id: string, active: bool, deleteNetwork: bool)
      modifies this, manager
      ensures View() == AdminStep(old(View()), NetworkMessage(id, active, deleteNetwork))
    {
      var action := Decide(manager.View(), id, active, deleteNetwork);
      var change;
      match action {
        case Ignore => return;
        case DeleteAction =>
          manager.RemoveNetwork(id);
          change := Delete(id);
        case UpdateAction =>
          manager.ChangeActive(active, id);
          change := Update(Network(id, active));
        case InsertAction =>
          manager.AddNetwork(Network(id, active));
          change := Insert(Network(id, active));
      }
      match change {
        case Delete(net) => toCore := toCore + [DeleteNotice(net)];
        case Update(row) => toCore := toCore + [ActiveNotice(row.id, row.active)];
        case Insert(_) =>
      }
      nets := nets + [change];
    }

    method OnDeleteHub(net: string, hub: string)
      modifies this, manager
      ensures View() == AdminStep(old(View()), DeleteHubMessage(net, hub))
    {
      manager.RemoveHub(net, hub);
      hubs := hubs + [DeleteHub(net)];
      toCore := toCore + [DeleteForHub(net, hub)];
    }

    method OnLinkageRequest(net: string, hub: string, deviceName: string)
      modifies this, manager
      ensures View() == AdminStep(old(View()), LinkageRequest(net, hub, deviceName))
    {
      var found := manager.SearchHub(net, hub);
      if !found {
        var row := HubRow(hub, deviceName, net);
        var _ := manager.AddHub(net, row.CastToHub());
        hubs := hubs + [InsertHub(row)];
      } else {
        toCore := toCore + [GenerateLinkageAck(hub)];
      }
    }

    method OnNetworkBatch(rows: seq<Network>)
      modifies this, manager
      ensures View() == AdminStep(old(View()), NetworkBatch(rows))
    {
      for i := 0 to |rows|
        invariant View() == old(View()).(cache := LoadNetworks(old(manager.View()), rows[..i]))
      {
        assert rows[..i + 1][..i] == rows[..i];
        manager.AddNetwork(rows[i]);
      }
      assert rows[..|rows|] == rows;
      toCore := toCore + [NetworksReady];
    }

    method OnHubBatch(rows: seq<HubRow>)
      modifies this, manager
      ensures View() == AdminStep(old(View()), HubBatch(rows))
    {
      for i := 0 to |rows|
        invariant View() == old(View()).(cache := LoadHubs(old(manager.View()), rows[..i]))
      {
        assert rows[..i + 1][..i] == rows[..i];
        var _ := manager.AddHub(rows[i].networkId, rows[i].CastToHub());
      }
      assert rows[..|rows|] == rows;
    }
  }

  // --- persistence ----------------------------------------------------------------------------------------------------

  datatype DataServiceCommand =
    | NewNetwork(network: Network)
    | UpdateNetwork(network: Network)
    | DeleteNetwork(id: string)
    | DeleteAllHubByNetwork(id: string)
    | NewHub(hub: HubRow)
    | DeleteHubRow(id: string)

  /** `network_dba`, one change at a time. */
  function Translate(n: NetworkChanged): seq<DataServiceCommand> {
    match n
    case Delete(id) => [DeleteNetwork(id), DeleteAllHubByNetwork(id)]
    case Update(row) => [UpdateNetwork(row)]
    case Insert(row) => [NewNetwork(row)]
  }

  function TranslateHub(h: HubChanged): DataServiceCommand {
    match h case InsertHub(row) => NewHub(row) case DeleteHub(id) => DeleteHubRow(id)
  }

  /** The `network` table: id and `active`. */
  type Table = map<string, bool>

  /** An insert violates the primary key if the id is there already; an update inserts if it is not. */
  predicate Accepted(t: Table, c: DataServiceCommand) { c.NewNetwork? ==> c.network.id !in t }

  function Written(t: Table, c: DataServiceCommand): Table {
    match c
    case NewNetwork(n) => if n.id in t then t else t[n.id := n.active]
    case UpdateNetwork(n) => t[n.id := n.active]
    case DeleteNetwork(id) => t - {id}
    case _ => t
  }

  function Replay(t: Table, cs: seq<DataServiceCommand>): Table {
    if cs == [] then t else Written(Replay(t, cs[..|cs| - 1]), cs[|cs| - 1])
  }

  predicate AllAccepted(t: Table, cs: seq<DataServiceCommand>) {
    cs == [] || (AllAccepted(t, cs[..|cs| - 1]) && Accepted(Replay(t, cs[..|cs| - 1]), cs[|cs| - 1]))
  }

  lemma ReplayOne(t: Table, cs: seq<DataServiceCommand>, c: DataServiceCommand)
    ensures Replay(t, cs + [c]) == Written(Replay(t, cs), c)
    ensures AllAccepted(t, cs + [c]) <==> AllAccepted(t, cs) && Accepted(Replay(t, cs), c)
  {
    assert (cs + [c])[..|cs|] == cs;
  }

  function Actives(c: Cache): Table { map id | id in c.networks :: c.networks[id].active }

  ghost predicate Keyed(c: Cache) { forall id :: id in c.networks ==> c.networks[id].id == id }

  /** Admin, its two channels to `network_dba`, and what `network_dba` has sent on. */
  datatype Sys = Sys(admin: Admin, sent: seq<DataServiceCommand>)

  datatype Label = AdminHandles(input: Input) | DbaTakesNetwork | DbaTakesHub

  /** `network_dba` serves its two channels in any order. The boot load happens once, before the run. */
  predicate Enabled(s: Sys, l: Label) {
    match l
    case AdminHandles(i) => !i.NetworkBatch?
    case DbaTakesNetwork => s.admin.nets != []
    case DbaTakesHub => s.admin.hubs != []
  }

  function Move(s: Sys, l: Label): Sys
    requires Enabled(s, l)
  {
    match l
    case AdminHandles(i) => s.(admin := AdminStep(s.admin, i))
    case DbaTakesNetwork => Sys(s.admin.(nets := s.admin.nets[1..]), s.sent + Translate(s.admin.nets[0]))
    case DbaTakesHub => Sys(s.admin.(hubs := s.admin.hubs[1..]), s.sent + [TranslateHub(s.admin.hubs[0])])
  }

  ghost predicate Schedule(s: Sys, ls: seq<Label>)
    decreases |ls|
  {
    ls == [] || (Enabled(s, ls[0]) && Schedule(Move(s, ls[0]), ls[1..]))
  }

  function Execute(s: Sys, ls: seq<Label>): Sys
    requires Schedule(s, ls)
    decreases |ls|
  {
    if ls == [] then s else Execute(Move(s, ls[0]), ls[1..])
  }

  /** Everything sent, then everything still queued. */
  function Promised(s: Sys): seq<DataServiceCommand> { s.sent + Gather(Translate, s.admin.nets) }

  ghost predicate Follows(boot: Table, s: Sys) {
    Keyed(s.admin.cache) && AllAccepted(boot, Promised(s)) && Replay(boot, Promised(s)) == Actives(s.admin.cache)
  }

  /** A `SELECT *` answer: every row of the table and nothing else. */
  ghost predicate Selects(rows: seq<Network>, boot: Table) {
    && (forall r :: r in rows ==> r.id in boot && boot[r.id] == r.active)
    && (forall id :: id in boot ==> exists r :: r in rows && r.id == id)
  }

  lemma {:induction false} LoadedNetworks(rows: seq<Network>, boot: Table)
    requires forall r :: r in rows ==> r.id in boot && boot[r.id] == r.active
    ensures var c := LoadNetworks(EMPTY, rows);
            && Keyed(c)
            && (forall id :: id in c.networks <==> exists r :: r in rows && r.id == id)
            && (forall id :: id in c.networks ==> id in boot && boot[id] == c.networks[id].active)
  {
    if rows != [] {
      var n := |rows| - 1;
      LoadedNetworks(rows[..n], boot);
      assert rows == rows[..n] + [rows[n]];
    }
  }

  /** The boot load leaves the cache with exactly the table's networks. */
  lemma BootLoad(a: Admin, rows: seq<Network>, boot: Table)
    requires a.cache == EMPTY && a.nets == [] && Selects(rows, boot)
    ensures Follows(boot, Sys(AdminStep(a, NetworkBatch(rows)), []))
  {
    LoadedNetworks(rows, boot);
    assert Actives(LoadNetworks(EMPTY, rows)) == boot;
  }

  lemma {:induction false} LoadHubsKeepsNetworks(c: Cache, rows: seq<HubRow>)
    ensures LoadHubs(c, rows).networks == c.networks
  {
    if rows != [] {
      LoadHubsKeepsNetworks(c, rows[..|rows| - 1]);
    }
  }

  lemma {:induction false} ReplayAppend(t: Table, a: seq<DataServiceCommand>, b: seq<DataServiceCommand>)
    ensures Replay(t, a + b) == Replay(Replay(t, a), b)
    ensures AllAccepted(t, a + b) <==> AllAccepted(t, a) && AllAccepted(Replay(t, a), b)
  {
    if b == [] {
      assert a + b == a;
    } else {
      var n := |b| - 1;
      ReplayAppend(t, a, b[..n]);
      assert (a + b)[..|a| + n] == a + b[..n];
    }
  }

  /** What an input queues for `network_dba`. */
  function ChangeFor(c: Cache, i: Input): seq<NetworkChanged> {
    match i
    case NetworkMessage(id, active, deleteNetwork) => (
      match Decide(c, id, active, deleteNetwork)
      case DeleteAction => [Delete(id)]
      case UpdateAction => [Update(Network(id, active))]
      case InsertAction => [Insert(Network(id, active))]
      case Ignore => [])
    case _ => []
  }

  function CommandsFor(c: Cache, i: Input): seq<DataServiceCommand> { Gather(Translate, ChangeFor(c, i)) }

  lemma CommandsForIs(c: Cache, i: Input)
    ensures CommandsFor(c, i) == if ChangeFor(c, i) == [] then [] else Translate(ChangeFor(c, i)[0])
  {
    GatherShort(Translate, ChangeFor(c, i));
  }

  lemma ShortReplay(t: Table, x: DataServiceCommand, y: DataServiceCommand)
    ensures Replay(t, []) == t && AllAccepted(t, [])
    ensures Replay(t, [x]) == Written(t, x) && (AllAccepted(t, [x]) <==> Accepted(t, x))
    ensures Replay(t, [x, y]) == Written(Written(t, x), y)
    ensures AllAccepted(t, [x, y]) <==> Accepted(t, x) && Accepted(Written(t, x), y)
  {
    ReplayOne(t, [], x);
    assert [] + [x] == [x];
    ReplayOne(t, [x], y);
    assert [x] + [y] == [x, y];
  }

  /** Mutating the cache's networks, seen on the table. */
  lemma ActivesAfter(c: Cache, id: string, active: bool)
    requires Keyed(c)
    ensures Actives(c.WithoutNetwork(id)) == Actives(c) - {id} && Keyed(c.WithoutNetwork(id))
    ensures Actives(c.WithNetwork(Network(id, active))) == Actives(c)[id := active] && Keyed(c.WithNetwork(Network(id, active)))
    ensures id in c.networks ==> Actives(c.WithActive(active, id)) == Actives(c)[id := active] && Keyed(c.WithActive(active, id))
    ensures id in c.networks <==> id in Actives(c)
  {
  }

  /** The commands queued for a server message do to the table what the message does to the cache, and
      none is refused. */
  lemma OneMessage(a: Admin, id: string, active: bool, deleteNetwork: bool)
    requires Keyed(a.cache)
    ensures OneInputHolds(a, NetworkMessage(id, active, deleteNetwork))
  {
    var t := Actives(a.cache);
    CommandsForIs(a.cache, NetworkMessage(id, active, deleteNetwork));
    ActivesAfter(a.cache, id, active);
    ShortReplay(t, DeleteNetwork(id), DeleteAllHubByNetwork(id));
    ShortReplay(t, UpdateNetwork(Network(id, active)), DeleteAllHubByNetwork(id));
    ShortReplay(t, NewNetwork(Network(id, active)), DeleteAllHubByNetwork(id));
    hide Actives, Keyed, Replay, AllAccepted, CommandsFor, Cache.WithNetwork, Cache.WithoutNetwork, Cache.WithActive;
  }

  ghost predicate OneInputHolds(a: Admin, i: Input) {
    var a1, cs := AdminStep(a, i), CommandsFor(a.cache, i);
    && a1.nets == a.nets + ChangeFor(a.cache, i) && Keyed(a1.cache)
    && AllAccepted(Actives(a.cache), cs)
    && Replay(Actives(a.cache), cs) == Actives(a1.cache)
  }

  lemma OneInput(a: Admin, i: Input)
    requires Keyed(a.cache) && !i.NetworkBatch?
    ensures OneInputHolds(a, i)
  {
    CommandsForIs(a.cache, i);
    if i.HubBatch? {
      LoadHubsKeepsNetworks(a.cache, i.hubs);
    }
    if i.NetworkMessage? {
      OneMessage(a, i.id, i.active, i.deleteNetwork);
    } else {
      assert AdminStep(a, i).cache.networks == a.cache.networks;
      hide CommandsFor;
    }
  }

  lemma Extend(boot: Table, before: seq<DataServiceCommand>, cs: seq<DataServiceCommand>, t: Table, t1: Table)
    requires AllAccepted(boot, before) && Replay(boot, before) == t && AllAccepted(t, cs) && Replay(t, cs) == t1
    ensures AllAccepted(boot, before + cs) && Replay(boot, before + cs) == t1
  {
    ReplayAppend(boot, before, cs);
  }

  lemma AdminKeepsFollowing(boot: Table, s: Sys, i: Input)
    requires Follows(boot, s) && !i.NetworkBatch?
    ensures Follows(boot, Move(s, AdminHandles(i)))
  {
    hide AdminStep, ChangeFor, Replay, AllAccepted, Actives, Keyed, Gather, Translate;
    OneInput(s.admin, i);
    GatherAppend(Translate, s.admin.nets, ChangeFor(s.admin.cache, i));
    var s1 := Move(s, AdminHandles(i));
    assert Promised(s1) == Promised(s) + CommandsFor(s.admin.cache, i);
    Extend(boot, Promised(s), CommandsFor(s.admin.cache, i), Actives(s.admin.cache), Actives(s1.admin.cache));
    hide Promised, CommandsFor;
  }

  lemma TakingHubsIsHarmless(boot: Table, sent: seq<DataServiceCommand>, h: HubChanged, pending: seq<DataServiceCommand>)
    ensures Replay(boot, sent + [TranslateHub(h)] + pending) == Replay(boot, sent + pending)
    ensures AllAccepted(boot, sent + [TranslateHub(h)] + pending) <==> AllAccepted(boot, sent + pending)
  {
    ReplayOne(boot, sent, TranslateHub(h));
    ReplayAppend(boot, sent + [TranslateHub(h)], pending);
    ReplayAppend(boot, sent, pending);
  }

  lemma MoveKeepsFollowing(boot: Table, s: Sys, l: Label)
    requires Follows(boot, s) && Enabled(s, l)
    ensures Follows(boot, Move(s, l))
  {
    match l {
      case AdminHandles(i) => AdminKeepsFollowing(boot, s, i);
      case DbaTakesNetwork =>
        assert Promised(Move(s, l)) == Promised(s);
      case DbaTakesHub =>
        TakingHubsIsHarmless(boot, s.sent, s.admin.hubs[0], Gather(Translate, s.admin.nets));
    }
  }

  /** After the boot load, under any server messages, hub messages and hub batches and any interleaving of
      the two tasks: the commands sent and still queued, replayed on the boot table, give exactly the
      cache's networks with their `active` flags, and no insert meets an existing key. */
  lemma {:induction false} StoreFollowsCache(boot: Table, s: Sys, ls: seq<Label>)
    requires Follows(boot, s) && Schedule(s, ls)
    ensures Follows(boot, Execute(s, ls))
    decreases |ls|
  {
    if ls != [] {
      MoveKeepsFollowing(boot, s, ls[0]);
      hide Follows;
      StoreFollowsCache(boot, Move(s, ls[0]), ls[1..]);
    }
  }

  /** Once `network_dba` has caught up, the table it has written is the cache. */
  lemma CaughtUp(rows: seq<Network>, boot: Table, ls: seq<Label>)
    requires Selects(rows, boot)
    requires var s0 := Sys(AdminStep(Admin(EMPTY, [], [], []), NetworkBatch(rows)), []);
             Schedule(s0, ls) && Execute(s0, ls).admin.nets == []
    ensures var s := Execute(Sys(AdminStep(Admin(EMPTY, [], [], []), NetworkBatch(rows)), []), ls);
            Replay(boot, s.sent) == Actives(s.admin.cache) && AllAccepted(boot, s.sent)
  {
    var a0 := Admin(EMPTY, [], [], []);
    var s0 := Sys(AdminStep(a0, NetworkBatch(rows)), []);
    BootLoad(a0, rows, boot);
    StoreFollowsCache(boot, s0, ls);
    var s := Execute(s0, ls);
    assert Promised(s) == s.sent;
    hide Execute, Replay, AllAccepted, AdminStep, Schedule;
  }

  /** A server message, repeated, is ignored: no command, no notice, no change. */
  lemma RepeatedMessageIsIgnored(a: Admin, id: string, active: bool, deleteNetwork: bool)
    ensures var i := NetworkMessage(id, active, deleteNetwork);
            AdminStep(AdminStep(a, i), i) == AdminStep(a, i)
  {
  }

  /** Before the boot load the cache is empty, so every create message inserts, and the insert is refused
      exactly for the networks the table already has. */
  lemma InsertBeforeBootLoad(boot: Table, id: string, active: bool)
    ensures var cs := CommandsFor(EMPTY, NetworkMessage(id, active, false));
            cs == [NewNetwork(Network(id, active))] && (AllAccepted(boot, cs) <==> id !in boot)
  {
    CommandsForIs(EMPTY, NetworkMessage(id, active, false));
    ShortReplay(boot, NewNetwork(Network(id, active)), DeleteNetwork(id));
  }

  // --- hubs on their way to the database ---------------------------------------------------------------------

  function RowsSent(c: DataServiceCommand): seq<HubRow> { if c.NewHub? then [c.hub] else [] }

  function RowsQueued(h: HubChanged): seq<HubRow> { if h.InsertHub? then [h.row] else [] }

  function IdsSent(c: DataServiceCommand): seq<string> { if c.DeleteHubRow? then [c.id] else [] }

  function IdsQueued(h: HubChanged): seq<string> { if h.DeleteHub? then [h.id] else [] }

  /** Hub rows to be stored: sent to the database, then still queued. */
  function RowsStored(s: Sys): seq<HubRow> { Gather(RowsSent, s.sent) + Gather(RowsQueued, s.admin.hubs) }

  /** And hubs to be deleted. */
  function IdsDeleted(s: Sys): seq<string> { Gather(IdsSent, s.sent) + Gather(IdsQueued, s.admin.hubs) }

  /** What a step asks for: the row of an unknown hub that reports to a known network... */
  function RowAsked(s: Sys, l: Label): seq<HubRow> {
    if l.AdminHandles? && l.input.LinkageRequest? && !s.admin.cache.Knows(l.input.net, l.input.hub)
    then [HubRow(l.input.hub, l.input.deviceName, l.input.net)] else []
  }

  /** ...and a deletion, which carries the network's id. */
  function IdAsked(l: Label): seq<string> {
    if l.AdminHandles? && l.input.DeleteHubMessage? then [l.input.net] else []
  }

  /** One item passed on, with what `f` sees in it where it arrives and `g` where it came from. */
  lemma PassedOn<A, B, T>(f: A -> seq<T>, g: B -> seq<T>, sent: seq<A>, y: A, x: B, rest: seq<B>)
    requires f(y) == g(x)
    ensures Gather(f, sent + [y]) + Gather(g, rest) == Gather(f, sent) + Gather(g, [x] + rest)
  {
    GatherAppend(f, sent, [y]);
    GatherAppend(g, [x], rest);
    OneGathered(f, y);
    OneGathered(g, x);
    hide Gather;
    var before, after := Gather(f, sent), Gather(g, rest);
    assert (before + f(y)) + after == before + (f(y) + after);
  }

  /** More queued behind. */
  lemma QueuedMore<A, B, T>(f: A -> seq<T>, g: B -> seq<T>, sent: seq<A>, queued: seq<B>, more: seq<B>)
    ensures Gather(f, sent) + Gather(g, queued + more) == Gather(f, sent) + Gather(g, queued) + Gather(g, more)
  {
    GatherAppend(g, queued, more);
  }

  /** Network commands carry no hub rows. */
  lemma NetworkTaken(sent: seq<DataServiceCommand>, n: NetworkChanged)
    ensures Gather(RowsSent, sent + Translate(n)) == Gather(RowsSent, sent)
    ensures Gather(IdsSent, sent + Translate(n)) == Gather(IdsSent, sent)
  {
    GatherShort(RowsSent, Translate(n));
    GatherShort(IdsSent, Translate(n));
    GatherAppend(RowsSent, sent, Translate(n));
    GatherAppend(IdsSent, sent, Translate(n));
  }

  lemma AdminAsks(a: Admin, i: Input)
    ensures var more := AdminStep(a, i).hubs[|a.hubs|..];
            && a.hubs <= AdminStep(a, i).hubs
            && more == (match i
                        case LinkageRequest(net, hub, deviceName) => if a.cache.Knows(net, hub) then [] else [InsertHub(HubRow(hub, deviceName, net))]
                        case DeleteHubMessage(net, _) => [DeleteHub(net)]
                        case _ => [])
  {
    hide Cache.Knows, Decide, LoadHubs, LoadNetworks;
  }

  lemma AdminPassesHubs(s: Sys, i: Input)
    requires Enabled(s, AdminHandles(i))
    ensures var s' := Move(s, AdminHandles(i));
            && RowsStored(s') == RowsStored(s) + RowAsked(s, AdminHandles(i))
            && IdsDeleted(s') == IdsDeleted(s) + IdAsked(AdminHandles(i))
  {
    AdminAsks(s.admin, i);
    var more := AdminStep(s.admin, i).hubs[|s.admin.hubs|..];
    if more != [] {
      OneGathered(RowsQueued, more[0]);
      OneGathered(IdsQueued, more[0]);
    }
    assert Gather(RowsQueued, more) == RowAsked(s, AdminHandles(i)) && Gather(IdsQueued, more) == IdAsked(AdminHandles(i));
    hide Gather, AdminStep, RowAsked, IdAsked, RowsQueued, IdsQueued, RowsSent, IdsSent, Cache.Knows;
    assert AdminStep(s.admin, i).hubs == s.admin.hubs + more;
    QueuedMore(RowsSent, RowsQueued, s.sent, s.admin.hubs, more);
    QueuedMore(IdsSent, IdsQueued, s.sent, s.admin.hubs, more);
  }

  lemma MovePassesHubs(s: Sys, l: Label)
    requires Enabled(s, l)
    ensures RowsStored(Move(s, l)) == RowsStored(s) + RowAsked(s, l)
    ensures IdsDeleted(Move(s, l)) == IdsDeleted(s) + IdAsked(l)
  {
    hide Translate, AdminStep, Cache.Knows, Gather;
    match l {
      case AdminHandles(i) => AdminPassesHubs(s, i);
      case DbaTakesNetwork => NetworkTaken(s.sent, s.admin.nets[0]);
      case DbaTakesHub =>
        var h, rest := s.admin.hubs[0], s.admin.hubs[1..];
        assert [h] + rest == s.admin.hubs;
        PassedOn(RowsSent, RowsQueued, s.sent, TranslateHub(h), h, rest);
        PassedOn(IdsSent, IdsQueued, s.sent, TranslateHub(h), h, rest);
    }
  }

  ghost function RowsAsked(s: Sys, ls: seq<Label>): seq<HubRow>
    requires Schedule(s, ls)
    decreases |ls|
  {
    if ls == [] then [] else RowAsked(s, ls[0]) + RowsAsked(Move(s, ls[0]), ls[1..])
  }

  function IdsAsked(ls: seq<Label>): seq<string> { Gather(IdAsked, ls) }

  /** In every interleaving: the hub rows sent to the database or queued for it are, in order, those of the unknown
      hubs that have reported to known networks, and the deletions those of the delete messages. */
  lemma {:induction false} HubsReachTheDatabase(s: Sys, ls: seq<Label>)
    requires Schedule(s, ls)
    ensures RowsStored(Execute(s, ls)) == RowsStored(s) + RowsAsked(s, ls)
    ensures IdsDeleted(Execute(s, ls)) == IdsDeleted(s) + IdsAsked(ls)
    decreases |ls|
  {
    hide Move, Enabled, RowsStored, IdsDeleted, RowAsked, IdAsked;
    if ls != [] {
      MovePassesHubs(s, ls[0]);
      HubsReachTheDatabase(Move(s, ls[0]), ls[1..]);
    }
  }

  // --- limits of the agreement ---------------------------------------------------------------------------------------------

  /** Executing an insert and a delete in the other order, as two database tasks may, gives the same table
      exactly if they concern different networks. */
  lemma ReorderedTasksDisagree(t: Table, n: Network, id: string)
    ensures (Written(Written(t, NewNetwork(n)), DeleteNetwork(id)) == Written(Written(t, DeleteNetwork(id)), NewNetwork(n)))
            <==> n.id != id
  {
    var a := Written(Written(t, NewNetwork(n)), DeleteNetwork(id));
    var b := Written(Written(t, DeleteNetwork(id)), NewNetwork(n));
    if n.id == id {
      assert id !in a && id in b;
    } else {
      assert a.Keys == b.Keys && forall k :: k in a ==> a[k] == b[k];
    }
  }

  /** Hubs outlive their network in the cache: after a delete they still count, and after the network is
      created again their linkage request is acknowledged without being stored, although the database was
      told to drop them. */
  lemma HubsOutliveTheirNetwork(a: Admin, net: string, hub: Hub, active: bool)
    requires net in a.cache.networks && hub in a.cache.HubsOf(net)
    ensures var a1 := AdminStep(a, NetworkMessage(net, active, true));
            var a2 := AdminStep(a1, NetworkMessage(net, active, false));
            var a3 := AdminStep(a2, LinkageRequest(net, hub.id, hub.deviceName));
            && Registered(a1.cache.hubs) == Registered(a.cache.hubs)
            && a1.nets == a.nets + [Delete(net)] && DeleteAllHubByNetwork(net) in Translate(Delete(net))
            && a3.hubs == a.hubs && a3.toCore == a2.toCore + [GenerateLinkageAck(hub.id)]
  {
  }

  /** A server message is obeyed: afterwards the network is gone if it said so, and otherwise there with the flag it
      gave; nothing else changes. It is written down and announced exactly if it changed something. */
  lemma MessageIsObeyed(a: Admin, id: string, active: bool, deleteNetwork: bool)
    requires Keyed(a.cache)
    ensures var a1 := AdminStep(a, NetworkMessage(id, active, deleteNetwork));
            var known, same := id in a.cache.networks, id in a.cache.networks && a.cache.networks[id].active == active;
            && (id in a1.cache.networks <==> !deleteNetwork)
            && (!deleteNetwork ==> a1.cache.networks[id] == Network(id, active))
            && (forall n :: n != id ==> (n in a1.cache.networks <==> n in a.cache.networks)
                                        && (n in a.cache.networks ==> a1.cache.networks[n] == a.cache.networks[n]))
            && a1.cache.hubs == a.cache.hubs && a1.hubs == a.hubs
            && a1.toCore == a.toCore + (if deleteNetwork && known then [DeleteNotice(id)]
                                        else if !deleteNetwork && known && !same then [ActiveNotice(id, active)] else [])
            && a1.nets == a.nets + (if deleteNetwork then (if known then [Delete(id)] else [])
                                    else if same then [] else [if known then Update(Network(id, active)) else Insert(Network(id, active))])
  {
  }

  /** Deleting a hub forgets every registration with its id in that network and no other, and forwards the message;
      in a known network the hub is then unknown, and its next linkage request stores it again. */
  lemma DeletedHubIsForgotten(a: Admin, net: string, hub: string, deviceName: string)
    ensures var a1 := AdminStep(a, DeleteHubMessage(net, hub));
            && (forall p :: p in Registered(a1.cache.hubs) <==> p in Registered(a.cache.hubs) && !(p.0 == net && p.1.id == hub))
            && a1.cache.networks == a.cache.networks && a1.nets == a.nets && a1.hubs == a.hubs + [DeleteHub(net)]
            && a1.toCore == a.toCore + [DeleteForHub(net, hub)]
            && (net in a.cache.networks ==>
                  && !a1.cache.Knows(net, hub)
                  && AdminStep(a1, LinkageRequest(net, hub, deviceName)).hubs == a1.hubs + [InsertHub(HubRow(hub, deviceName, net))])
  {
    var c1 := a.cache.WithoutHub(net, hub);
    forall p ensures p in Registered(c1.hubs) <==> p in Registered(a.cache.hubs) && !(p.0 == net && p.1.id == hub) {
      HubChanges(a.cache, net, Hub(hub, deviceName), p);
    }
    KnowsMeans(c1, net, hub);
    hide Registered, Cache.Knows, Cache.WithoutHub;
  }

  /** A hub of an unknown network is acknowledged and neither registered nor stored. */
  lemma UnknownNetworkIsAcknowledged(a: Admin, net: string, hub: string, deviceName: string)
    requires net !in a.cache.networks
    ensures AdminStep(a, LinkageRequest(net, hub, deviceName)) == a.(toCore := a.toCore + [GenerateLinkageAck(hub)])
  {
    KnowsMeans(a.cache, net, hub);
    hide Registered, Cache.Knows;
  }

  /** The other inputs: settings are forwarded to their hub, and a batch of networks reports that they are ready. */
  lemma OtherInputsForward(a: Admin, net: string, hub: string, rows: seq<Network>)
    ensures AdminStep(a, Settings(net, hub)) == a.(toCore := a.toCore + [SettingsForHub(net, hub)])
    ensures var a1 := AdminStep(a, NetworkBatch(rows));
            a1.toCore == a.toCore + [NetworksReady] && a1.cache.hubs == a.cache.hubs && a1.nets == a.nets && a1.hubs == a.hubs
  {
    LoadNetworksKeepsHubs(a.cache, rows);
  }

  lemma {:induction false} LoadNetworksKeepsHubs(c: Cache, rows: seq<Network>)
    ensures LoadNetworks(c, rows).hubs == c.hubs
  {
    if rows != [] {
      LoadNetworksKeepsHubs(c, rows[..|rows| - 1]);
    }
  }

  /** A batch of network rows loads each row's network, the last row for an id winning, and leaves the others. */
  lemma {:induction false} NetworkBatchLoads(c: Cache, rows: seq<Network>, id: string)
    ensures var loaded := LoadNetworks(c, rows).networks;
            if exists i :: 0 <= i < |rows| && rows[i].id == id then
              && id in loaded
              && exists i :: 0 <= i < |rows| && rows[i].id == id && loaded[id] == rows[i] && forall j :: i < j < |rows| ==> rows[j].id != id
            else (id in loaded <==> id in c.networks) && (id in c.networks ==> loaded[id] == c.networks[id])
  {
    if rows != [] {
      var n := |rows| - 1;
      var before := rows[..n];
      NetworkBatchLoads(c, before, id);
      var loaded := LoadNetworks(c, rows).networks;
      if rows[n].id == id {
        assert loaded[id] == rows[n];
      } else if exists i :: 0 <= i < n && before[i].id == id {
        var i :| 0 <= i < n && before[i].id == id && LoadNetworks(c, before).networks[id] == before[i]
                 && forall j :: i < j < n ==> before[j].id != id;
        forall j | i < j < |rows| ensures rows[j].id != id {
          assert j < n ==> before[j] == rows[j];
        }
        assert rows[i].id == id && loaded[id] == rows[i];
      } else {
        assert forall i :: 0 <= i < n ==> before[i] == rows[i];
      }
    }
  }

  /** A batch of hub rows registers each row's hub with its network, and nothing else. */
  lemma {:induction false} HubBatchRegisters(c: Cache, rows: seq<HubRow>, p: (string, Hub))
    ensures p in Registered(LoadHubs(c, rows).hubs) <==>
            p in Registered(c.hubs) || exists r :: r in rows && r.networkId == p.0 && r.id == p.1.id && r.deviceName == p.1.deviceName
    ensures LoadHubs(c, rows).networks == c.networks
  {
    if rows != [] {
      var n := |rows| - 1;
      HubBatchRegisters(c, rows[..n], p);
      HubChanges(LoadHubs(c, rows[..n]), rows[n].networkId, rows[n].CastToHub(), p);
      assert rows == rows[..n] + [rows[n]];
      hide Registered, Cache.WithHub, Cache.WithoutHub;
      assert p == (rows[n].networkId, rows[n].CastToHub()) <==>
             rows[n].networkId == p.0 && rows[n].id == p.1.id && rows[n].deviceName == p.1.deviceName;
    }
  }

  /** A hub of a known network is stored exactly once: its first linkage request inserts it, and from then
      on the manager knows it. */
  lemma LinkageInsertsOnce(a: Admin, net: string, hub: string, deviceName: string)
    requires net in a.cache.networks
    ensures var a1 := AdminStep(a, LinkageRequest(net, hub, deviceName));
            && a1.cache.Knows(net, hub)
            && a1.toCore == a.toCore + (if a.cache.Knows(net, hub) then [GenerateLinkageAck(hub)] else [])
            && (a.cache.Knows(net, hub) ==> a1.cache == a.cache && a1.hubs == a.hubs)
            && (!a.cache.Knows(net, hub) ==>
                  a1.hubs == a.hubs + [InsertHub(HubRow(hub, deviceName, net))]
                  && |Registered(a1.cache.hubs)| == |Registered(a.cache.hubs)| + 1)
  {
    if !a.cache.Knows(net, hub) {
      LinkageRegisters(a, net, hub, deviceName);
    }
  }

  lemma LinkageRegisters(a: Admin, net: string, hub: string, deviceName: string)
    requires net in a.cache.networks && !a.cache.Knows(net, hub)
    ensures var a1 := AdminStep(a, LinkageRequest(net, hub, deviceName));
            a1.cache.Knows(net, hub) && |Registered(a1.cache.hubs)| == |Registered(a.cache.hubs)| + 1
  {
    WithHubRegisters(a.cache, net, Hub(hub, deviceName));
    hide Registered;
  }

  lemma WithHubRegisters(c: Cache, net: string, hub: Hub)
    requires hub !in c.HubsOf(net)
    ensures hub in c.WithHub(net, hub).HubsOf(net)
    ensures |Registered(c.WithHub(net, hub).hubs)| == |Registered(c.hubs)| + 1
  {
    assert hub in c.WithHub(net, hub).HubsOf(net);
    var before, after := Registered(c.hubs), Registered(c.WithHub(net, hub).hubs);
    forall p: (string, Hub)
      ensures p in after <==> p in before || p == (net, hub)
    {
      RegisteredMeans(c, p);
      RegisteredMeans(c.WithHub(net, hub), p);
      hide Registered;
    }
    RegisteredMeans(c, (net, hub));
    hide *;
    OneMore(before, after, (net, hub));
  }

  lemma OneMore<T>(before: set<T>, after: set<T>, x: T)
    requires x !in before && forall y :: y in after <==> y in before || y == x
    ensures |after| == |before| + 1
  {
    assert after == before + {x};
  }

  // --- publishing the notices -----------------------------------------------------------------------------------------------

  datatype Publication = Publication(topic: string, qos: nat, retain: bool)

  /** What `msg_to_hub` publishes for a message, if the broker is connected: it asks for a static topic under
      one read lock of the manager (`first`) and, failing that, for the network's topic under another
      (`second`). */
  function Published(connected: bool, first: Cache, second: Cache, m: CoreMessage): Option<Publication> {
    if !connected then None
    else
      match m
      case ActiveNotice(net, _) =>
        if net in first.networks then Some(Publication("iot/" + net + "/active", 1, true))
        else if net in second.networks then Some(Publication("iot/" + net + "/active", 1, false))
        else None
      case DeleteNotice(net) =>
        if net in second.networks then Some(Publication("iot/" + net + "/delete_hub", 0, false)) else None
      case DeleteForHub(net, _) =>
        if net in second.networks then Some(Publication("iot/" + net + "/delete_hub", 0, false)) else None
      case SettingsForHub(net, _) =>
        if net in second.networks then Some(Publication("iot/" + net + "/new_setting", 0, false)) else None
      case _ => None
  }

  function AdminRun(a: Admin, inputs: seq<Input>): Admin {
    if inputs == [] then a else AdminStep(AdminRun(a, inputs[..|inputs| - 1]), inputs[|inputs| - 1])
  }

  predicate Creates(i: Input, id: string) {
    || (i.NetworkMessage? && i.id == id && !i.deleteNetwork)
    || (i.NetworkBatch? && exists r :: r in i.networks && r.id == id)
  }

  predicate Deletes(i: Input, id: string) { i.NetworkMessage? && i.id == id && i.deleteNetwork }

  /** Some input creates the network and no later one deletes it. */
  ghost predicate EndsCreated(inputs: seq<Input>, id: string) {
    exists j :: 0 <= j < |inputs| && Creates(inputs[j], id) && forall k :: j < k < |inputs| ==> !Deletes(inputs[k], id)
  }

  /** Some input deletes the network and no later one creates it. */
  ghost predicate EndsDeleted(inputs: seq<Input>, id: string) {
    exists j :: 0 <= j < |inputs| && Deletes(inputs[j], id) && forall k :: j < k < |inputs| ==> !Creates(inputs[k], id)
  }

  lemma {:induction false} LoadedKeys(c: Cache, rows: seq<Network>, id: string)
    ensures id in LoadNetworks(c, rows).networks <==> id in c.networks || exists r :: r in rows && r.id == id
  {
    if rows != [] {
      var n := |rows| - 1;
      LoadedKeys(c, rows[..n], id);
      assert rows == rows[..n] + [rows[n]];
    }
  }

  lemma OneInputOnKey(a: Admin, i: Input, id: string)
    ensures id in AdminStep(a, i).cache.networks <==> Creates(i, id) || (id in a.cache.networks && !Deletes(i, id))
  {
    match i {
      case NetworkBatch(rows) => LoadedKeys(a.cache, rows, id);
      case HubBatch(rows) => LoadHubsKeepsNetworks(a.cache, rows);
      case _ =>
    }
  }

  /** Which inputs leave a network in the cache, told from the inputs alone. */
  lemma {:induction false} PresentAfter(a: Admin, inputs: seq<Input>, id: string)
    ensures id !in a.cache.networks ==> (id in AdminRun(a, inputs).cache.networks <==> EndsCreated(inputs, id))
    ensures id in a.cache.networks ==> (id in AdminRun(a, inputs).cache.networks <==> !EndsDeleted(inputs, id))
  {
    if inputs != [] {
      var n := |inputs| - 1;
      PresentAfter(a, inputs[..n], id);
      OneInputOnKey(AdminRun(a, inputs[..n]), inputs[n], id);
      LastCreate(inputs, id);
      LastDelete(inputs, id);
      hide Creates, Deletes, AdminStep, EndsCreated, EndsDeleted;
    }
  }

  lemma LastCreate(inputs: seq<Input>, id: string)
    requires inputs != []
    ensures var n := |inputs| - 1;
            EndsCreated(inputs, id) <==> Creates(inputs[n], id) || (EndsCreated(inputs[..n], id) && !Deletes(inputs[n], id))
  {
    hide Creates, Deletes;
    var n := |inputs| - 1;
    var before := inputs[..n];
    if EndsCreated(inputs, id) && !Creates(inputs[n], id) {
      var j :| 0 <= j < |inputs| && Creates(inputs[j], id) && forall k :: j < k < |inputs| ==> !Deletes(inputs[k], id);
      assert Creates(before[j], id);
    }
    if EndsCreated(before, id) && !Deletes(inputs[n], id) {
      var j :| 0 <= j < n && Creates(before[j], id) && forall k :: j < k < n ==> !Deletes(before[k], id);
      forall k | j < k < |inputs| ensures !Deletes(inputs[k], id) {
        assert k < n ==> before[k] == inputs[k];
      }
      assert Creates(inputs[j], id);
    }
  }

  lemma LastDelete(inputs: seq<Input>, id: string)
    requires inputs != []
    ensures var n := |inputs| - 1;
            EndsDeleted(inputs, id) <==> Deletes(inputs[n], id) || (EndsDeleted(inputs[..n], id) && !Creates(inputs[n], id))
  {
    hide Creates, Deletes;
    var n := |inputs| - 1;
    var before := inputs[..n];
    if EndsDeleted(inputs, id) && !Deletes(inputs[n], id) {
      var j :| 0 <= j < |inputs| && Deletes(inputs[j], id) && forall k :: j < k < |inputs| ==> !Creates(inputs[k], id);
      assert Deletes(before[j], id);
    }
    if EndsDeleted(before, id) && !Creates(inputs[n], id) {
      var j :| 0 <= j < n && Deletes(before[j], id) && forall k :: j < k < n ==> !Creates(before[k], id);
      forall k | j < k < |inputs| ensures !Creates(inputs[k], id) {
        assert k < n ==> before[k] == inputs[k];
      }
      assert Deletes(inputs[j], id);
    }
  }

  /** Deleting a network queues a notice to its hubs; whatever is handled before `msg_to_hub` looks for its
      topic, the notice is published if and only if the broker is connected and the network has been created
      again by then. */
  lemma DeleteNoticePublishedIff(a: Admin, id: string, active: bool, connected: bool, first: seq<Input>, second: seq<Input>)
    requires Decide(a.cache, id, active, true) != Ignore
    ensures var a1 := AdminStep(a, NetworkMessage(id, active, true));
            && a1.toCore == a.toCore + [DeleteNotice(id)]
            && var p := Published(connected, AdminRun(a1, first).cache, AdminRun(a1, first + second).cache, DeleteNotice(id));
               && (p.Some? <==> connected && EndsCreated(first + second, id))
               && (p.Some? ==> p.value == Publication("iot/" + id + "/delete_hub", 0, false))
  {
    PresentAfter(AdminStep(a, NetworkMessage(id, active, true)), first + second, id);
    hide EndsCreated, EndsDeleted, AdminRun;
  }

  /** Changing a network queues a notice as well; over a connected broker it is published unless the
      network is deleted again at both lookups, and retained by the broker exactly if it is still there at the first. */
  lemma ChangeNoticePublishedIff(a: Admin, id: string, active: bool, connected: bool, first: seq<Input>, second: seq<Input>)
    requires Decide(a.cache, id, active, false) == UpdateAction
    ensures var a1 := AdminStep(a, NetworkMessage(id, active, false));
            var p := Published(connected, AdminRun(a1, first).cache, AdminRun(a1, first + second).cache, ActiveNotice(id, active));
            && a1.toCore == a.toCore + [ActiveNotice(id, active)]
            && (p.Some? <==> connected && !(EndsDeleted(first, id) && EndsDeleted(first + second, id)))
            && (p.Some? && p.value.retain <==> connected && !EndsDeleted(first, id))
            && (p.Some? ==> p.value.topic == "iot/" + id + "/active" && p.value.qos == 1)
  {
    var a1 := AdminStep(a, NetworkMessage(id, active, false));
    PresentAfter(a1, first, id);
    PresentAfter(a1, first + second, id);
    hide EndsCreated, EndsDeleted, AdminRun;
  }

  /** A message forwarded to a hub is published over a connected broker exactly if its network is there at the
      second lookup, on that network's own topic. */
  lemma ForwardedIsPublishedIff(connected: bool, first: Cache, second: Cache, net: string, hub: string)
    ensures var p := Published(connected, first, second, SettingsForHub(net, hub));
            && (p.Some? <==> connected && net in second.networks)
            && (p.Some? ==> p.value == Publication("iot/" + net + "/new_setting", 0, false))
    ensures var p := Published(connected, first, second, DeleteForHub(net, hub));
            && (p.Some? <==> connected && net in second.networks)
            && (p.Some? ==> p.value == Publication("iot/" + net + "/delete_hub", 0, false))
  {
  }
}
