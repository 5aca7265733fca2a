/** The MQTT client's subscription index (src/mqtt/logic.rs:54-66 and 263-370): a map that is updated
    against the network topology with broker calls that may fail. */
module MqttSubscriptions {
  import opened Topics

  datatype SubEntry = SubEntry(active: bool, subscribed: bool, qos: QoS)

  type Subs = map<string, SubEntry>

  datatype Call = SubscribeTo(topic: string, qos: QoS) | UnsubscribeFrom(topic: string)

  /** The quality of service a topic is meant to have. */
  function QosOf(topic: string): QoS {
    match Dispatch(topic)
    case To(k) => CastQos(QosNumber(k))
    case LinkageRequest => CastQos(1)
    case Unrouted => AtMostOnce
  }

  lemma QosOfSubscription(net: string, k: Kind)
    ensures QosOf(Subscription(net, k)) == CastQos(QosNumber(k))
  {
    TopicsAreDispatched(net, "+", k);
    hide Dispatch, TopicFor;
  }

  lemma QosOfLinkage(edge: string)
    ensures QosOf(LinkageTopic(edge)) == CastQos(1)
  {
    LinkageIsDispatched(edge);
    hide Dispatch, LinkageTopic;
  }

  /** Inbound topics of all configured networks. */
  function Required(networks: set<string>): set<string> {
    set n, k | n in networks && k in ALL_KINDS :: Subscription(n, k)
  }

  /** Every inbound topic of a configured network is required: the listing leaves no kind out. */
  lemma EveryKindIsRequired(networks: set<string>, net: string, k: Kind)
    requires net in networks
    ensures Subscription(net, k) in Required(networks)
  {
    hide Subscription;
    match k {
      case HubState => assert ALL_KINDS[0] == k;
      case Data => assert ALL_KINDS[1] == k;
      case Monitor => assert ALL_KINDS[2] == k;
      case AlertAir => assert ALL_KINDS[3] == k;
      case AlertTemp => assert ALL_KINDS[4] == k;
      case FirmwareOk => assert ALL_KINDS[5] == k;
      case Handshake => assert ALL_KINDS[6] == k;
      case SettingOk => assert ALL_KINDS[7] == k;
      case Setting => assert ALL_KINDS[8] == k;
      case QueueEmpty => assert ALL_KINDS[9] == k;
      case QueueEmptySafe => assert ALL_KINDS[10] == k;
    }
  }

  /** The index tells the truth about the broker: the entries flagged `subscribed` are exactly the
      broker's subscriptions, and every entry carries its topic's quality of service. */
  ghost predicate Tracks(subs: Subs, broker: map<string, QoS>) {
    && (forall t :: t in broker <==> t in subs && subs[t].subscribed)
    && (forall t :: t in subs ==> subs[t].qos == QosOf(t))
    && (forall t :: t in broker ==> broker[t] == QosOf(t))
  }

  /** Broker subscriptions after one update pass; `accepts` says which calls of the pass succeed. */
  ghost predicate AfterPass(before: set<string>, required: set<string>, accepts: string -> bool, t: string) {
    if t in required then t in before || accepts(t) else t in before && !accepts(t)
  }

  /** `s` enumerates the set without repetition. */
  ghost predicate Lists(s: seq<string>, elements: set<string>) { multiset(s) == multiset(elements) }

  function SubscribeCalls(ts: seq<string>): seq<Call> {
    seq(|ts|, i requires 0 <= i < |ts| => SubscribeTo(ts[i], QosOf(ts[i])))
  }

  function UnsubscribeCalls(ts: seq<string>): seq<Call> {
    seq(|ts|, i requires 0 <= i < |ts| => UnsubscribeFrom(ts[i]))
  }

  /** The calls of a pass: subscribe to everything required and missing, then drop everything present
      and not required, each exactly once. */
  ghost predicate CallsOfPass(calls: seq<Call>, before: set<string>, required: set<string>) {
    exists add: seq<string>, drop: seq<string> ::
      Lists(add, required - before) && Lists(drop, before - required) && calls == SubscribeCalls(add) + UnsubscribeCalls(drop)
  }

  /** The broker end of the connection. A refused call changes nothing. */
  class Broker {
    var topics: map<string, QoS>
    var calls: seq<Call>

    constructor ()
      ensures topics == map[] && calls == []
    {
      topics, calls := map[], [];
    }

    method Subscribe(topic: string, qos: QoS, accepted: bool) returns (ok: bool)
      modifies this
      ensures ok == accepted && calls == old(calls) + [SubscribeTo(topic, qos)]
      ensures topics == if accepted then old(topics)[topic := qos] else old(topics)
    {
      calls := calls + [SubscribeTo(topic, qos)];
      if accepted {
        topics := topics[topic := qos];
      }
      ok := accepted;
    }

    method Unsubscribe(topic: string, accepted: bool) returns (ok: bool)
      modifies this
      ensures ok == accepted && calls == old(calls) + [UnsubscribeFrom(topic)]
      ensures topics == if accepted then old(topics) - {topic} else old(topics)
    {
      calls := calls + [UnsubscribeFrom(topic)];
      if accepted {
        topics := topics - {topic};
      }
      ok := accepted;
    }
  }

  /** After marking, exactly the topics in `marked` gained `active`; new ones start unsubscribed. */
  ghost predicate Marks(before: Subs, after: Subs, marked: set<string>) {
    && after.Keys == before.Keys + marked
    && (forall t :: t in after ==>
          after[t] == if t in marked
                      then (if t in before then before[t].(active := true) else SubEntry(true, false, QosOf(t)))
                      else before[t])
  }

  class Client {
    var subs: Subs
    const broker: Broker

    ghost predicate Valid()
      reads this, broker
    {
      Tracks(subs, broker.topics)
    }

    constructor ()
      ensures fresh(broker) && subs == map[] && broker.topics == map[] && broker.calls == []
      ensures Valid()
    {
      subs := map[];
      broker := new Broker();
    }

    method AllTopics(topic: string, qos: nat)
      modifies this
      ensures subs == old(subs)[topic := if topic in old(subs) then old(subs)[topic].(active := true)
                                         else SubEntry(true, false, CastQos(qos))]
    {
      if topic in subs {
        subs := subs[topic := subs[topic].(active := true)];
      } else {
        subs := subs[topic := SubEntry(true, false, CastQos(qos))];
      }
    }

    method DeactivateAll()
      modifies this
      ensures subs == map t | t in old(subs) :: old(subs)[t].(active := false)
    {
      var todo := subs.Keys;
      while todo != {}
        invariant todo <= subs.Keys == old(subs).Keys
        invariant forall t :: t in subs ==> subs[t] == if t in todo then old(subs)[t] else old(subs)[t].(active := false)
        decreases |todo|
      {
        var t :| t in todo;
        subs := subs[t := subs[t].(active := false)];
        todo := todo - {t};
      }
    }

    /** The eleven `all_topics` calls for one network. */
    method MarkNetwork(net: string)
      modifies this
      ensures Marks(old(subs), subs, Required({net}))
    {
      hide QosOf, Subscription, Marks;
      ghost var marked: set<string> := {};
      NoMarks(subs);
      for i := 0 to |ALL_KINDS|
        invariant Marks(old(subs), subs, marked)
        invariant marked == set k | k in ALL_KINDS[..i] :: Subscription(net, k)
      {
        var k := ALL_KINDS[i];
        QosOfSubscription(net, k);
        ghost var before := subs;
        AllTopics(Subscription(net, k), QosNumber(k));
        OneMark(before, Subscription(net, k));
        MarksCompose(old(subs), before, subs, marked, {Subscription(net, k)});
        assert ALL_KINDS[..i + 1] == ALL_KINDS[..i] + [k];
        marked := marked + {Subscription(net, k)};
      }
      assert ALL_KINDS[..|ALL_KINDS|] == ALL_KINDS;
      assert marked == Required({net});
    }

    /** The first half of the pass: recompute which entries are needed. */
    method MarkAll(networks: set<string>)
      modifies this
      ensures Marks(map t | t in old(subs) :: old(subs)[t].(active := false), subs, Required(networks))
    {
      hide Required, Marks, QosOf;
      DeactivateAll();
      ghost var idle := subs;
      NoMarks(subs);
      RequiredEmpty();
      var nets := networks;
      ghost var seen: set<string> := {};
      while nets != {}
        invariant nets <= networks && seen == networks - nets
        invariant Marks(idle, subs, Required(seen))
        decreases |nets|
      {
        var net :| net in nets;
        ghost var before := subs;
        MarkNetwork(net);
        MarksCompose(idle, before, subs, Required(seen), Required({net}));
        RequiredUnion(seen, net);
        nets, seen := nets - {net}, seen + {net};
      }
      assert seen == networks;
    }

    /** `update_subscriptions`: mark, compare, apply. Topics are visited in no particular order. */
    method UpdateSubscriptions(networks: set<string>, accepts: string -> bool)
      requires Valid()
      modifies this, broker
      ensures Valid()
      ensures forall t :: t in broker.topics <==> AfterPass(old(broker.topics).Keys, Required(networks), accepts, t)
      ensures old(broker.calls) <= broker.calls
      ensures CallsOfPass(broker.calls[|old(broker.calls)|..], old(broker.topics).Keys, Required(networks))
    {
      hide Marks, Tracks, Required, Lists, AfterPass, SubscribeCalls, UnsubscribeCalls;
      ghost var required := Required(networks);
      ghost var b0 := broker.topics.Keys;
      MarkAll(networks);
      MarkingTracks(old(subs), subs, broker.topics, required);
      var toSub, toUnsub := Differences();
      MarkedDifferences(old(subs), subs, broker.topics, required);
      ListsMember(toSub, required - b0);
      ListsMember(toUnsub, b0 - required);
      Apply(toSub, toUnsub, accepts);
      PassOutcome(b0, required, toSub, toUnsub, broker.topics.Keys, accepts);
      assert broker.calls[|old(broker.calls)|..] == SubscribeCalls(toSub) + UnsubscribeCalls(toUnsub);
    }

    /** The diff: topics wanted but not subscribed, and subscribed but not wanted. */
    method Differences() returns (toSub: seq<string>, toUnsub: seq<string>)
      ensures Lists(toSub, set t | t in subs && subs[t].active && !subs[t].subscribed)
      ensures Lists(toUnsub, set t | t in subs && !subs[t].active && subs[t].subscribed)
    {
      toSub, toUnsub := [], [];
      var todo := subs.Keys;
      while todo != {}
        invariant todo <= subs.Keys
        invariant Lists(toSub, set t | t in subs && t !in todo && subs[t].active && !subs[t].subscribed)
        invariant Lists(toUnsub, set t | t in subs && t !in todo && !subs[t].active && subs[t].subscribed)
        decreases |todo|
      {
        var t :| t in todo;
        var entry := subs[t];
        if entry.active && !entry.subscribed {
          toSub := toSub + [t];
        } else if !entry.active && entry.subscribed {
          toUnsub := toUnsub + [t];
        }
        todo := todo - {t};
      }
    }

    method ApplySubscriptions(toSub: seq<string>, accepts: string -> bool)
      requires Valid() && forall t :: t in toSub ==> t in subs
      modifies this, broker
      ensures Valid()
      ensures forall t :: t in broker.topics <==> t in old(broker.topics) || (t in toSub && accepts(t))
      ensures broker.calls == old(broker.calls) + SubscribeCalls(toSub)
    {
      hide QosOf, Tracks, SubscribeCalls;
      assert SubscribeCalls([]) == [] by { NoCalls(); }
      for i := 0 to |toSub|
        invariant Tracks(subs, broker.topics) && subs.Keys == old(subs).Keys
        invariant forall t :: t in broker.topics <==> t in old(broker.topics) || (t in toSub[..i] && accepts(t))
        invariant broker.calls == old(broker.calls) + SubscribeCalls(toSub[..i])
      {
        var topic := toSub[i];
        FollowSubscription(subs, broker.topics, topic);
        var ok := broker.Subscribe(topic, subs[topic].qos, accepts(topic));
        if ok {
          subs := subs[topic := subs[topic].(subscribed := true)];
        }
        assert toSub[..i + 1] == toSub[..i] + [topic];
        OneMoreCall(toSub[..i], topic);
      }
      assert toSub[..|toSub|] == toSub;
    }

    method ApplyRemovals(toUnsub: seq<string>, accepts: string -> bool)
      requires Valid()
      modifies this, broker
      ensures Valid()
      ensures forall t :: t in broker.topics <==> t in old(broker.topics) && !(t in toUnsub && accepts(t))
      ensures broker.calls == old(broker.calls) + UnsubscribeCalls(toUnsub)
    {
      hide QosOf;
      for j := 0 to |toUnsub|
        invariant Valid()
        invariant forall t :: t in broker.topics <==> t in old(broker.topics) && !(t in toUnsub[..j] && accepts(t))
        invariant broker.calls == old(broker.calls) + UnsubscribeCalls(toUnsub[..j])
      {
        var topic := toUnsub[j];
        var ok := broker.Unsubscribe(topic, accepts(topic));
        if ok {
          subs := subs - {topic};
        }
        assert toUnsub[..j + 1] == toUnsub[..j] + [topic];
        assert UnsubscribeCalls(toUnsub[..j + 1]) == UnsubscribeCalls(toUnsub[..j]) + [UnsubscribeFrom(topic)];
      }
      assert toUnsub[..|toUnsub|] == toUnsub;
    }

    /** The calls to the broker; the index follows the calls that succeed. */
    method Apply(toSub: seq<string>, toUnsub: seq<string>, accepts: string -> bool)
      requires Valid()
      requires forall t :: t in toSub ==> t in subs && t !in broker.topics && t !in toUnsub
      modifies this, broker
      ensures Valid()
      ensures forall t :: t in broker.topics <==>
                          (t in old(broker.topics) && !(t in toUnsub && accepts(t))) || (t in toSub && accepts(t))
      ensures broker.calls == old(broker.calls) + SubscribeCalls(toSub) + UnsubscribeCalls(toUnsub)
    {
      hide Valid, SubscribeCalls, UnsubscribeCalls;
      ApplySubscriptions(toSub, accepts);
      ApplyRemovals(toUnsub, accepts);
    }

    method CollectNetwork(net: string)
      requires forall t :: t in subs ==> subs[t] == SubEntry(true, true, QosOf(t))
      modifies this
      ensures subs.Keys == old(subs).Keys + Required({net})
      ensures forall t :: t in subs ==> subs[t] == SubEntry(true, true, QosOf(t))
    {
      hide QosOf, Subscription;
      for i := 0 to |ALL_KINDS|
        invariant subs.Keys == old(subs).Keys + set k | k in ALL_KINDS[..i] :: Subscription(net, k)
        invariant forall t :: t in subs ==> subs[t] == SubEntry(true, true, QosOf(t))
      {
        var k := ALL_KINDS[i];
        QosOfSubscription(net, k);
        subs := subs[Subscription(net, k) := SubEntry(true, true, CastQos(QosNumber(k)))];
        assert ALL_KINDS[..i + 1] == ALL_KINDS[..i] + [k];
      }
      assert ALL_KINDS[..|ALL_KINDS|] == ALL_KINDS;
      assert Required({net}) == set k | k in ALL_KINDS :: Subscription(net, k);
    }

    /** `collect_subscriptions`, used once per connection: linkage topic and all network topics. */
    method CollectSubscriptions(edge: string, networks: set<string>)
      modifies this
      ensures subs.Keys == FromScratch(edge, networks)
      ensures forall t :: t in subs ==> subs[t] == SubEntry(true, true, QosOf(t))
    {
      hide Required, QosOf, LinkageTopic, Tracks, CastQos;
      QosOfLinkage(edge);
      RequiredEmpty();
      subs := map[LinkageTopic(edge) := SubEntry(true, true, CastQos(1))];
      var nets := networks;
      ghost var seen: set<string> := {};
      while nets != {}
        invariant nets <= networks && seen == networks - nets
        invariant subs.Keys == Required(seen) + {LinkageTopic(edge)}
        invariant forall t :: t in subs ==> subs[t] == SubEntry(true, true, QosOf(t))
        decreases |nets|
      {
        var net :| net in nets;
        RequiredUnion(seen, net);
        CollectNetwork(net);
        nets, seen := nets - {net}, seen + {net};
      }
      assert seen == networks;
    }

    /** The `Init` state: collect, then subscribe to everything on a clean session. The client starts to
        work only if no call is refused, so the index it starts with is true although its entries are
        flagged before the calls are made. */
    method Connect(edge: string, networks: set<string>, accepts: string -> bool) returns (ok: bool)
      requires broker.topics == map[]
      modifies this, broker
      ensures ok <==> forall t :: t in FromScratch(edge, networks) ==> accepts(t)
      ensures ok ==> Valid() && broker.topics.Keys == FromScratch(edge, networks)
    {
      CollectSubscriptions(edge, networks);
      hide *;
      ok := SubscribeAll(accepts);
      if ok {
        AllSubscribed(subs, broker.topics);
      }
    }

    method SubscribeAll(accepts: string -> bool) returns (ok: bool)
      requires broker.topics == map[]
      modifies broker
      ensures ok <==> forall t :: t in subs ==> accepts(t)
      ensures forall t :: t in broker.topics <==> t in subs && accepts(t)
      ensures forall t :: t in broker.topics ==> broker.topics[t] == subs[t].qos
    {
      var todo := subs.Keys;
      ok := true;
      while todo != {}
        invariant todo <= subs.Keys
        invariant ok <==> forall t :: t in subs && t !in todo ==> accepts(t)
        invariant forall t :: t in broker.topics <==> t in subs && t !in todo && accepts(t)
        invariant forall t :: t in broker.topics ==> broker.topics[t] == subs[t].qos
        decreases |todo|
      {
        var t :| t in todo;
        var accepted := broker.Subscribe(t, subs[t].qos, accepts(t));
        if !accepted {
          ok := false;
        }
        todo := todo - {t};
      }
    }
  }

  lemma AllSubscribed(subs: Subs, broker: map<string, QoS>)
    requires forall t :: t in subs ==> subs[t] == SubEntry(true, true, QosOf(t))
    requires forall t :: t in broker <==> t in subs
    requires forall t :: t in broker ==> broker[t] == subs[t].qos
    ensures Tracks(subs, broker) && broker.Keys == subs.Keys
  {
    hide QosOf;
  }

  /** What a new connection subscribes to. */
  function FromScratch(edge: string, networks: set<string>): set<string> { Required(networks) + {LinkageTopic(edge)} }

  lemma RequiredEmpty()
    ensures Required({}) == {}
  {
  }

  lemma RequiredUnion(seen: set<string>, net: string)
    ensures Required(seen + {net}) == Required(seen) + Required({net})
  {
  }

  lemma FollowSubscription(subs: Subs, broker: map<string, QoS>, topic: string)
    requires Tracks(subs, broker)
    ensures topic in subs ==>
              && Tracks(subs[topic := subs[topic].(subscribed := true)], broker[topic := subs[topic].qos])
              && subs[topic].qos == QosOf(topic)
  {
    hide QosOf;
  }

  lemma NoCalls()
    ensures SubscribeCalls([]) == []
  {
  }

  lemma OneMoreCall(ts: seq<string>, topic: string)
    ensures SubscribeCalls(ts + [topic]) == SubscribeCalls(ts) + [SubscribeTo(topic, QosOf(topic))]
  {
    hide QosOf;
  }

  lemma OneMark(before: Subs, topic: string)
    ensures Marks(before, before[topic := if topic in before then before[topic].(active := true)
                                          else SubEntry(true, false, QosOf(topic))], {topic})
  {
    hide QosOf;
  }

  lemma NoMarks(a: Subs)
    ensures Marks(a, a, {})
  {
  }

  lemma MarksCompose(a: Subs, b: Subs, c: Subs, m1: set<string>, m2: set<string>)
    requires Marks(a, b, m1) && Marks(b, c, m2)
    ensures Marks(a, c, m1 + m2)
  {
  }

  lemma MarkingTracks(before: Subs, after: Subs, broker: map<string, QoS>, required: set<string>)
    requires Tracks(before, broker)
    requires Marks(map t | t in before :: before[t].(active := false), after, required)
    ensures Tracks(after, broker)
  {
  }

  lemma MarkedDifferences(before: Subs, after: Subs, broker: map<string, QoS>, required: set<string>)
    requires Tracks(before, broker)
    requires Marks(map t | t in before :: before[t].(active := false), after, required)
    ensures (set t | t in after && after[t].active && !after[t].subscribed) == required - broker.Keys
    ensures (set t | t in after && !after[t].active && after[t].subscribed) == broker.Keys - required
    ensures required <= after.Keys
  {
  }

  lemma ListsMember(s: seq<string>, elements: set<string>)
    requires Lists(s, elements)
    ensures forall t :: t in s <==> t in elements
  {
    assert forall t :: t in s <==> t in multiset(s);
  }

  lemma PassOutcome(before: set<string>, required: set<string>, add: seq<string>, drop: seq<string>,
                    after: set<string>, accepts: string -> bool)
    requires forall t :: t in add <==> t in required - before
    requires forall t :: t in drop <==> t in before - required
    requires forall t :: t in after <==> (t in before && !(t in drop && accepts(t))) || (t in add && accepts(t))
    ensures forall t :: t in after <==> AfterPass(before, required, accepts, t)
  {
  }

  /** Whatever passes have been made: the broker delivers firmware answers exactly once, alerts and empty-queue
      reports at least once, and everything else at most once; linkage requests at least once. */
  lemma BrokerKeepsQos(subs: Subs, broker: map<string, QoS>, net: string, k: Kind, edge: string)
    requires Tracks(subs, broker)
    ensures Subscription(net, k) in broker ==>
              && (broker[Subscription(net, k)] == ExactlyOnce <==> k == FirmwareOk)
              && (broker[Subscription(net, k)] == AtLeastOnce <==> k in {AlertAir, AlertTemp, QueueEmpty, QueueEmptySafe})
    ensures LinkageTopic(edge) in broker ==> broker[LinkageTopic(edge)] == AtLeastOnce
  {
    QosOfSubscription(net, k);
    QosOfLinkage(edge);
    hide QosOf, Subscription, LinkageTopic;
  }

  // --- consequences ----------------------------------------------------------------------------------

  /** A pass in which every call succeeds leaves exactly the required topics, whatever was there before
      (and so whatever failed before). */
  lemma SuccessfulPassSynchronises(before: set<string>, after: set<string>, required: set<string>, accepts: string -> bool)
    requires forall t :: t in after <==> AfterPass(before, required, accepts, t)
    requires forall t :: t in required - before || t in before - required ==> accepts(t)
    ensures after == required
  {
  }

  /** Repeating the pass for the same topology makes no broker call. */
  lemma SecondPassIsSilent(calls: seq<Call>, required: set<string>)
    requires CallsOfPass(calls, required, required)
    ensures calls == []
  {
    var add, drop :| Lists(add, required - required) && Lists(drop, required - required)
                     && calls == SubscribeCalls(add) + UnsubscribeCalls(drop);
    assert required - required == {};
    assert |add| == |multiset(add)| && |drop| == |multiset(drop)|;
  }

  datatype Pass = Pass(networks: set<string>, accepts: string -> bool)

  /** Broker subscriptions after a series of passes with any failures. */
  ghost function AfterPasses(before: set<string>, passes: seq<Pass>): set<string>
    decreases |passes|
  {
    if passes == [] then before
    else
      var p := passes[|passes| - 1];
      var b := AfterPasses(before, passes[..|passes| - 1]);
      set t | t in b + Required(p.networks) && AfterPass(b, Required(p.networks), p.accepts, t)
  }

  /** The incremental index agrees with collecting from scratch: if every call the last pass makes
      succeeds, the broker holds what a fresh connection would subscribe to, except the linkage topic. */
  lemma IncrementalAgreesWithFromScratch(before: set<string>, passes: seq<Pass>, edge: string)
    requires passes != []
    requires var p, held := passes[|passes| - 1], AfterPasses(before, passes[..|passes| - 1]);
             forall t :: t in Required(p.networks) - held || t in held - Required(p.networks) ==> p.accepts(t)
    ensures AfterPasses(before, passes) == FromScratch(edge, passes[|passes| - 1].networks) - {LinkageTopic(edge)}
  {
    var p, held := passes[|passes| - 1], AfterPasses(before, passes[..|passes| - 1]);
    LinkageIsNotRequired(edge, p.networks);
    hide Required, LinkageTopic;
    SuccessfulPassSynchronises(held, AfterPasses(before, passes), Required(p.networks), p.accepts);
  }

  lemma LinkageIsNotRequired(edge: string, networks: set<string>)
    ensures LinkageTopic(edge) !in Required(networks)
  {
    forall n, k | n in networks && k in ALL_KINDS ensures LinkageTopic(edge) != Subscription(n, k) {
      SubscriptionsAreDistinct(n, k, n, k, edge);
    }
  }

  /** The linkage topic is not part of the update pass: after a fresh connection it stays subscribed if and
      only if the broker has refused every attempt to unsubscribe from it. */
  lemma {:induction false} LinkageSurvivesIff(before: set<string>, passes: seq<Pass>, edge: string)
    requires LinkageTopic(edge) in before
    ensures LinkageTopic(edge) in AfterPasses(before, passes) <==>
            forall i :: 0 <= i < |passes| ==> !passes[i].accepts(LinkageTopic(edge))
    decreases |passes|
  {
    hide Required, LinkageTopic;
    if passes != [] {
      var n := |passes| - 1;
      LinkageSurvivesIff(before, passes[..n], edge);
      LinkageIsNotRequired(edge, passes[n].networks);
      forall i | 0 <= i < n ensures passes[..n][i] == passes[i] { }
      assert LinkageTopic(edge) in AfterPasses(before, passes) <==>
             LinkageTopic(edge) in AfterPasses(before, passes[..n]) && !passes[n].accepts(LinkageTopic(edge));
    }
  }
}
