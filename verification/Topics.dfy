/** Topic names (src/network/domain.rs:406-448) and the suffix dispatch of incoming messages
    (src/message/logic.rs:244-272). */
module Topics {
  /** The eleven inbound topics of a network, in the order the subscription code lists them. */
  datatype Kind =
    | HubState | Data | Monitor | AlertAir | AlertTemp | FirmwareOk | Handshake | SettingOk | Setting
    | QueueEmpty | QueueEmptySafe

  const ALL_KINDS: seq<Kind> :=
    [HubState, Data, Monitor, AlertAir, AlertTemp, FirmwareOk, Handshake, SettingOk, Setting, QueueEmpty, QueueEmptySafe]

  function Suffix(k: Kind): string {
    match k
    case HubState => "hub_state"
    case Data => "data"
    case Monitor => "monitor"
    case AlertAir => "alert_air"
    case AlertTemp => "alert_temp"
    case FirmwareOk => "hub_firmware_ok"
    case Handshake => "balance_mode_handshake"
    case SettingOk => "hub_setting_ok"
    case Setting => "setting"
    case QueueEmpty => "empty_queue"
    case QueueEmptySafe => "empty_queue_safe"
  }

  const LINKAGE_SUFFIX := "linkage_request"

  /** Quality of service requested for each kind. */
  function QosNumber(k: Kind): nat {
    match k
    case AlertAir | AlertTemp | QueueEmpty | QueueEmptySafe => 1
    case FirmwareOk => 2
    case _ => 0
  }

  datatype QoS = AtMostOnce | AtLeastOnce | ExactlyOnce

  function CastQos(q: nat): QoS {
    if q == 1 then AtLeastOnce else if q == 2 then ExactlyOnce else AtMostOnce
  }

  /** The topic on which hub `hub` of network `net` publishes; the subscription has `hub == "+"`. */
  function TopicFor(net: string, hub: string, k: Kind): string {
    "iot/" + net + "/hub/" + hub + "/" + Suffix(k)
  }

  function Subscription(net: string, k: Kind): string { TopicFor(net, "+", k) }

  function LinkageTopic(edge: string): string { "iot/" + edge + "/" + LINKAGE_SUFFIX }

  predicate EndsWith(s: string, suffix: string) { |suffix| <= |s| && s[|s| - |suffix|..] == suffix }

  datatype Route = To(kind: Kind) | LinkageRequest | Unrouted

  /** The `ends_with` chain, in source order. */
  function Dispatch(topic: string): Route {
    if EndsWith(topic, "data") then To(Data)
    else if EndsWith(topic, "hub_state") then To(HubState)
    else if EndsWith(topic, "monitor") then To(Monitor)
    else if EndsWith(topic, "alert_air") then To(AlertAir)
    else if EndsWith(topic, "alert_temp") then To(AlertTemp)
    else if EndsWith(topic, "balance_mode_handshake") then To(Handshake)
    else if EndsWith(topic, "hub_firmware_ok") then To(FirmwareOk)
    else if EndsWith(topic, "hub_setting_ok") then To(SettingOk)
    else if EndsWith(topic, "setting") then To(Setting)
    else if EndsWith(topic, "linkage_request") then LinkageRequest
    else if EndsWith(topic, "empty_queue_safe") then To(QueueEmptySafe)
    else if EndsWith(topic, "empty_queue") then To(QueueEmpty)
    else Unrouted
  }

  /** Whether a text ending in "/" + name can end in `suffix` depends on `name` alone, for suffixes
      without a slash. */
  lemma LastSegmentDecides(prefix: string, name: string, suffix: string)
    requires '/' !in suffix
    ensures EndsWith(prefix + "/" + name, suffix) <==> EndsWith(name, suffix)
  {
    var s := prefix + "/" + name;
    if |suffix| <= |name| {
      assert s[|s| - |suffix|..] == name[|name| - |suffix|..];
    } else if |suffix| <= |s| {
      var at := |suffix| - |name| - 1;
      assert s[|s| - |suffix|..][at] == '/';
      assert suffix[at] != '/';
    }
  }

  lemma DispatchBySegment(prefix: string, name: string)
    ensures Dispatch(prefix + "/" + name) == Dispatch(name)
  {
    LastSegmentDecides(prefix, name, "data");
    LastSegmentDecides(prefix, name, "hub_state");
    LastSegmentDecides(prefix, name, "monitor");
    LastSegmentDecides(prefix, name, "alert_air");
    LastSegmentDecides(prefix, name, "alert_temp");
    LastSegmentDecides(prefix, name, "balance_mode_handshake");
    LastSegmentDecides(prefix, name, "hub_firmware_ok");
    LastSegmentDecides(prefix, name, "hub_setting_ok");
    LastSegmentDecides(prefix, name, "setting");
    LastSegmentDecides(prefix, name, "linkage_request");
    LastSegmentDecides(prefix, name, "empty_queue_safe");
    LastSegmentDecides(prefix, name, "empty_queue");
    hide EndsWith;
  }

  /** Two names that differ in their last or last but one character: neither ends in the other. */
  lemma NotASuffix(name: string, suffix: string, i: nat)
    requires |suffix| > |name| || (i < |suffix| && name[|name| - 1 - i] != suffix[|suffix| - 1 - i])
    ensures !EndsWith(name, suffix)
  {
    if |suffix| <= |name| {
      assert name[|name| - |suffix|..][|suffix| - 1 - i] == name[|name| - 1 - i];
    }
  }

  lemma SelfSuffix(name: string)
    ensures EndsWith(name, name)
  {
  }

  /** `name` ends in none of the first five names of the chain. */
  predicate PastAlerts(name: string) {
    && !EndsWith(name, "data") && !EndsWith(name, "hub_state") && !EndsWith(name, "monitor")
    && !EndsWith(name, "alert_air") && !EndsWith(name, "alert_temp")
  }

  lemma PastAlertsIf(name: string, hubState: nat)
    requires |name| > 1 && hubState <= 1
    requires name[|name| - 1] in {'k', 'g', 't', 'e'}
    requires name[|name| - 1] == 'e' ==> name[|name| - 2] != 't'
    requires hubState == (if name[|name| - 1] == 'e' then 1 else 0)
    ensures PastAlerts(name)
  {
    NotASuffix(name, "data", 0);
    NotASuffix(name, "hub_state", hubState);
    NotASuffix(name, "monitor", 0);
    NotASuffix(name, "alert_air", 0);
    NotASuffix(name, "alert_temp", 0);
  }

  lemma SensorNames(k: Kind)
    requires k in {Data, HubState, Monitor, AlertAir, AlertTemp}
    ensures Dispatch(Suffix(k)) == To(k)
  {
    var name := Suffix(k);
    SelfSuffix(name);
    if k != Data { NotASuffix(name, "data", 0); }
    if k != Data && k != HubState { NotASuffix(name, "hub_state", 0); }
    if k == AlertAir || k == AlertTemp { NotASuffix(name, "monitor", if k == AlertAir then 1 else 0); }
    if k == AlertTemp { NotASuffix(name, "alert_air", 0); }
    hide EndsWith;
  }

  lemma AnswerNames(k: Kind)
    requires k in {Handshake, FirmwareOk, SettingOk, Setting}
    ensures Dispatch(Suffix(k)) == To(k)
  {
    var name := Suffix(k);
    SelfSuffix(name);
    PastAlertsIf(name, if k == Handshake then 1 else 0);
    if k != Handshake { NotASuffix(name, "balance_mode_handshake", 0); }
    if k == SettingOk || k == Setting { NotASuffix(name, "hub_firmware_ok", 0); }
    if k == Setting { NotASuffix(name, "hub_setting_ok", 0); }
    hide EndsWith;
  }

  /** `name` ends in none of the first nine names of the chain. */
  predicate PastSettings(name: string) {
    && PastAlerts(name) && !EndsWith(name, "balance_mode_handshake") && !EndsWith(name, "hub_firmware_ok")
    && !EndsWith(name, "hub_setting_ok") && !EndsWith(name, "setting")
  }

  lemma PastSettingsIf(name: string, hubState: nat)
    requires 11 <= |name| <= 16 && hubState == (if name[|name| - 1] == 'e' then 1 else 0)
    requires name[|name| - 1] in {'e', 't'}
    requires name[|name| - 1] == 'e' ==> name[|name| - 2] != 't'
    ensures PastSettings(name)
  {
    PastAlertsIf(name, hubState);
    NotASuffix(name, "balance_mode_handshake", 0);
    NotASuffix(name, "hub_firmware_ok", 0);
    NotASuffix(name, "hub_setting_ok", 0);
    NotASuffix(name, "setting", 0);
  }

  lemma QueueEmptyName()
    ensures Dispatch(Suffix(QueueEmpty)) == To(QueueEmpty)
  {
    var name := Suffix(QueueEmpty);
    SelfSuffix(name);
    PastSettingsIf(name, 1);
    NotASuffix(name, "linkage_request", 0);
    NotASuffix(name, "empty_queue_safe", 0);
    hide EndsWith;
  }

  lemma QueueEmptySafeName()
    ensures Dispatch(Suffix(QueueEmptySafe)) == To(QueueEmptySafe)
  {
    var name := Suffix(QueueEmptySafe);
    SelfSuffix(name);
    PastSettingsIf(name, 1);
    NotASuffix(name, "linkage_request", 0);
    hide EndsWith;
  }

  /** Round trip: a message published on any hub's topic of any network is decoded as its own kind. */
  lemma TopicsAreDispatched(net: string, hub: string, k: Kind)
    ensures Dispatch(TopicFor(net, hub, k)) == To(k)
  {
    DispatchBySegment("iot/" + net + "/hub/" + hub, Suffix(k));
    hide Dispatch, Suffix;
    match k {
      case Data | HubState | Monitor | AlertAir | AlertTemp => SensorNames(k);
      case Handshake | FirmwareOk | SettingOk | Setting => AnswerNames(k);
      case QueueEmpty => QueueEmptyName();
      case QueueEmptySafe => QueueEmptySafeName();
    }
  }

  lemma LinkageIsDispatched(edge: string)
    ensures Dispatch(LinkageTopic(edge)) == LinkageRequest
  {
    DispatchBySegment("iot/" + edge, LINKAGE_SUFFIX);
    SelfSuffix(LINKAGE_SUFFIX);
    PastSettingsIf(LINKAGE_SUFFIX, 0);
    hide EndsWith;
  }

  lemma SameFrame(head: string, a: string, b: string, tail: string)
    requires head + a + tail == head + b + tail
    ensures a == b
  {
    assert |a| == |b|;
    assert a == (head + a + tail)[|head|..|head| + |a|];
    assert b == (head + b + tail)[|head|..|head| + |b|];
  }

  /** Subscriptions of different networks or kinds never coincide, nor with the linkage topic. */
  lemma SubscriptionsAreDistinct(net1: string, k1: Kind, net2: string, k2: Kind, edge: string)
    ensures Subscription(net1, k1) == Subscription(net2, k2) <==> net1 == net2 && k1 == k2
    ensures LinkageTopic(edge) != Subscription(net1, k1)
  {
    TopicsAreDispatched(net1, "+", k1);
    TopicsAreDispatched(net2, "+", k2);
    LinkageIsDispatched(edge);
    hide Dispatch, Suffix, LinkageTopic;
    if Subscription(net1, k1) == Subscription(net2, k2) {
      var tail := "/hub/" + "+" + "/" + Suffix(k1);
      assert Subscription(net1, k1) == "iot/" + net1 + tail;
      assert Subscription(net2, k2) == "iot/" + net2 + tail;
      SameFrame("iot/", net1, net2, tail);
    }
  }

  // --- what a subscription receives ------------------------------------------------------------------------

  /** The levels of a topic or topic filter. */
  function Levels(s: string): (levels: seq<string>)
    ensures levels != []
  {
    if s == "" then [""]
    else
      var rest := Levels(s[1..]);
      if s[0] == '/' then [""] + rest else [[s[0]] + rest[0]] + rest[1..]
  }

  /** A filter matches level by level; `+` stands for any one level. */
  predicate Matches(filter: string, topic: string) { LevelsMatch(Levels(filter), Levels(topic)) }

  predicate LevelsMatch(f: seq<string>, t: seq<string>) {
    |f| == |t| && forall i :: 0 <= i < |f| ==> f[i] == "+" || f[i] == t[i]
  }

  lemma FiveLevels(a: string, b: string, c: string, d: string, e: string, b': string, d': string, e': string)
    requires d == "+" && e != "+"
    ensures LevelsMatch([a, b, c, d, e], [a, b', c, d', e']) <==> (b == "+" || b == b') && e == e'
  {
    var f, t := [a, b, c, d, e], [a, b', c, d', e'];
    assert f[1] == b && t[1] == b' && f[4] == e && t[4] == e';
    assert f[0] == t[0] && f[2] == t[2] && f[3] == d;
  }

  predicate OneLevel(s: string) { '/' !in s }

  lemma {:induction false} LevelsOf(head: string, tail: string)
    requires OneLevel(head)
    ensures Levels(head) == [head]
    ensures Levels(head + "/" + tail) == [head] + Levels(tail)
  {
    var s := head + "/" + tail;
    if head == "" {
      assert s[0] == '/' && s[1..] == tail;
    } else {
      LevelsOf(head[1..], tail);
      assert s[0] == head[0] && s[1..] == head[1..] + "/" + tail;
      assert [head[0]] + head[1..] == head;
    }
  }

  lemma SuffixIsOneLevel(k: Kind)
    ensures OneLevel(Suffix(k)) && Suffix(k) != "+"
  {
  }

  lemma TopicLevels(net: string, hub: string, k: Kind)
    requires OneLevel(net) && OneLevel(hub)
    ensures Levels(TopicFor(net, hub, k)) == ["iot", net, "hub", hub, Suffix(k)]
  {
    SuffixIsOneLevel(k);
    hide Suffix, Levels;
    var last := Suffix(k);
    assert TopicFor(net, hub, k) == "iot" + "/" + (net + "/" + ("hub" + "/" + (hub + "/" + last)));
    LevelsOf("iot", net + "/" + ("hub" + "/" + (hub + "/" + last)));
    LevelsOf(net, "hub" + "/" + (hub + "/" + last));
    LevelsOf("hub", hub + "/" + last);
    LevelsOf(hub, last);
    LevelsOf(last, "");
  }

  lemma LinkageLevels(edge: string)
    requires OneLevel(edge)
    ensures Levels(LinkageTopic(edge)) == ["iot", edge, "linkage_request"]
  {
    hide Levels;
    assert LinkageTopic(edge) == "iot" + "/" + (edge + "/" + LINKAGE_SUFFIX);
    LevelsOf("iot", edge + "/" + LINKAGE_SUFFIX);
    LevelsOf(edge, LINKAGE_SUFFIX);
    LevelsOf(LINKAGE_SUFFIX, "");
  }

  /** A subscription receives exactly what the hubs of its network publish of its kind; only a network named by the
      wildcard would receive from all. */
  lemma SubscriptionsReceiveTheirOwn(net: string, k: Kind, net': string, hub: string, k': Kind)
    requires OneLevel(net) && OneLevel(net') && OneLevel(hub)
    ensures Matches(Subscription(net, k), TopicFor(net', hub, k')) <==> (net == net' || net == "+") && k == k'
  {
    assert OneLevel("+");
    assert Matches(Subscription(net, k), TopicFor(net', hub, k')) == LevelsMatch(Levels(TopicFor(net, "+", k)), Levels(TopicFor(net', hub, k')));
    hide *;
    TopicLevels(net, "+", k);
    TopicLevels(net', hub, k');
    SuffixIsOneLevel(k);
    SuffixesDiffer(k, k');
    FiveLevels("iot", net, "hub", "+", Suffix(k), net', hub, Suffix(k'));
  }

  lemma SuffixesDiffer(k: Kind, k': Kind)
    ensures Suffix(k) == Suffix(k') <==> k == k'
  {
    TopicsAreDispatched("", "", k);
    TopicsAreDispatched("", "", k');
    hide Dispatch, Suffix;
  }
}
