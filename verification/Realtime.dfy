/** The Socket.IO gateway: rooms, channel subscriptions and the fan-out of lifecycle events. */
module Realtime {
  import opened Domain

  type Client = nat

  const OPERATORS := "operators"

  /** Channel names are their own room names. */
  const CHANNELS: set<string> := {"jobs", "alerts", "incidents", "notifications"}

  /** What a socket receives; `room` is the room through which it came. */
  datatype Frame = Ready(operator: string) | Sent(room: string, topic: string, body: nat)

  /** `members` pairs a room with a socket in it; `inbox` holds what each socket was sent. */
  datatype Hub = Hub(members: set<(string, Client)>, inbox: map<Client, seq<Frame>>)

  const EMPTY_HUB := Hub({}, map[])

  // ------------------------------------------------------------ what steps do

  function ChannelOf(topic: string): Option<string> {
    if "job." <= topic then Some("jobs")
    else if "alert." <= topic then Some("alerts")
    else if "incident." <= topic then Some("incidents")
    else if "notification." <= topic then Some("notifications")
    else None
  }

  /** The supported channels of a request, in its order and with its repetitions. */
  function Supported(channels: seq<string>): seq<string> {
    if channels == [] then []
    else Supported(channels[..|channels| - 1])
         + if channels[|channels| - 1] in CHANNELS then [channels[|channels| - 1]] else []
  }

  function Requested(channels: Option<seq<string>>): seq<string> {
    if channels.Some? then channels.value else []
  }

  function RoomsFor(channels: seq<string>, client: Client): set<(string, Client)> {
    set channel | channel in channels && channel in CHANNELS :: (channel, client)
  }

  function Emitted(hub: Hub, room: string, topic: string, body: nat): Hub {
    hub.(inbox := map c | c in hub.inbox ::
           if (room, c) in hub.members then hub.inbox[c] + [Sent(room, topic, body)] else hub.inbox[c])
  }

  datatype Step =
    | Connect(client: Client, valid: bool, operator: string)
    | Subscribe(client: Client, channels: Option<seq<string>>)
    | Unsubscribe(client: Client, channels: Option<seq<string>>)
    | Broadcast(topic: string, body: nat)

  function Do(hub: Hub, step: Step): Hub {
    match step
    case Connect(c, valid, operator) =>
      if valid && c !in hub.inbox
      then Hub(hub.members + {(OPERATORS, c)}, hub.inbox[c := [Ready(operator)]]) else hub
    case Subscribe(c, channels) =>
      if c in hub.inbox then hub.(members := hub.members + RoomsFor(Requested(channels), c)) else hub
    case Unsubscribe(c, channels) =>
      if c in hub.inbox then hub.(members := hub.members - RoomsFor(Requested(channels), c)) else hub
    case Broadcast(topic, body) =>
      var all := Emitted(hub, OPERATORS, topic, body);
      if ChannelOf(topic).Some? then Emitted(all, ChannelOf(topic).value, topic, body) else all
  }

  function DoAll(hub: Hub, steps: seq<Step>): Hub {
    if steps == [] then hub else Do(DoAll(hub, steps[..|steps| - 1]), steps[|steps| - 1])
  }

  function Run(steps: seq<Step>): Hub {
    DoAll(EMPTY_HUB, steps)
  }

  // ------------------------------------------------------------------- gateway

  class RealtimeEventsGateway {
    var members: set<(string, Client)>
    var inbox: map<Client, seq<Frame>>

    constructor ()
      ensures Contents() == EMPTY_HUB
    {
      members, inbox := {}, map[];
    }

    function Contents(): Hub
      reads this
    {
      Hub(members, inbox)
    }

    /** `valid` is the token check's verdict; a refused socket joins nothing. */
    method HandleConnection(client: Client, valid: bool, operator: string)
      requires client !in inbox
      modifies this
      ensures Contents() == Do(old(Contents()), Connect(client, valid, operator))
    {
      if !valid { return; }
      members := members + {(OPERATORS, client)};
      inbox := inbox[client := [Ready(operator)]];
    }

    method Subscribe(client: Client, channels: Option<seq<string>>) returns (subscribed: seq<string>)
      requires client in inbox
      modifies this
      ensures subscribed == Supported(Requested(channels))
      ensures Contents() == Do(old(Contents()), Step.Subscribe(client, channels))
    {
      subscribed := [];
      var requested := Requested(channels);
      for i := 0 to |requested|
        invariant subscribed == Supported(requested[..i])
        invariant members == old(members) + RoomsFor(requested[..i], client)
        invariant inbox == old(inbox)
      {
        assert requested[..i + 1][..i] == requested[..i];
        if requested[i] in CHANNELS {
          members := members + {(requested[i], client)};
          subscribed := subscribed + [requested[i]];
        }
      }
      assert requested[..|requested|] == requested;
    }

    method Unsubscribe(client: Client, channels: Option<seq<string>>) returns (unsubscribed: seq<string>)
      requires client in inbox
      modifies this
      ensures unsubscribed == Supported(Requested(channels))
      ensures Contents() == Do(old(Contents()), Step.Unsubscribe(client, channels))
    {
      unsubscribed := [];
      var requested := Requested(channels);
      for i := 0 to |requested|
        invariant unsubscribed == Supported(requested[..i])
        invariant members == old(members) - RoomsFor(requested[..i], client)
        invariant inbox == old(inbox)
      {
        assert requested[..i + 1][..i] == requested[..i];
        if requested[i] in CHANNELS {
          members := members - {(requested[i], client)};
          unsubscribed := unsubscribed + [requested[i]];
        }
      }
      assert requested[..|requested|] == requested;
    }

    /** Socket.IO's `server.to(room).emit`. */
    method Emit(room: string, topic: string, body: nat)
      modifies this`inbox
      ensures Contents() == Emitted(old(Contents()), room, topic, body)
    {
      inbox := map c | c in inbox :: if (room, c) in members then inbox[c] + [Sent(room, topic, body)] else inbox[c];
    }

    method Broadcast(topic: string, body: nat)
      modifies this`inbox
      ensures Contents() == Do(old(Contents()), Step.Broadcast(topic, body))
    {
      Emit(OPERATORS, topic, body);
      if "job." <= topic {
        Emit("jobs", topic, body);
        return;
      }
      if "alert." <= topic {
        Emit("alerts", topic, body);
        return;
      }
      if "incident." <= topic {
        Emit("incidents", topic, body);
        return;
      }
      if "notification." <= topic {
        Emit("notifications", topic, body);
      }
    }
  }

  // ------------------------------------------------ rooms and topics by name

  function Through(hub: Hub, c: Client, room: string, topic: string, body: nat): seq<Frame> {
    if (room, c) in hub.members then [Sent(room, topic, body)] else []
  }

  /** A broadcast reaches the common room, then the room that goes with the prefix of its topic, and no other. */
  lemma TopicsReachTheirRooms(hub: Hub, c: Client, topic: string, body: nat)
    requires c in hub.inbox
    ensures c in Do(hub, Broadcast(topic, body)).inbox
    ensures Do(hub, Broadcast(topic, body)).inbox[c]
            == hub.inbox[c] + Through(hub, c, "operators", topic, body)
               + (if "job." <= topic then Through(hub, c, "jobs", topic, body) else [])
               + (if "alert." <= topic then Through(hub, c, "alerts", topic, body) else [])
               + (if "incident." <= topic then Through(hub, c, "incidents", topic, body) else [])
               + (if "notification." <= topic then Through(hub, c, "notifications", topic, body) else [])
  {
    if topic != "" {
      assert "job." <= topic ==> topic[0] == 'j';
      assert "alert." <= topic ==> topic[0] == 'a';
      assert "incident." <= topic ==> topic[0] == 'i';
      assert "notification." <= topic ==> topic[0] == 'n';
    }
  }

  /** The topics the services publish, with the rooms they go to. */
  const ROUTING_KEYS := [
    ("job.created", "jobs"), ("job.processing", "jobs"), ("job.completed", "jobs"), ("job.failed", "jobs"),
    ("alert.raised", "alerts"), ("alert.acknowledged", "alerts"), ("incident.updated", "incidents"),
    ("notification.created", "notifications")]

  lemma PublishedTopicsReachTheirRooms(hub: Hub, c: Client, k: nat, body: nat)
    requires c in hub.inbox && k < |ROUTING_KEYS|
    ensures var (topic, room) := ROUTING_KEYS[k];
      c in Do(hub, Broadcast(topic, body)).inbox
      && Do(hub, Broadcast(topic, body)).inbox[c]
         == hub.inbox[c] + Through(hub, c, "operators", topic, body) + Through(hub, c, room, topic, body)
  {
    var (topic, room) := ROUTING_KEYS[k];
    if k < 4 { StartsWith(topic, "job."); }
    else if k < 6 { StartsWith(topic, "alert."); }
    else if k < 7 { StartsWith(topic, "incident."); }
    else { StartsWith(topic, "notification."); }
    assert ChannelOf(topic) == Some(room);
  }

  lemma StartsWith(topic: string, prefix: string)
    requires prefix == "job." || prefix == "alert." || prefix == "incident." || prefix == "notification."
    requires |prefix| <= |topic| && forall i :: 0 <= i < |prefix| ==> topic[i] == prefix[i]
    ensures ChannelOf(topic)
            == Some(if prefix == "job." then "jobs" else if prefix == "alert." then "alerts"
                    else if prefix == "incident." then "incidents" else "notifications")
  {
    assert topic[0] == prefix[0] && prefix <= topic;
    assert "job." <= topic ==> topic[0] == 'j';
    assert "alert." <= topic ==> topic[0] == 'a';
    assert "incident." <= topic ==> topic[0] == 'i';
  }

  /** A subscription adds exactly the named rooms among the four, an unsubscription takes exactly those away. */
  lemma SubscriptionsTakeEffect(hub: Hub, c: Client, channels: seq<string>, room: string, d: Client)
    requires c in hub.inbox
    ensures var named := d == c && room in channels
                         && (room == "jobs" || room == "alerts" || room == "incidents" || room == "notifications");
      && ((room, d) in Do(hub, Subscribe(c, Some(channels))).members <==> (room, d) in hub.members || named)
      && ((room, d) in Do(hub, Unsubscribe(c, Some(channels))).members <==> (room, d) in hub.members && !named)
      && (named ==> room in Supported(channels))
      && (room in Supported(channels) && d == c ==> named)
    ensures Do(hub, Subscribe(c, None)) == hub && Do(hub, Unsubscribe(c, None)) == hub
  {
    SupportedIsNamed(channels, room);
  }

  /** The answer keeps the request's order and repetitions. */
  lemma {:induction false} SupportedAppends(channels: seq<string>, more: seq<string>)
    ensures Supported(channels + more) == Supported(channels) + Supported(more)
  {
    if more == [] {
      assert channels + more == channels;
    } else {
      assert (channels + more)[..|channels + more| - 1] == channels + more[..|more| - 1];
      SupportedAppends(channels, more[..|more| - 1]);
    }
  }

  lemma {:induction false} SupportedIsNamed(channels: seq<string>, room: string)
    ensures room in Supported(channels)
            <==> room in channels
                 && (room == "jobs" || room == "alerts" || room == "incidents" || room == "notifications")
  {
    if channels != [] {
      SupportedIsNamed(channels[..|channels| - 1], room);
      assert channels == channels[..|channels| - 1] + [channels[|channels| - 1]];
    }
  }

  /** The operator of the socket's first accepted connection. */
  function AdmittedAs(steps: seq<Step>, c: Client): Option<string> {
    if steps == [] then None
    else
      var earlier, last := AdmittedAs(steps[..|steps| - 1], c), steps[|steps| - 1];
      if earlier.Some? then earlier
      else if last.Connect? && last.client == c && last.valid then Some(last.operator)
      else None
  }

  /**
   After any run exactly the accepted sockets receive anything and are in any
   room; each is in the common room, and the first frame it got names its operator.
   */
  lemma {:induction false} OnlyAcceptedSocketsListen(steps: seq<Step>, c: Client)
    ensures var hub, operator := Run(steps), AdmittedAs(steps, c);
      && (c in hub.inbox <==> operator.Some?)
      && (operator.Some? ==> hub.inbox[c] != [] && hub.inbox[c][0] == Ready(operator.value))
      && (operator.Some? <==> ("operators", c) in hub.members)
      && (operator.None? ==> forall room :: (room, c) !in hub.members)
  {
    if steps != [] {
      OnlyAcceptedSocketsListen(steps[..|steps| - 1], c);
    }
  }

  // --------------------------------------------------------------- main result

  function Broadcasts(steps: seq<Step>): seq<Frame> {
    if steps == [] then []
    else Broadcasts(steps[..|steps| - 1])
         + match steps[|steps| - 1] case Broadcast(topic, body) => [Sent(OPERATORS, topic, body)] case _ => []
  }

  /** What came through the room every socket is in. */
  function ThroughOperators(frames: seq<Frame>): seq<Frame> {
    if frames == [] then []
    else ThroughOperators(frames[..|frames| - 1])
         + match frames[|frames| - 1]
           case Sent(room, _, _) => if room == OPERATORS then [frames[|frames| - 1]] else []
           case Ready(_) => []
  }

  /** Frame `k` is no room copy, or directly follows the frame it repeats. */
  predicate Adjacent(frames: seq<Frame>, k: nat)
    requires k < |frames|
  {
    match frames[k]
    case Ready(_) => k == 0
    case Sent(room, topic, body) =>
      room == OPERATORS || (k > 0 && frames[k - 1] == Sent(OPERATORS, topic, body) && ChannelOf(topic) == Some(room))
  }

  predicate HubInv(hub: Hub) {
    && (forall c :: c in hub.inbox ==> (OPERATORS, c) in hub.members && hub.inbox[c] != [])
    && (forall c, k: nat :: c in hub.inbox && k < |hub.inbox[c]| ==> Adjacent(hub.inbox[c], k))
  }

  /** What one socket gets of one step: an event once, and once more through its channel. */
  function Copies(hub: Hub, c: Client, step: Step): seq<Frame> {
    match step
    case Broadcast(topic, body) =>
      [Sent(OPERATORS, topic, body)]
      + (if ChannelOf(topic).Some? && (ChannelOf(topic).value, c) in hub.members
         then [Sent(ChannelOf(topic).value, topic, body)] else [])
    case _ => []
  }

  lemma StepDelivers(hub: Hub, step: Step, c: Client, hub': Hub)
    requires HubInv(hub) && c in hub.inbox && hub' == Do(hub, step)
    ensures c in hub'.inbox && hub'.inbox[c] == hub.inbox[c] + Copies(hub, c, step) && (OPERATORS, c) in hub'.members
  {
    assert OPERATORS !in CHANNELS by { assert forall ch :: ch in CHANNELS ==> ch[0] != 'o'; }
    assert (OPERATORS, c) in hub.members;
  }

  lemma {:induction false} StepKeepsHub(hub: Hub, step: Step, hub': Hub)
    requires HubInv(hub) && hub' == Do(hub, step)
    ensures HubInv(hub')
  {
    forall c | c in hub'.inbox
      ensures (OPERATORS, c) in hub'.members && hub'.inbox[c] != []
      ensures forall k: nat :: k < |hub'.inbox[c]| ==> Adjacent(hub'.inbox[c], k)
    {
      if c in hub.inbox {
        StepDelivers(hub, step, c, hub');
        CopiesAreAdjacent(hub, c, step);
      }
    }
  }

  lemma CopiesAreAdjacent(hub: Hub, c: Client, step: Step)
    requires HubInv(hub) && c in hub.inbox
    ensures forall k: nat :: k < |hub.inbox[c] + Copies(hub, c, step)| ==>
      Adjacent(hub.inbox[c] + Copies(hub, c, step), k)
  {
    var before := hub.inbox[c];
    var after := before + Copies(hub, c, step);
    forall k: nat | k < |after| ensures Adjacent(after, k) {
      if k < |before| { assert Adjacent(before, k); }
    }
  }

  /** Between two states the socket was sent `events` through the common room. */
  predicate Delivered(hub: Hub, hub': Hub, c: Client, events: seq<Frame>)
    requires c in hub.inbox
  {
    && c in hub'.inbox && hub.inbox[c] <= hub'.inbox[c]
    && ThroughOperators(hub'.inbox[c]) == ThroughOperators(hub.inbox[c]) + events
  }

  lemma {:induction false} DoneInTwo(hub: Hub, steps: seq<Step>, more: seq<Step>)
    ensures DoAll(hub, steps + more) == DoAll(DoAll(hub, steps), more)
  {
    if more == [] {
      assert steps + more == steps;
    } else {
      assert (steps + more)[..|steps + more| - 1] == steps + more[..|more| - 1];
      DoneInTwo(hub, steps, more[..|more| - 1]);
    }
  }

  lemma {:induction false} StepsKeepHub(hub: Hub, steps: seq<Step>)
    requires HubInv(hub)
    ensures HubInv(DoAll(hub, steps))
  {
    if steps != [] {
      StepsKeepHub(hub, steps[..|steps| - 1]);
      StepKeepsHub(DoAll(hub, steps[..|steps| - 1]), steps[|steps| - 1], DoAll(hub, steps));
    }
  }

  lemma {:induction false} StepsDeliver(hub: Hub, steps: seq<Step>, c: Client)
    requires HubInv(hub) && c in hub.inbox
    ensures Delivered(hub, DoAll(hub, steps), c, Broadcasts(steps))
  {
    if steps != [] {
      var before := steps[..|steps| - 1];
      StepsDeliver(hub, before, c);
      StepsKeepHub(hub, before);
      OneStepMore(hub, DoAll(hub, before), steps[|steps| - 1], c, DoAll(hub, steps), Broadcasts(before));
    }
  }

  /** From its connection on, whatever it subscribes to, a socket receives every broadcast once and in order. */
  lemma StreamIsThePublishedStream(steps: seq<Step>, more: seq<Step>, c: Client)
    requires c in Run(steps).inbox
    ensures Delivered(Run(steps), Run(steps + more), c, Broadcasts(more))
  {
    StepsKeepHub(EMPTY_HUB, steps);
    DoneInTwo(EMPTY_HUB, steps, more);
    StepsDeliver(Run(steps), more, c);
  }

  lemma {:induction false} OneStepMore(start: Hub, hub: Hub, step: Step, c: Client, hub': Hub, events: seq<Frame>)
    requires c in start.inbox && Delivered(start, hub, c, events) && HubInv(hub) && hub' == Do(hub, step)
    ensures Delivered(start, hub', c,
                      events + match step case Broadcast(topic, body) => [Sent(OPERATORS, topic, body)] case _ => [])
  {
    StepDelivers(hub, step, c, hub');
    CopiesThroughOperators(hub, c, step);
  }

  /** Every further frame is a room copy right behind the frame it repeats. */
  lemma CopiesFollowTheirFrame(steps: seq<Step>, c: Client, k: nat)
    requires c in Run(steps).inbox && k < |Run(steps).inbox[c]|
    ensures Adjacent(Run(steps).inbox[c], k)
  {
    StepsKeepHub(EMPTY_HUB, steps);
  }

  lemma CopiesThroughOperators(hub: Hub, c: Client, step: Step)
    requires c in hub.inbox
    ensures ThroughOperators(hub.inbox[c] + Copies(hub, c, step))
            == ThroughOperators(hub.inbox[c])
               + match step case Broadcast(topic, body) => [Sent(OPERATORS, topic, body)] case _ => []
  {
    var before := hub.inbox[c];
    if step.Broadcast? {
      var first := before + [Sent(OPERATORS, step.topic, step.body)];
      assert first[..|first| - 1] == before;
      var after := before + Copies(hub, c, step);
      if |after| > |first| { assert after[..|after| - 1] == first; }
    } else {
      assert before + Copies(hub, c, step) == before;
    }
  }
}
