/** The listener loop: flush subscription changes to the broker, then handle one message. */
module Listener {
  import opened Entities
  import opened Collections
  import opened SeenEvents
  import opened Subscriptions
  import opened ClientState
  import opened Wrappers

  /** The connection to the message broker. */
  class Subscriber {
    var topics: set<Topic>

    constructor ()
      ensures topics == {}
    {
      topics := {};
    }

    method UnsubscribeAll()
      modifies this
      ensures topics == {}
    {
      topics := {};
    }

    method Subscribe(topic: Topic)
      modifies this
      ensures topics == old(topics) + {topic}
    {
      topics := topics + {topic};
    }

    method Unsubscribe(topic: Topic)
      modifies this
      ensures topics == old(topics) - {topic}
    {
      topics := topics - {topic};
    }
  }

  /** Carry a flushed change over to the broker. */
  method Forward(subscriber: Subscriber, pending: StateChange, subscribed: set<Topic>)
    modifies subscriber
    ensures subscriber.topics == FlushedBroker(old(subscriber.topics), pending, subscribed)
  {
    match pending {
      case NoChange =>
      case Reset =>
        subscriber.UnsubscribeAll();
        var order := AnyOrder(subscribed);
        for i := 0 to |order|
          invariant subscriber.topics == Elements(order[..i])
        {
          subscriber.Subscribe(order[i]);
        }
        assert order[..|order|] == order;
      case Change(add, remove) =>
        for i := 0 to |remove|
          invariant subscriber.topics == old(subscriber.topics) - Elements(remove[..i])
        {
          subscriber.Unsubscribe(remove[i]);
        }
        assert remove[..|remove|] == remove;
        for i := 0 to |add|
          invariant subscriber.topics == old(subscriber.topics) - Elements(remove) + Elements(add[..i])
        {
          subscriber.Subscribe(add[i]);
        }
        assert add[..|add|] == add;
    }
  }

  /** One wake-up: the active-server notices seen by the flush, then an event or only a signal. */
  datatype Round = Round(notices: seq<TimedEntry>, event: Option<Event>, fetched: bool)

  // ---- What a sequence of wake-ups means

  /** The ids carried by the user updates that arrive. */
  function CarriedIds(rounds: seq<Round>): seq<string> {
    if rounds == [] then [] else CarriedIds(rounds[..|rounds| - 1]) + CarriedBy(rounds[|rounds| - 1].event)
  }

  function CarriedBy(event: Option<Event>): seq<string> {
    if event.Some? && CarriesId(event.value) then [event.value.eventId.value] else []
  }

  /** The events that are not suppressed, given the ids seen before each. */
  function Passed(rounds: seq<Round>): seq<Event> {
    if rounds == [] then []
    else
      var front := rounds[..|rounds| - 1];
      Passed(front) + PassedBy(rounds[|rounds| - 1].event, Filtered(CarriedIds(front)).seen)
  }

  function PassedBy(event: Option<Event>, seen: seq<string>): seq<Event> {
    if event.Some? && !IsDuplicate(event.value, seen) then [event.value] else []
  }

  function IdsIn(events: seq<Event>): seq<string> {
    if events == [] then [] else IdsIn(events[..|events| - 1]) + CarriedBy(Some(events[|events| - 1]))
  }

  lemma FilteredOneMore(ids: seq<string>, event: Option<Event>)
    ensures var f, g := Filtered(ids), Filtered(ids + CarriedBy(event));
            if event.Some? && CarriesId(event.value) && !IsDuplicate(event.value, f.seen)
            then g == Filter(f.forwarded + CarriedBy(event), Put(f.seen, event.value.eventId.value))
            else g == f
  {
    if event.Some? && CarriesId(event.value) {
      assert (ids + CarriedBy(event))[..|ids|] == ids;
    } else {
      assert ids + CarriedBy(event) == ids;
    }
  }

  /** The ids of the user updates that pass are those the duplicate filter forwards. */
  lemma {:induction false} PassedIds(rounds: seq<Round>)
    ensures IdsIn(Passed(rounds)) == Filtered(CarriedIds(rounds)).forwarded
  {
    if rounds != [] {
      var front, event := rounds[..|rounds| - 1], rounds[|rounds| - 1].event;
      PassedIds(front);
      FilteredOneMore(CarriedIds(front), event);
      var passed, seen := Passed(front), Filtered(CarriedIds(front)).seen;
      if PassedBy(event, seen) == [] {
        assert passed + [] == passed;
      } else {
        IdsOneMore(passed, event.value);
      }
    }
  }

  lemma IdsOneMore(events: seq<Event>, event: Event)
    ensures IdsIn(events + [event]) == IdsIn(events) + CarriedBy(Some(event))
    ensures !CarriesId(event) ==> IdsIn(events + [event]) == IdsIn(events)
  {
    assert (events + [event])[..|events|] == events;
  }

  /**
    What is sent for an event: a user update loses its id, a channel update may
    become a create or a delete, and others may come last in a bulk.
   */
  predicate SentFor(event': Event, event: Event) {
    match event
    case UserUpdate(id, _) => event' == UserUpdate(id, None)
    case ChannelUpdate(id, _, _) => event' == event || event'.ChannelCreate? || event' == ChannelDelete(id)
    case _ => event' == event || (event'.Bulk? && event'.events != [] && event'.events[|event'.events| - 1] == event)
  }

  ghost predicate AreSentFor(sent: seq<Event>, events: seq<Event>) {
    |sent| == |events| && forall i :: 0 <= i < |sent| ==> SentFor(sent[i], events[i])
  }

  /** The steps of one wake-up whose event, if there is one, performs `ops`. */
  function RoundSteps(round: Round, bot: bool, ops: seq<Operation>): seq<Step> {
    [Flush(HeededBy(bot, round.notices))] + (if round.event.Some? then [Perform(ops)] else [])
  }

  function AllSteps(rounds: seq<Round>, bot: bool, ops: seq<seq<Operation>>): seq<Step>
    requires |ops| == |rounds|
  {
    if rounds == [] then []
    else AllSteps(rounds[..|rounds| - 1], bot, ops[..|ops| - 1]) + RoundSteps(rounds[|rounds| - 1], bot, ops[|ops| - 1])
  }

  /** Every connection's steps begin with the flush of its first round. */
  lemma {:induction false} StartsWithFlush(rounds: seq<Round>, bot: bool, ops: seq<seq<Operation>>) returns (rest: seq<Step>)
    requires |ops| == |rounds| && rounds != []
    ensures AllSteps(rounds, bot, ops) == [Flush(HeededBy(bot, rounds[0].notices))] + rest
  {
    var front := rounds[..|rounds| - 1];
    if front == [] {
      rest := AllSteps(rounds, bot, ops)[1..];
    } else {
      rest := StartsWithFlush(front, bot, ops[..|ops| - 1]);
      rest := rest + RoundSteps(rounds[|rounds| - 1], bot, ops[|ops| - 1]);
    }
  }

  /** A connection panics exactly if its user is no bot and its first notices let a subscribed server entry expire. */
  lemma ConnectionPanicsIff(topics: set<Topic>, rounds: seq<Round>, bot: bool, ops: seq<seq<Operation>>)
    requires |ops| == |rounds|
    ensures Run(Ready(topics), AllSteps(rounds, bot, ops)).None? <==>
            !bot && rounds != [] && ExpiresSubscribed(topics, rounds[0].notices)
  {
    if rounds != [] {
      var rest := StartsWithFlush(rounds, bot, ops);
      PanicsExactlyOnEarlyExpiry(topics, HeededBy(bot, rounds[0].notices), rest);
    }
  }

  lemma OneMoreRound(rounds: seq<Round>, i: nat, bot: bool, ops: seq<seq<Operation>>, taken: seq<Operation>)
    requires i < |rounds| && |ops| == i
    ensures CarriedIds(rounds[..i + 1]) == CarriedIds(rounds[..i]) + CarriedBy(rounds[i].event)
    ensures Passed(rounds[..i + 1]) == Passed(rounds[..i]) + PassedBy(rounds[i].event, Filtered(CarriedIds(rounds[..i])).seen)
    ensures AllSteps(rounds[..i + 1], bot, ops + [taken]) == AllSteps(rounds[..i], bot, ops) + RoundSteps(rounds[i], bot, taken)
  {
    assert rounds[..i + 1][..i] == rounds[..i];
    assert (ops + [taken])[..i] == ops;
  }

  lemma RunOneMore(c: Connection, steps: seq<Step>, step: Step)
    ensures Run(c, steps + [step]) == match Run(c, steps) case None => None case Some(c') => Stepped(c', step)
  {
    assert (steps + [step])[..|steps|] == steps;
  }

  lemma {:induction false} RunInTwo(c: Connection, a: seq<Step>, b: seq<Step>)
    requires Run(c, a).Some?
    ensures Run(c, a + b) == Run(Run(c, a).value, b)
  {
    if b == [] {
      assert a + b == a;
    } else {
      assert (a + b)[..|a + b| - 1] == a + b[..|b| - 1];
      RunInTwo(c, a, b[..|b| - 1]);
    }
  }

  lemma OneMoreRun(c0: Connection, rounds: seq<Round>, i: nat, bot: bool, ops: seq<seq<Operation>>, taken: seq<Operation>,
                   c: Connection, c': Connection)
    requires i < |rounds| && |ops| == i
    requires Run(c0, AllSteps(rounds[..i], bot, ops)) == Some(c) && Run(c, RoundSteps(rounds[i], bot, taken)) == Some(c')
    ensures Run(c0, AllSteps(rounds[..i + 1], bot, ops + [taken])) == Some(c')
  {
    OneMoreRound(rounds, i, bot, ops, taken);
    RunInTwo(c0, AllSteps(rounds[..i], bot, ops), RoundSteps(rounds[i], bot, taken));
  }

  lemma SentMore(sent: seq<Event>, events: seq<Event>, sent': seq<Event>, events': seq<Event>)
    requires AreSentFor(sent, events) && AreSentFor(sent', events')
    ensures AreSentFor(sent + sent', events + events')
  {}

  // ---- The loop

  lemma HandledIsSent(c: Cache, topics: set<Topic>, event: Event, me: UserId, database: Database, hash: HashOrder,
                      bot: bool, fetched: bool, after: Cache, topics': set<Topic>, event': Event,
                      deleted: seq<ChannelId>, created: seq<Channel>)
    requires me in c.users
    requires IsHandled(c, topics, event, me, database, hash, bot, fetched, after, topics', event', deleted, created)
    ensures SentFor(event', event)
  {}

  /** Handle an event and send what is left of it. */
  method HandleAndSend(state: State, event: Event, fetched: bool, ghost ids: seq<string>)
    returns (sent: seq<Event>, ghost ops: seq<Operation>)
    requires state.Valid() && KeyedById(state.database) && !state.state.Reset?
    requires state.seenEvents == Filtered(ids).seen
    modifies state`subscribed, state`state, state`channels, state`servers, state`members, state`users, state`seenEvents
    ensures state.Valid() && !state.state.Reset? && Reaches(old(state.Client()), ops, state.Client())
    ensures state.seenEvents == Filtered(ids + CarriedBy(Some(event))).seen
    ensures AreSentFor(sent, PassedBy(Some(event), old(state.seenEvents)))
  {
    var forward, event', deleted, created, handled := state.HandleIncomingEvent(event, fetched);
    sent, ops := [], handled;
    FilteredOneMore(ids, Some(event));
    if forward {
      HandledIsSent(old(state.Known()), old(state.subscribed), event, state.userId, state.database, state.hash, state.isBot,
                    fetched, state.Known(), state.subscribed, event', deleted, created);
      sent := [event'];
    }
  }

  /** Flush the pending change to the broker. */
  method FlushRound(state: State, subscriber: Subscriber, notices: seq<TimedEntry>, ghost c: Connection) returns (panicked: bool)
    requires c.client == state.Client() && c.broker == subscriber.topics
    modifies state`subscribed, state`state, subscriber
    ensures Stepped(c, Flush(old(state.Heeded(notices)))) ==
            if panicked then None else Some(Connection(state.Client(), subscriber.topics, state.subscribed))
  {
    var pending;
    panicked, pending := state.ApplyState(notices);
    if !panicked {
      Forward(subscriber, pending, state.subscribed);
    }
  }

  /** The first flush goes through unless a subscribed entry expires in it, and every later one does. */
  lemma FlushSettles(c: Connection, first: bool, notices: seq<TimedEntry>)
    requires first ==> c == Ready(c.client.subscribed)
    requires !first ==> Settled(c)
    ensures match Stepped(c, Flush(notices))
            case None => first && ExpiresSubscribed(c.client.subscribed, notices)
            case Some(c') => Settled(c') && !(first && ExpiresSubscribed(c.client.subscribed, notices))
  {
    if first {
      TopicsDuringReset(c.client.subscribed, notices);
      if !ExpiresSubscribed(c.client.subscribed, notices) {
        FirstFlushSettles(c.client.subscribed, notices);
      }
    } else {
      StepKeepsSettled(c, Flush(notices));
    }
  }

  /** One wake-up of the loop. */
  method OneRound(state: State, subscriber: Subscriber, round: Round, ghost ids: seq<string>, ghost c: Connection,
                  ghost first: bool)
    returns (panicked: bool, sent: seq<Event>, ghost ops: seq<Operation>, ghost base: set<Topic>)
    requires state.Valid() && KeyedById(state.database)
    requires c.client == state.Client() && c.broker == subscriber.topics
    requires first ==> c == Ready(state.subscribed)
    requires !first ==> Settled(c)
    requires state.seenEvents == Filtered(ids).seen
    modifies state, subscriber
    ensures panicked <==> first && ExpiresSubscribed(old(state.subscribed), old(state.Heeded(round.notices)))
    ensures state.Valid() && state.isBot == old(state.isBot)
    ensures !panicked ==>
              && Run(c, RoundSteps(round, state.isBot, ops)) == Some(Connection(state.Client(), subscriber.topics, base))
              && Settled(Connection(state.Client(), subscriber.topics, base))
              && state.seenEvents == Filtered(ids + CarriedBy(round.event)).seen
              && AreSentFor(sent, PassedBy(round.event, old(state.seenEvents)))
  {
    ghost var flush := Flush(state.Heeded(round.notices));
    FlushSettles(c, first, flush.notices);
    RunOneMore(c, [], flush);
    panicked := FlushRound(state, subscriber, round.notices, c);
    sent, ops, base := [], [], state.subscribed;
    if panicked {
      return;
    }
    assert [] + [flush] == [flush];
    if round.event.Some? {
      ghost var settled := Connection(state.Client(), subscriber.topics, base);
      sent, ops := HandleAndSend(state, round.event.value, round.fetched, ids);
      StepKeepsSettled(settled, Perform(ops));
      RunOneMore(c, [flush], Perform(ops));
    } else {
      assert ids + CarriedBy(round.event) == ids;
      assert [flush] + [] == [flush];
    }
  }

  /**
    The loop of a connection whose Ready payload is out.  It panics exactly if a
    subscribed entry expires in the first flush.  Otherwise, whatever arrives,
    it is the run of the subscription machine that flushes once per wake-up,
    with the notices heeded then, and performs what each event asks for; `sent`
    is what the client receives, one message for each event that passes.
   */
  method Listen(state: State, subscriber: Subscriber, rounds: seq<Round>)
    returns (panicked: bool, sent: seq<Event>, ghost ops: seq<seq<Operation>>, ghost base: set<Topic>)
    requires state.Valid() && KeyedById(state.database) && state.state == Reset && subscriber.topics == {}
    requires state.seenEvents == []
    modifies state, subscriber
    ensures panicked <==> rounds != [] && ExpiresSubscribed(old(state.subscribed), old(state.Heeded(rounds[0].notices)))
    ensures state.Valid()
    ensures !panicked ==>
              && |ops| == |rounds|
              && Run(Ready(old(state.subscribed)), AllSteps(rounds, state.isBot, ops)) ==
                 Some(Connection(state.Client(), subscriber.topics, base))
              && (rounds != [] ==> !state.state.Reset? && base <= subscriber.topics)
              && state.seenEvents == Filtered(CarriedIds(rounds)).seen
              && AreSentFor(sent, Passed(rounds))
  {
    panicked, sent, ops, base := false, [], [], {};
    ghost var ready := Ready(state.subscribed);
    for i := 0 to |rounds|
      invariant state.Valid() && state.isBot == old(state.isBot) && |ops| == i
      invariant Run(ready, AllSteps(rounds[..i], state.isBot, ops)) == Some(Connection(state.Client(), subscriber.topics, base))
      invariant i == 0 ==> Connection(state.Client(), subscriber.topics, base) == ready
      invariant i > 0 ==> Settled(Connection(state.Client(), subscriber.topics, base))
      invariant i > 0 ==> !ExpiresSubscribed(old(state.subscribed), old(state.Heeded(rounds[0].notices)))
      invariant state.seenEvents == Filtered(CarriedIds(rounds[..i])).seen
      invariant AreSentFor(sent, Passed(rounds[..i]))
      invariant !panicked
    {
      ghost var c := Connection(state.Client(), subscriber.topics, base);
      ghost var taken;
      var more;
      panicked, more, taken, base := OneRound(state, subscriber, rounds[i], CarriedIds(rounds[..i]), c, i == 0);
      if panicked {
        return;
      }
      OneMoreRound(rounds, i, state.isBot, ops, taken);
      OneMoreRun(ready, rounds, i, state.isBot, ops, taken, c, Connection(state.Client(), subscriber.topics, base));
      SentMore(sent, Passed(rounds[..i]), more, PassedBy(rounds[i].event, Filtered(CarriedIds(rounds[..i])).seen));
      sent, ops := sent + more, ops + [taken];
    }
    assert rounds[..|rounds|] == rounds;
  }
}
