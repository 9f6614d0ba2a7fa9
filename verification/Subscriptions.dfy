/**
  A client connection keeps a set of subscribed topics, updated eagerly, and a
  pending change that is flushed later to the message broker.  This module is
  the state machine of the two sides and the relation between them.
 */
module Subscriptions {
  import opened Collections
  import opened Wrappers

  type Topic = string

  datatype StateChange = NoChange | Reset | Change(add: seq<Topic>, remove: seq<Topic>)

  datatype Subscription = Subscription(subscribed: set<Topic>, pending: StateChange)

  datatype Operation = Insert(topic: Topic) | Remove(topic: Topic)

  function Added(s: Subscription, topic: Topic): Subscription {
    if topic in s.subscribed then s
    else
      var pending := match s.pending
                     case NoChange => Change([topic], [])
                     case Change(add, remove) => Change(add + [topic], remove)
                     case Reset => Reset;
      Subscription(s.subscribed + {topic}, pending)
  }

  /** Removing a subscribed topic while a reset is pending is the one panic of the machine. */
  predicate RemovalPanics(s: Subscription, topic: Topic) {
    topic in s.subscribed && s.pending.Reset?
  }

  function Removed(s: Subscription, topic: Topic): Subscription
    requires !RemovalPanics(s, topic)
  {
    if topic !in s.subscribed then s
    else
      var pending := match s.pending
                     case NoChange => Change([], [topic])
                     case Change(add, remove) => Change(add, remove + [topic]);
      Subscription(s.subscribed - {topic}, pending)
  }

  /** The state after a sequence of operations, or nothing after a panic. */
  function Performed(s: Subscription, ops: seq<Operation>): Option<Subscription> {
    if ops == [] then Some(s)
    else
      match Performed(s, ops[..|ops| - 1])
      case None => None
      case Some(s') =>
        match ops[|ops| - 1]
        case Insert(t) => Some(Added(s', t))
        case Remove(t) => if RemovalPanics(s', t) then None else Some(Removed(s', t))
  }

  lemma {:induction false} PerformedConcat(s: Subscription, a: seq<Operation>, b: seq<Operation>)
    ensures Performed(s, a + b) ==
            match Performed(s, a) case None => None case Some(s') => Performed(s', b)
  {
    if b == [] {
      assert a + b == a;
    } else {
      assert (a + b)[..|a + b| - 1] == a + b[..|b| - 1];
      PerformedConcat(s, a, b[..|b| - 1]);
    }
  }

  // ---- Flushing

  /** The client's side of a flush: additions first, then removals. */
  function FlushedClient(s: Subscription): Subscription {
    match s.pending
    case Change(add, remove) => Subscription(s.subscribed + Elements(add) - Elements(remove), NoChange)
    case _ => Subscription(s.subscribed, NoChange)
  }

  /** The broker's side: removals first, then additions; a reset replaces everything. */
  function FlushedBroker(broker: set<Topic>, pending: StateChange, subscribed: set<Topic>): set<Topic> {
    match pending
    case NoChange => broker
    case Reset => subscribed
    case Change(add, remove) => broker - Elements(remove) + Elements(add)
  }

  /** `s` is reached from `base`, the topics right after the last flush, by logged operations. */
  ghost predicate Batch(base: set<Topic>, s: Subscription) {
    match s.pending
    case NoChange => s.subscribed == base
    case Reset => false
    case Change(add, remove) =>
      && (forall t :: t !in add && t !in remove ==> (t in s.subscribed <==> t in base))
      && (forall t :: t in add && t !in remove ==> t in s.subscribed && t !in base)
      && (forall t :: t !in add && t in remove ==> t !in s.subscribed && t in base)
  }

  lemma AddedKeepsBatch(base: set<Topic>, s: Subscription, topic: Topic)
    requires Batch(base, s)
    ensures Batch(base, Added(s, topic))
  {
    if s.pending.Change? {
      assert forall t :: t in s.pending.add + [topic] <==> t in s.pending.add || t == topic;
    }
  }

  lemma RemovedKeepsBatch(base: set<Topic>, s: Subscription, topic: Topic)
    requires Batch(base, s)
    ensures Batch(base, Removed(s, topic))
  {
    if s.pending.Change? {
      assert forall t :: t in s.pending.remove + [topic] <==> t in s.pending.remove || t == topic;
    }
  }

  /** Operations after a flush never panic and stay within the batch. */
  lemma {:induction false} OperationsKeepBatch(base: set<Topic>, s: Subscription, ops: seq<Operation>)
    requires Batch(base, s)
    ensures Performed(s, ops).Some? && Batch(base, Performed(s, ops).value)
  {
    if ops != [] {
      OperationsKeepBatch(base, s, ops[..|ops| - 1]);
      var s' := Performed(s, ops[..|ops| - 1]).value;
      AddedKeepsBatch(base, s', ops[|ops| - 1].topic);
      RemovedKeepsBatch(base, s', ops[|ops| - 1].topic);
    }
  }

  /** The topics both added and removed in the pending batch. */
  ghost function Churned(pending: StateChange): set<Topic> {
    if pending.Change? then Elements(pending.add) * Elements(pending.remove) else {}
  }

  ghost function Touched(pending: StateChange): set<Topic> {
    if pending.Change? then Elements(pending.add) + Elements(pending.remove) else {}
  }

  /**
    What a flush does to the two sides, exactly: the client stays within the
    broker; topics only the broker has are the old ones the batch left alone,
    plus the ones it both added and removed; and the client itself drops the
    churned topics it had eagerly subscribed.
   */
  lemma FlushGap(base: set<Topic>, broker: set<Topic>, s: Subscription)
    requires Batch(base, s) && base <= broker
    ensures var client, broker' := FlushedClient(s).subscribed, FlushedBroker(broker, s.pending, FlushedClient(s).subscribed);
            && client <= broker'
            && broker' - client == (broker - base - Touched(s.pending)) + Churned(s.pending)
            && client == s.subscribed - Churned(s.pending)
  {}

  /** From agreement, a flush keeps agreement exactly when no topic was churned. */
  lemma FlushFromAgreement(base: set<Topic>, s: Subscription)
    requires Batch(base, s)
    ensures var client, broker' := FlushedClient(s).subscribed, FlushedBroker(base, s.pending, FlushedClient(s).subscribed);
            && broker' - client == Churned(s.pending)
            && (client == broker' <==> Churned(s.pending) == {})
  {
    FlushGap(base, base, s);
    var client, broker' := FlushedClient(s).subscribed, FlushedBroker(base, s.pending, FlushedClient(s).subscribed);
    assert broker' == client + (broker' - client);
  }

  // ---- Whole connections

  /** What the active-server cache reports before a flush. */
  datatype TimedEntry = Valid(server: string) | Expired(server: string)

  function MemberTopic(server: string): Topic {
    server + "u"
  }

  function OperationOf(e: TimedEntry): Operation {
    match e
    case Valid(k) => Insert(MemberTopic(k))
    case Expired(k) => Remove(MemberTopic(k))
  }

  function OperationsOf(entries: seq<TimedEntry>): seq<Operation> {
    seq(|entries|, i requires 0 <= i < |entries| => OperationOf(entries[i]))
  }

  /** Events perform operations; a round of the listener flushes, after the cache's notices for a user (bots get none). */
  datatype Step = Perform(ops: seq<Operation>) | Flush(notices: seq<TimedEntry>)

  /** `base` records the client's topics right after the last flush. */
  datatype Connection = Connection(client: Subscription, broker: set<Topic>, base: set<Topic>)

  /** The connection once its Ready payload is built: a pending reset and the payload's topics. */
  function Ready(topics: set<Topic>): Connection {
    Connection(Subscription(topics, Reset), {}, {})
  }

  function Stepped(c: Connection, step: Step): Option<Connection> {
    match step
    case Perform(ops) =>
      (match Performed(c.client, ops) case None => None case Some(s) => Some(c.(client := s)))
    case Flush(notices) =>
      match Performed(c.client, OperationsOf(notices))
      case None => None
      case Some(s) =>
        var client := FlushedClient(s);
        Some(Connection(client, FlushedBroker(c.broker, s.pending, client.subscribed), client.subscribed))
  }

  function Run(c: Connection, steps: seq<Step>): Option<Connection> {
    if steps == [] then Some(c)
    else
      match Run(c, steps[..|steps| - 1])
      case None => None
      case Some(c') => Stepped(c', steps[|steps| - 1])
  }

  /** Every connection after its first flush. */
  ghost predicate Settled(c: Connection) {
    Batch(c.base, c.client) && c.base <= c.broker
  }

  lemma StepKeepsSettled(c: Connection, step: Step)
    requires Settled(c)
    ensures Stepped(c, step).Some? && Settled(Stepped(c, step).value)
    ensures step.Flush? ==>
              var c' := Stepped(c, step).value;
              c'.client.pending == NoChange && c'.client.subscribed == c'.base <= c'.broker
  {
    match step
    case Perform(ops) => OperationsKeepBatch(c.base, c.client, ops);
    case Flush(notices) =>
      OperationsKeepBatch(c.base, c.client, OperationsOf(notices));
      FlushGap(c.base, c.broker, Performed(c.client, OperationsOf(notices)).value);
  }

  /** A panic-free first flush settles the connection, with both sides equal. */
  lemma FirstFlushSettles(topics: set<Topic>, notices: seq<TimedEntry>)
    requires Stepped(Ready(topics), Flush(notices)).Some?
    ensures var c := Stepped(Ready(topics), Flush(notices)).value;
            Settled(c) && c.client.subscribed == c.broker
  {
    ResetIsKept(Ready(topics).client, OperationsOf(notices));
  }

  lemma {:induction false} ResetIsKept(s: Subscription, ops: seq<Operation>)
    requires s.pending.Reset?
    ensures Performed(s, ops).Some? ==> Performed(s, ops).value.pending.Reset?
  {
    if ops != [] {
      ResetIsKept(s, ops[..|ops| - 1]);
    }
  }

  /**
    Every run: once the first flush got through, no step ever panics, the
    pending change is never a reset again, and after every flush the client's
    topics are among the broker's.
   */
  lemma {:induction false} EveryRunIsSafe(topics: set<Topic>, notices: seq<TimedEntry>, steps: seq<Step>)
    requires Stepped(Ready(topics), Flush(notices)).Some?
    ensures var r := Run(Ready(topics), [Flush(notices)] + steps);
            && r.Some?
            && Settled(r.value)
            && !r.value.client.pending.Reset?
            && (steps == [] || steps[|steps| - 1].Flush? ==> r.value.client.subscribed <= r.value.broker)
  {
    var all := [Flush(notices)] + steps;
    assert all[..|all| - 1] == if steps == [] then [] else [Flush(notices)] + steps[..|steps| - 1];
    if steps == [] {
      FirstFlushSettles(topics, notices);
    } else {
      EveryRunIsSafe(topics, notices, steps[..|steps| - 1]);
      StepKeepsSettled(Run(Ready(topics), all[..|all| - 1]).value, steps[|steps| - 1]);
    }
  }

  // ---- What the broker is left with

  /** The changes a run flushes, in order. */
  ghost function Flushes(c: Connection, steps: seq<Step>): seq<StateChange> {
    if steps == [] then []
    else
      var front, last := steps[..|steps| - 1], steps[|steps| - 1];
      Flushes(c, front) +
      match Run(c, front)
      case None => []
      case Some(c') => FlushOf(c', last)
  }

  ghost function FlushOf(c: Connection, step: Step): seq<StateChange> {
    if step.Perform? then []
    else match Performed(c.client, OperationsOf(step.notices)) case None => [] case Some(s) => [s.pending]
  }

  /** Some change both added and removed the topic, and no later one touched it. */
  ghost predicate LeftBehind(changes: seq<StateChange>, t: Topic) {
    exists i :: 0 <= i < |changes| && t in Churned(changes[i]) && forall j :: i < j < |changes| ==> t !in Touched(changes[j])
  }

  lemma LeftBehindOneMore(changes: seq<StateChange>, change: StateChange, t: Topic)
    ensures LeftBehind(changes + [change], t) <==>
            t in Churned(change) || (LeftBehind(changes, t) && t !in Touched(change))
  {
    var all := changes + [change];
    if t in Churned(change) {
      assert t in Churned(all[|changes|]);
    }
    if LeftBehind(changes, t) && t !in Touched(change) {
      var i :| 0 <= i < |changes| && t in Churned(changes[i]) && forall j :: i < j < |changes| ==> t !in Touched(changes[j]);
      assert t in Churned(all[i]);
    }
    if LeftBehind(all, t) && t !in Churned(change) {
      var i :| 0 <= i < |all| && t in Churned(all[i]) && forall j :: i < j < |all| ==> t !in Touched(all[j]);
      assert t in Churned(changes[i]) && all[|changes|] == change;
      assert forall j :: i < j < |changes| ==> changes[j] == all[j];
    }
  }

  /**
    Over every run: the topics the broker has beyond the client's last flushed
    ones are exactly those that some batch both added and removed and no later
    batch touched.  After a flush the flushed topics are the client's.
   */
  lemma {:induction false} SurplusIsLeftBehind(topics: set<Topic>, notices: seq<TimedEntry>, steps: seq<Step>, t: Topic)
    requires Stepped(Ready(topics), Flush(notices)).Some?
    ensures var all := [Flush(notices)] + steps;
            && Run(Ready(topics), all).Some?
            && var c := Run(Ready(topics), all).value;
            && (t in c.broker - c.base <==> LeftBehind(Flushes(Ready(topics), all), t))
            && (all[|all| - 1].Flush? ==> c.base == c.client.subscribed)
  {
    var c0, all := Ready(topics), [Flush(notices)] + steps;
    EveryRunIsSafe(topics, notices, steps);
    if steps == [] {
      assert all[..0] == [];
      ResetIsKept(c0.client, OperationsOf(notices));
      LeftBehindOneMore([], Reset, t);
      assert Flushes(c0, all) == [] + [Reset];
    } else {
      var front, last := steps[..|steps| - 1], steps[|steps| - 1];
      assert all[..|all| - 1] == [Flush(notices)] + front;
      SurplusIsLeftBehind(topics, notices, front, t);
      EveryRunIsSafe(topics, notices, front);
      var c, changes := Run(c0, [Flush(notices)] + front).value, Flushes(c0, [Flush(notices)] + front);
      SurplusAfterStep(c, last);
      if last.Flush? {
        LeftBehindOneMore(changes, Performed(c.client, OperationsOf(last.notices)).value.pending, t);
      } else {
        assert changes + FlushOf(c, last) == changes;
      }
    }
  }

  lemma SurplusAfterStep(c: Connection, step: Step)
    requires Settled(c)
    ensures Stepped(c, step).Some?
    ensures var c' := Stepped(c, step).value;
            match step
            case Perform(_) => c'.broker == c.broker && c'.base == c.base
            case Flush(notices) =>
              && Performed(c.client, OperationsOf(notices)).Some?
              && var pending := Performed(c.client, OperationsOf(notices)).value.pending;
                 c'.broker - c'.base == (c.broker - c.base - Touched(pending)) + Churned(pending)
  {
    StepKeepsSettled(c, step);
    if step.Flush? {
      OperationsKeepBatch(c.base, c.client, OperationsOf(step.notices));
      FlushGap(c.base, c.broker, Performed(c.client, OperationsOf(step.notices)).value);
    }
  }

  // ---- When a run panics

  /** An entry that an earlier notice of the list, or the Ready payload, made a subscribed topic expires. */
  ghost predicate ExpiresSubscribed(topics: set<Topic>, notices: seq<TimedEntry>) {
    exists i :: 0 <= i < |notices| && notices[i].Expired? && KnownBefore(topics, notices, i)
  }

  ghost predicate KnownBefore(topics: set<Topic>, notices: seq<TimedEntry>, i: int)
    requires 0 <= i < |notices|
  {
    || MemberTopic(notices[i].server) in topics
    || exists j :: 0 <= j < i && notices[j] == Valid(notices[i].server)
  }

  lemma MemberTopicIsInjective(a: string, b: string)
    requires MemberTopic(a) == MemberTopic(b)
    ensures a == b
  {
    assert a == MemberTopic(a)[..|MemberTopic(a)| - 1];
    assert b == MemberTopic(b)[..|MemberTopic(b)| - 1];
  }

  /** While a reset is pending topics only accumulate. */
  lemma {:induction false} TopicsDuringReset(topics: set<Topic>, notices: seq<TimedEntry>)
    ensures match Performed(Subscription(topics, Reset), OperationsOf(notices))
            case None => ExpiresSubscribed(topics, notices)
            case Some(s) =>
              && !ExpiresSubscribed(topics, notices)
              && s.pending.Reset?
              && (forall t :: t in s.subscribed <==>
                    t in topics || exists j :: 0 <= j < |notices| && notices[j].Valid? && MemberTopic(notices[j].server) == t)
  {
    if notices != [] {
      var n := |notices| - 1;
      var front := notices[..n];
      TopicsDuringReset(topics, front);
      assert OperationsOf(notices)[..n] == OperationsOf(front);
      LastNotice(topics, notices);
      if !ExpiresSubscribed(topics, front) {
        KnownIsSubscribed(topics, notices, Performed(Subscription(topics, Reset), OperationsOf(front)).value.subscribed);
      }
    }
  }

  lemma KnownIsSubscribed(topics: set<Topic>, notices: seq<TimedEntry>, subscribed: set<Topic>)
    requires notices != []
    requires var front := notices[..|notices| - 1];
             forall t :: t in subscribed <==>
               t in topics || exists j :: 0 <= j < |front| && front[j].Valid? && MemberTopic(front[j].server) == t
    ensures KnownBefore(topics, notices, |notices| - 1) <==> MemberTopic(notices[|notices| - 1].server) in subscribed
  {
    var n := |notices| - 1;
    var front, t := notices[..n], MemberTopic(notices[n].server);
    if t in subscribed && t !in topics {
      var j :| 0 <= j < n && front[j].Valid? && MemberTopic(front[j].server) == t;
      MemberTopicIsInjective(front[j].server, notices[n].server);
      assert notices[j] == Valid(notices[n].server);
    }
    if KnownBefore(topics, notices, n) && t !in topics {
      var j :| 0 <= j < n && notices[j] == Valid(notices[n].server);
      assert front[j].Valid? && MemberTopic(front[j].server) == t;
    }
  }

  lemma LastNotice(topics: set<Topic>, notices: seq<TimedEntry>)
    requires notices != []
    ensures var n := |notices| - 1;
            ExpiresSubscribed(topics, notices) <==>
            ExpiresSubscribed(topics, notices[..n]) || (notices[n].Expired? && KnownBefore(topics, notices, n))
  {
    var n := |notices| - 1;
    var front := notices[..n];
    forall i | 0 <= i < n
      ensures KnownBefore(topics, front, i) <==> KnownBefore(topics, notices, i)
    {
      if KnownBefore(topics, notices, i) && MemberTopic(notices[i].server) !in topics {
        var j :| 0 <= j < i && notices[j] == Valid(notices[i].server);
        assert front[j] == Valid(front[i].server);
      }
      if KnownBefore(topics, front, i) && MemberTopic(notices[i].server) !in topics {
        var j :| 0 <= j < i && front[j] == Valid(front[i].server);
        assert notices[j] == Valid(notices[i].server);
      }
    }
    if ExpiresSubscribed(topics, front) {
      var i :| 0 <= i < n && front[i].Expired? && KnownBefore(topics, front, i);
      assert notices[i].Expired? && KnownBefore(topics, notices, i);
    }
    if ExpiresSubscribed(topics, notices) {
      var i :| 0 <= i <= n && notices[i].Expired? && KnownBefore(topics, notices, i);
      if i < n {
        assert front[i].Expired? && KnownBefore(topics, front, i);
      }
    }
  }

  /** A run panics exactly when its first flush reports a subscribed server entry as expired. */
  lemma PanicsExactlyOnEarlyExpiry(topics: set<Topic>, notices: seq<TimedEntry>, steps: seq<Step>)
    ensures Run(Ready(topics), [Flush(notices)] + steps).None? <==> ExpiresSubscribed(topics, notices)
  {
    TopicsDuringReset(topics, notices);
    if ExpiresSubscribed(topics, notices) {
      PanicIsFinal(Ready(topics), notices, steps);
    } else {
      EveryRunIsSafe(topics, notices, steps);
    }
  }

  lemma {:induction false} PanicIsFinal(c: Connection, notices: seq<TimedEntry>, steps: seq<Step>)
    requires Stepped(c, Flush(notices)).None?
    ensures Run(c, [Flush(notices)] + steps).None?
  {
    var all := [Flush(notices)] + steps;
    if steps == [] {
      assert all[..0] == [];
    } else {
      PanicIsFinal(c, notices, steps[..|steps| - 1]);
      assert all[..|all| - 1] == [Flush(notices)] + steps[..|steps| - 1];
    }
  }

  /** It can happen: an entry that becomes valid and expires before the first flush. */
  lemma EarlyExpiryPanics(topics: set<Topic>, server: string, steps: seq<Step>)
    ensures Run(Ready(topics), [Flush([Valid(server), Expired(server)])] + steps).None?
  {
    var notices := [Valid(server), Expired(server)];
    assert notices[1].Expired? && notices[0] == Valid(notices[1].server);
    assert KnownBefore(topics, notices, 1);
    PanicsExactlyOnEarlyExpiry(topics, notices, steps);
  }

  /** It cannot if the first notices name each server at most once and Ready subscribed to no member topic. */
  lemma SingleNoticesNeverPanic(topics: set<Topic>, notices: seq<TimedEntry>, steps: seq<Step>)
    requires forall i, j :: 0 <= i < j < |notices| ==> notices[i].server != notices[j].server
    requires forall i :: 0 <= i < |notices| ==> MemberTopic(notices[i].server) !in topics
    ensures Run(Ready(topics), [Flush(notices)] + steps).Some?
  {
    PanicsExactlyOnEarlyExpiry(topics, notices, steps);
  }
}
