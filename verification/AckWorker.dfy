/** The debounced worker that batches new messages and acknowledgements before writing them. */
module AckWorker {
  import opened Collections
  import opened Wrappers

  // Whole seconds; clock readings are in milliseconds
  const EXPIRE_CONSTANT: nat := 30
  const SAVE_CONSTANT: nat := 5
  const U16: nat := 0x1_0000

  /** `mass` is whether the message pushes to a whole role or server. */
  datatype Message = Message(id: string, mass: bool, recipients: seq<string>, hasPush: bool, silenced: bool)

  datatype AckEvent = ProcessMessage(messages: seq<Message>) | AckMessage(id: string)

  datatype Data = Data(channel: string, user: Option<string>, event: AckEvent)

  /** `isMessage` tells batches of messages from acknowledgements. */
  datatype Key = Key(user: Option<string>, channel: string, isMessage: bool)

  function KeyOf(d: Data): Key {
    Key(d.user, d.channel, d.event.ProcessMessage?)
  }

  datatype DelayedTask = DelayedTask(event: AckEvent, runNow: bool, lastUpdated: nat, firstSeen: nat) {
    function Delay(now: nat): DelayedTask {
      this.(lastUpdated := now)
    }

    function RunImmediately(): DelayedTask {
      this.(runNow := true)
    }

    predicate ShouldRun(now: nat) {
      runNow || ElapsedSeconds(firstSeen, now) > EXPIRE_CONSTANT || ElapsedSeconds(lastUpdated, now) > SAVE_CONSTANT
    }
  }

  function ElapsedSeconds(since: nat, now: nat): nat {
    if now < since then 0 else (now - since) / 1000
  }

  // ---- One arrival and one commit

  /** A task joined by another event of its key; only the last message of the event is kept. */
  function Merged(task: DelayedTask, event: AckEvent, now: nat, limit: nat): DelayedTask
    requires task.event.ProcessMessage? <==> event.ProcessMessage?
  {
    match event
    case AckMessage(_) => task.(event := event).Delay(now)
    case ProcessMessage(added) =>
      if added == [] then task
      else
        var message := added[|added| - 1];
        var batch := task.event.messages + [message];
        var task' := task.(event := ProcessMessage(batch));
        if message.mass then task'.RunImmediately()
        else if |batch| % U16 < limit then task'.Delay(now)
        else task'
  }

  type Tasks = map<Key, DelayedTask>

  /** Every task holds the kind of event its key says. */
  ghost predicate Kinds(tasks: Tasks) {
    forall k :: k in tasks ==> (tasks[k].event.ProcessMessage? <==> k.isMessage)
  }

  function Queued(tasks: Tasks, data: Data, now: nat, limit: nat): Tasks
    requires KeyOf(data) in tasks ==> (tasks[KeyOf(data)].event.ProcessMessage? <==> data.event.ProcessMessage?)
  {
    var key := KeyOf(data);
    if key in tasks then tasks[key := Merged(tasks[key], data.event, now, limit)]
    else tasks[key := DelayedTask(data.event, false, now, now)]
  }

  // ---- Runs of the worker

  datatype Pop = Pop(data: Data, time: nat)

  /** A call of the handler: how many events had been popped by then, and whose mentions it wrote before it returned. */
  datatype Commit = Commit(key: Key, event: AckEvent, at: nat, wrote: set<string>)

  /** For each key, whose mentions the handler writes when the key is committed. */
  type Writes = map<Key, set<string>>

  datatype World = World(tasks: Tasks, handled: seq<Commit>, popped: seq<Pop>)

  const IDLE := World(map[], [], [])

  function CommitOf(w: World, k: Key, writes: Writes): Commit
    requires k in w.tasks
  {
    Commit(k, w.tasks[k].event, |w.popped|, if k in writes then writes[k] else {})
  }

  function CommittedOne(w: World, k: Key, writes: Writes): World {
    if k in w.tasks then w.(tasks := w.tasks - {k}, handled := w.handled + [CommitOf(w, k, writes)]) else w
  }

  function Committed(w: World, order: seq<Key>, writes: Writes): World {
    if order == [] then w else CommittedOne(Committed(w, order[..|order| - 1], writes), order[|order| - 1], writes)
  }

  datatype Step =
    | Scan(start: nat, readings: map<Key, nat>, order: seq<Key>, writes: Writes)
    | Receive(pop: Pop, limit: nat)

  ghost predicate IsDue(tasks: Tasks, readings: map<Key, nat>, k: Key) {
    k in tasks && k in readings && tasks[k].ShouldRun(readings[k])
  }

  /** A scan reads the clock for every task, no earlier than its start, and lists the due keys in some order. */
  ghost predicate Enabled(w: World, step: Step) {
    match step
    case Scan(start, readings, order, _) =>
      && (forall k :: k in w.tasks ==> k in readings && readings[k] >= start)
      && (forall k :: k in order <==> IsDue(w.tasks, readings, k))
      && NoDuplicates(order)
    case Receive(_, _) => true
  }

  /** An event as the producers make them: an acknowledgement, or exactly one message. */
  predicate IsSingle(event: AckEvent) {
    event.ProcessMessage? ==> |event.messages| == 1
  }

  ghost predicate AllSingle(steps: seq<Step>) {
    forall i :: 0 <= i < |steps| && steps[i].Receive? ==> IsSingle(steps[i].pop.data.event)
  }

  ghost function After(w: World, step: Step): World
    requires Kinds(w.tasks)
  {
    match step
    case Scan(_, _, order, writes) => Committed(w, order, writes)
    case Receive(pop, limit) =>
      w.(tasks := Queued(w.tasks, pop.data, pop.time, limit), popped := w.popped + [pop])
  }

  // ---- Accounting

  /** The messages that arrived for a key, in order. */
  function Arrived(popped: seq<Pop>, k: Key): seq<Message> {
    if popped == [] then []
    else
      var last := popped[|popped| - 1].data;
      Arrived(popped[..|popped| - 1], k) + Brought(last, k)
  }

  /** The messages an event brings for a key. */
  function Brought(data: Data, k: Key): seq<Message> {
    if KeyOf(data) == k && data.event.ProcessMessage? then data.event.messages else []
  }

  /** The messages handed to the handler for a key, in order. */
  function Handled(handled: seq<Commit>, k: Key): seq<Message> {
    if handled == [] then []
    else
      var last := handled[|handled| - 1];
      Handled(handled[..|handled| - 1], k) + BatchFor(last, k)
  }

  /** The messages a commit of the key handed over. */
  function BatchFor(c: Commit, k: Key): seq<Message> {
    if c.key == k && c.event.ProcessMessage? then c.event.messages else []
  }

  function Waiting(tasks: Tasks, k: Key): seq<Message> {
    if k in tasks && tasks[k].event.ProcessMessage? then tasks[k].event.messages else []
  }

  /** The number of events popped when `k` was last committed. */
  function LastCommit(handled: seq<Commit>, k: Key): nat {
    if handled == [] then 0
    else if handled[|handled| - 1].key == k then handled[|handled| - 1].at
    else LastCommit(handled[..|handled| - 1], k)
  }

  /** The latest event popped for `k`. */
  function Latest(popped: seq<Pop>, k: Key): Option<AckEvent> {
    if popped == [] then None
    else if KeyOf(popped[|popped| - 1].data) == k then Some(popped[|popped| - 1].data.event)
    else Latest(popped[..|popped| - 1], k)
  }

  /** The time of the first event for `k` popped at or after position `from`. */
  function FirstSince(popped: seq<Pop>, k: Key, from: nat): Option<nat> {
    if |popped| <= from then None
    else
      match FirstSince(popped[..|popped| - 1], k, from)
      case Some(t) => Some(t)
      case None => if KeyOf(popped[|popped| - 1].data) == k then Some(popped[|popped| - 1].time) else None
  }

  /** For every key, handled batches followed by the waiting batch are the arrivals. */
  ghost predicate Conserved(w: World) {
    forall k :: Handled(w.handled, k) + Waiting(w.tasks, k) == Arrived(w.popped, k)
  }

  /** A key has a task exactly if something arrived since its last commit, and the task remembers when that was. */
  ghost predicate TracksArrivals(w: World) {
    && (forall k :: LastCommit(w.handled, k) <= |w.popped|)
    && (forall k :: FirstSince(w.popped, k, LastCommit(w.handled, k)) ==
                    if k in w.tasks then Some(w.tasks[k].firstSeen) else None)
  }

  /** Acknowledgements wait, and were committed, as the latest one popped for their key. */
  ghost predicate AcksAreLatest(w: World) {
    && (forall k :: k in w.tasks && !k.isMessage ==> Latest(w.popped, k) == Some(w.tasks[k].event))
    && (forall i :: 0 <= i < |w.handled| && !w.handled[i].key.isMessage ==>
          w.handled[i].at <= |w.popped| && Latest(w.popped[..w.handled[i].at], w.handled[i].key) == Some(w.handled[i].event))
  }

  /** No batch is empty, waiting or handled. */
  ghost predicate BatchesNonEmpty(w: World) {
    && (forall k :: k in w.tasks && k.isMessage ==> Waiting(w.tasks, k) != [])
    && (forall i :: 0 <= i < |w.handled| && w.handled[i].event.ProcessMessage? ==> w.handled[i].event.messages != [])
  }

  // ---- Each arrival keeps the accounts

  lemma ReceiveKeepsKinds(w: World, pop: Pop, limit: nat)
    requires Kinds(w.tasks)
    ensures Kinds(After(w, Receive(pop, limit)).tasks)
  {}

  lemma PoppedFront(popped: seq<Pop>, pop: Pop)
    ensures (popped + [pop])[..|popped + [pop]| - 1] == popped
  {}

  lemma ReceiveAddsToWaiting(w: World, pop: Pop, limit: nat, k: Key)
    requires Kinds(w.tasks) && IsSingle(pop.data.event)
    ensures Waiting(After(w, Receive(pop, limit)).tasks, k) == Waiting(w.tasks, k) + Brought(pop.data, k)
  {
    if pop.data.event.ProcessMessage? {
      var messages := pop.data.event.messages;
      assert messages == [messages[0]];
    }
  }

  lemma ArrivedOneMore(popped: seq<Pop>, pop: Pop, k: Key)
    ensures Arrived(popped + [pop], k) == Arrived(popped, k) + Brought(pop.data, k)
  {
    PoppedFront(popped, pop);
  }

  lemma Reassociate(handled: seq<Message>, waiting: seq<Message>, arrived: seq<Message>, brought: seq<Message>)
    requires handled + waiting == arrived
    ensures handled + (waiting + brought) == arrived + brought
  {}

  lemma ReceiveKeepsConserved(w: World, pop: Pop, limit: nat)
    requires Kinds(w.tasks) && Conserved(w) && IsSingle(pop.data.event)
    ensures Conserved(After(w, Receive(pop, limit)))
  {
    var w' := After(w, Receive(pop, limit));
    forall k
      ensures Handled(w'.handled, k) + Waiting(w'.tasks, k) == Arrived(w'.popped, k)
    {
      ReceiveAddsToWaiting(w, pop, limit, k);
      ArrivedOneMore(w.popped, pop, k);
      Reassociate(Handled(w.handled, k), Waiting(w.tasks, k), Arrived(w.popped, k), Brought(pop.data, k));
    }
  }

  lemma ReceiveKeepsNonEmpty(w: World, pop: Pop, limit: nat)
    requires Kinds(w.tasks) && BatchesNonEmpty(w) && IsSingle(pop.data.event)
    ensures BatchesNonEmpty(After(w, Receive(pop, limit)))
  {}

  lemma ReceiveKeepsTracking(w: World, pop: Pop, limit: nat)
    requires Kinds(w.tasks) && TracksArrivals(w)
    ensures TracksArrivals(After(w, Receive(pop, limit)))
  {
    PoppedFront(w.popped, pop);
  }

  lemma ReceiveKeepsLatest(w: World, pop: Pop, limit: nat)
    requires Kinds(w.tasks) && AcksAreLatest(w)
    ensures AcksAreLatest(After(w, Receive(pop, limit)))
  {
    var w' := After(w, Receive(pop, limit));
    PoppedFront(w.popped, pop);
    forall i | 0 <= i < |w'.handled| && !w'.handled[i].key.isMessage
      ensures Latest(w'.popped[..w'.handled[i].at], w'.handled[i].key) == Some(w'.handled[i].event)
    {
      assert w'.popped[..w.handled[i].at] == w.popped[..w.handled[i].at];
    }
  }

  // ---- Each commit keeps the accounts

  /** What every run keeps. */
  ghost predicate Accounts(w: World) {
    Kinds(w.tasks) && TracksArrivals(w) && AcksAreLatest(w)
  }

  /** What every run of single events keeps. */
  ghost predicate Balanced(w: World) {
    Conserved(w) && BatchesNonEmpty(w)
  }

  lemma HandledFront(handled: seq<Commit>, c: Commit)
    ensures (handled + [c])[..|handled + [c]| - 1] == handled
  {}

  lemma CommitKeepsBalanced(w: World, k: Key, writes: Writes)
    requires Balanced(w) && Kinds(w.tasks)
    ensures Balanced(CommittedOne(w, k, writes))
  {
    var w' := CommittedOne(w, k, writes);
    if k in w.tasks {
      HandledFront(w.handled, CommitOf(w, k, writes));
      forall j
        ensures Handled(w'.handled, j) + Waiting(w'.tasks, j) == Arrived(w'.popped, j)
      {
        assert Handled(w.handled, j) + Waiting(w.tasks, j) == Arrived(w.popped, j);
        if j == k {
          assert Waiting(w'.tasks, k) == [];
        }
      }
    }
  }

  lemma CommitKeepsTracking(w: World, k: Key, writes: Writes)
    requires TracksArrivals(w)
    ensures TracksArrivals(CommittedOne(w, k, writes))
  {
    var w' := CommittedOne(w, k, writes);
    if k in w.tasks {
      HandledFront(w.handled, CommitOf(w, k, writes));
      forall j
        ensures LastCommit(w'.handled, j) <= |w'.popped|
        ensures FirstSince(w'.popped, j, LastCommit(w'.handled, j)) ==
                if j in w'.tasks then Some(w'.tasks[j].firstSeen) else None
      {
        assert LastCommit(w'.handled, j) == if j == k then |w.popped| else LastCommit(w.handled, j);
      }
    }
  }

  lemma CommitKeepsLatest(w: World, k: Key, writes: Writes)
    requires AcksAreLatest(w)
    ensures AcksAreLatest(CommittedOne(w, k, writes))
  {
    assert w.popped[..|w.popped|] == w.popped;
  }

  lemma {:induction false} CommitsKeepAccounts(w: World, order: seq<Key>, writes: Writes)
    requires Accounts(w)
    ensures Accounts(Committed(w, order, writes))
    ensures Balanced(w) ==> Balanced(Committed(w, order, writes))
  {
    if order != [] {
      var v, k := Committed(w, order[..|order| - 1], writes), order[|order| - 1];
      CommitsKeepAccounts(w, order[..|order| - 1], writes);
      if Balanced(w) {
        CommitKeepsBalanced(v, k, writes);
      }
      CommitKeepsTracking(v, k, writes);
      CommitKeepsLatest(v, k, writes);
    }
  }

  lemma {:induction false} CommitsRemove(w: World, order: seq<Key>, writes: Writes)
    ensures Committed(w, order, writes).tasks == w.tasks - Elements(order)
    ensures Committed(w, order, writes).popped == w.popped
  {
    if order != [] {
      CommitsRemove(w, order[..|order| - 1], writes);
      assert order == order[..|order| - 1] + [order[|order| - 1]];
    }
  }

  // ---- Every run

  ghost function RunOf(steps: seq<Step>): Option<World> {
    if steps == [] then Some(IDLE)
    else
      match RunOf(steps[..|steps| - 1])
      case None => None
      case Some(w) =>
        var step := steps[|steps| - 1];
        if Kinds(w.tasks) && Enabled(w, step) then Some(After(w, step)) else None
  }

  lemma StepKeepsAccounts(w: World, step: Step)
    requires Accounts(w) && Enabled(w, step)
    ensures Accounts(After(w, step))
    ensures Balanced(w) && (step.Receive? ==> IsSingle(step.pop.data.event)) ==> Balanced(After(w, step))
  {
    match step
    case Scan(_, _, order, writes) => CommitsKeepAccounts(w, order, writes);
    case Receive(pop, limit) =>
      ReceiveKeepsKinds(w, pop, limit);
      ReceiveKeepsTracking(w, pop, limit);
      ReceiveKeepsLatest(w, pop, limit);
      if Balanced(w) && IsSingle(pop.data.event) {
        ReceiveKeepsConserved(w, pop, limit);
        ReceiveKeepsNonEmpty(w, pop, limit);
      }
  }

  /**
    In every run, whatever the scans, the arrivals and the handler's failures:
    a key has a task exactly if something arrived since its last commit, and
    every committed acknowledgement was the latest popped for its key.  In every
    run of single events, per key the handled batches followed by the waiting
    one are the arrivals in order, and no batch is empty.
   */
  lemma {:induction false} AccountsAlways(steps: seq<Step>)
    ensures RunOf(steps).Some? ==> Accounts(RunOf(steps).value)
    ensures RunOf(steps).Some? && AllSingle(steps) ==> Balanced(RunOf(steps).value)
  {
    if steps != [] {
      AccountsAlways(steps[..|steps| - 1]);
      match RunOf(steps[..|steps| - 1])
      case None =>
      case Some(w) =>
        if Enabled(w, steps[|steps| - 1]) {
          StepKeepsAccounts(w, steps[|steps| - 1]);
        }
    }
  }

  /**
    After a due scan nothing is flagged to run, nothing waits whose first
    arrival since its last commit is 31 seconds old, and nothing that has been
    quiet for 6 seconds.
   */
  lemma ScanMeetsDeadlines(steps: seq<Step>, k: Key)
    requires RunOf(steps).Some? && steps != [] && steps[|steps| - 1].Scan?
    requires k in RunOf(steps).value.tasks
    ensures var w, start := RunOf(steps).value, steps[|steps| - 1].start;
            && !w.tasks[k].runNow
            && FirstSince(w.popped, k, LastCommit(w.handled, k)) == Some(w.tasks[k].firstSeen)
            && start < w.tasks[k].firstSeen + 31_000
            && start < w.tasks[k].lastUpdated + 6_000
  {
    AccountsAlways(steps);
    var v, scan := RunOf(steps[..|steps| - 1]).value, steps[|steps| - 1];
    CommitsRemove(v, scan.order, scan.writes);
    assert !IsDue(v.tasks, scan.readings, k);
  }

  /** With more than one message in an event, a merge keeps only the last: the one-message rule is needed. */
  lemma MergeDropsAllButLast(task: DelayedTask, added: seq<Message>, now: nat, limit: nat)
    requires task.event.ProcessMessage?
    ensures Merged(task, ProcessMessage(added), now, limit).event.messages ==
            task.event.messages + (if added == [] then [] else [added[|added| - 1]])
    ensures Merged(task, ProcessMessage(added), now, limit).event.messages == task.event.messages + added <==> |added| <= 1
  {}

  // ---- Fan-out of a committed batch

  /** The ids of the messages that mention a user. */
  function Mentions(messages: seq<Message>, user: string): seq<string> {
    if messages == [] then []
    else
      var last := messages[|messages| - 1];
      Mentions(messages[..|messages| - 1], user) + (if user in last.recipients then [last.id] else [])
  }

  lemma {:induction false} MentionsConcat(a: seq<Message>, b: seq<Message>, user: string)
    ensures Mentions(a + b, user) == Mentions(a, user) + Mentions(b, user)
  {
    if b == [] {
      assert a + b == a;
    } else {
      assert (a + b)[..|a + b| - 1] == a + b[..|b| - 1];
      MentionsConcat(a, b[..|b| - 1], user);
    }
  }

  /** The mentions recorded for a user in a key's channel over a whole run. */
  function Recorded(handled: seq<Commit>, k: Key, user: string): seq<string> {
    if handled == [] then []
    else
      var last := handled[|handled| - 1];
      Recorded(handled[..|handled| - 1], k, user) + (if user in last.wrote then Mentions(BatchFor(last, k), user) else [])
  }

  /** Some call of the handler for the key failed before it wrote the user's mentions. */
  ghost predicate LosesMentions(handled: seq<Commit>, k: Key, user: string) {
    exists i :: 0 <= i < |handled| && user !in handled[i].wrote && Mentions(BatchFor(handled[i], k), user) != []
  }

  lemma LosesOneMore(handled: seq<Commit>, k: Key, user: string)
    requires handled != []
    ensures var last := handled[|handled| - 1];
            LosesMentions(handled, k, user) <==>
            LosesMentions(handled[..|handled| - 1], k, user) || (user !in last.wrote && Mentions(BatchFor(last, k), user) != [])
  {
    var front, last := handled[..|handled| - 1], handled[|handled| - 1];
    if LosesMentions(front, k, user) {
      var i :| 0 <= i < |front| && user !in front[i].wrote && Mentions(BatchFor(front[i], k), user) != [];
      assert handled[i] == front[i];
    }
    if LosesMentions(handled, k, user) {
      var i :| 0 <= i < |handled| && user !in handled[i].wrote && Mentions(BatchFor(handled[i], k), user) != [];
      assert i == |front| || handled[i] == front[i];
    }
  }

  /** The recorded mentions are all that were handed over, exactly if no failed call loses some. */
  lemma {:induction false} RecordedMentions(handled: seq<Commit>, k: Key, user: string)
    ensures |Recorded(handled, k, user)| <= |Mentions(Handled(handled, k), user)|
    ensures Recorded(handled, k, user) == Mentions(Handled(handled, k), user) <==> !LosesMentions(handled, k, user)
    ensures LosesMentions(handled, k, user) ==> |Recorded(handled, k, user)| < |Mentions(Handled(handled, k), user)|
  {
    if handled != [] {
      var front, last := handled[..|handled| - 1], handled[|handled| - 1];
      RecordedMentions(front, k, user);
      LosesOneMore(handled, k, user);
      MentionsConcat(Handled(front, k), BatchFor(last, k), user);
      assert Handled(handled, k) == Handled(front, k) + BatchFor(last, k);
    }
  }

  /**
    End to end, in every run of single events: a user's recorded mentions, then
    those still waiting, are the mentions that arrived, in order, exactly if no
    failed call of the handler loses some.
   */
  lemma MentionsConserved(steps: seq<Step>, k: Key, user: string)
    requires RunOf(steps).Some? && AllSingle(steps)
    ensures var w := RunOf(steps).value;
            Recorded(w.handled, k, user) + Mentions(Waiting(w.tasks, k), user) == Mentions(Arrived(w.popped, k), user) <==>
            !LosesMentions(w.handled, k, user)
  {
    var w := RunOf(steps).value;
    AccountsAlways(steps);
    RecordedMentions(w.handled, k, user);
    MentionsConcat(Handled(w.handled, k), Waiting(w.tasks, k), user);
    assert Handled(w.handled, k) + Waiting(w.tasks, k) == Arrived(w.popped, k);
  }

  /** Everybody a batch mentions. */
  function Mentioned(messages: seq<Message>): set<string> {
    if messages == [] then {}
    else
      var recipients := messages[|messages| - 1].recipients;
      Mentioned(messages[..|messages| - 1]) + set u | u in recipients
  }

  lemma {:induction false} MentionedHaveMentions(messages: seq<Message>, user: string)
    ensures user in Mentioned(messages) <==> Mentions(messages, user) != []
  {
    if messages != [] {
      MentionedHaveMentions(messages[..|messages| - 1], user);
    }
  }

  predicate PushesOut(m: Message) {
    !m.silenced && m.hasPush && (m.recipients != [] || m.mass)
  }

  /** The messages sent as push notifications, in order. */
  function Pushed(messages: seq<Message>): seq<Message> {
    if messages == [] then []
    else
      var last := messages[|messages| - 1];
      Pushed(messages[..|messages| - 1]) + (if PushesOut(last) then [last] else [])
  }

  function MassOf(messages: seq<Message>): seq<Message> {
    if messages == [] then []
    else
      var last := messages[|messages| - 1];
      MassOf(messages[..|messages| - 1]) + (if last.mass then [last] else [])
  }

  method MentionIds(messages: seq<Message>, user: string) returns (ids: seq<string>)
    ensures ids == Mentions(messages, user)
  {
    ids := [];
    for i := 0 to |messages|
      invariant ids == Mentions(messages[..i], user)
    {
      assert messages[..i + 1][..i] == messages[..i];
      if user in messages[i].recipients {
        ids := ids + [messages[i].id];
      }
    }
    assert messages[..|messages|] == messages;
  }

  /** How a call of the handler ends. */
  datatype Outcome = Done | Failed | Panicked

  /**
    What a call meets outside: the users whose unread entry cannot be written,
    whether an acknowledgement can be stored, and whether a batch's channel is
    found and a server channel.
   */
  datatype Outside = Outside(unwritable: set<string>, acknowledges: bool, serverChannel: bool)

  /** When a call panics: an acknowledgement of nobody, an empty batch, or mass mentions outside a server channel. */
  ghost predicate Panics(key: Key, event: AckEvent, outside: Outside) {
    match event
    case AckMessage(_) => key.user.None?
    case ProcessMessage(messages) =>
      || messages == []
      || (Mentioned(messages) !! outside.unwritable && MassOf(Pushed(messages)) != [] && !outside.serverChannel)
  }

  ghost predicate PanicsAt(tasks: Tasks, key: Key, outside: Outside) {
    key in tasks && Panics(key, tasks[key].event, outside)
  }

  /** Write the mentions of every user in turn, up to the first that cannot be written. */
  method RecordMentions(messages: seq<Message>, unwritable: set<string>)
    returns (failed: bool, mentions: map<string, seq<string>>)
    ensures failed <==> !(Mentioned(messages) !! unwritable)
    ensures mentions.Keys <= Mentioned(messages) - unwritable
    ensures !failed ==> mentions.Keys == Mentioned(messages)
    ensures forall u :: u in mentions ==> mentions[u] == Mentions(messages, u) && mentions[u] != []
  {
    mentions, failed := map[], false;
    var users: set<string> := {};
    for i := 0 to |messages|
      invariant users == Mentioned(messages[..i])
    {
      assert messages[..i + 1][..i] == messages[..i];
      users := users + Elements(messages[i].recipients);
    }
    assert messages[..|messages|] == messages;
    var rest := users;
    while rest != {}
      invariant rest <= users && mentions.Keys == users - rest && mentions.Keys !! unwritable
      invariant forall u :: u in mentions ==> mentions[u] == Mentions(messages, u) && mentions[u] != []
      decreases rest
    {
      var user :| user in rest;
      var ids := MentionIds(messages, user);
      MentionedHaveMentions(messages, user);
      if ids != [] {
        if user in unwritable {
          failed := true;
          return;
        }
        mentions := mentions[user := ids];
      }
      rest := rest - {user};
    }
  }

  /** The messages pushed, and the mass mentions among them. */
  method SendPushes(messages: seq<Message>) returns (pushes: seq<Message>, massMentions: seq<Message>)
    ensures pushes == Pushed(messages)
    ensures massMentions == MassOf(Pushed(messages))
  {
    pushes, massMentions := [], [];
    for i := 0 to |messages|
      invariant pushes == Pushed(messages[..i]) && massMentions == MassOf(pushes)
    {
      var message := messages[i];
      assert messages[..i + 1][..i] == messages[..i];
      if message.silenced || !message.hasPush || (message.recipients == [] && !message.mass) {
        continue;
      }
      assert (pushes + [message])[..|pushes|] == pushes;
      pushes := pushes + [message];
      if message.mass {
        massMentions := massMentions + [message];
      }
    }
    assert messages[..|messages|] == messages;
  }

  /** Handle one event: whose mentions were written, what was pushed, and how the call ended. */
  method HandleAckEvent(key: Key, event: AckEvent, outside: Outside)
    returns (outcome: Outcome, mentions: map<string, seq<string>>, pushes: seq<Message>, massMentions: seq<Message>)
    ensures outcome == Panicked <==> Panics(key, event, outside)
    ensures event.AckMessage? ==> mentions == map[] && pushes == [] && massMentions == []
    ensures event.AckMessage? && key.user.Some? ==> outcome == if outside.acknowledges then Done else Failed
    ensures event.ProcessMessage? && event.messages == [] ==> mentions == map[] && pushes == [] && massMentions == []
    ensures event.ProcessMessage? && event.messages != [] ==>
              && (outcome == Failed <==> !(Mentioned(event.messages) !! outside.unwritable))
              && mentions.Keys <= Mentioned(event.messages) - outside.unwritable
              && (forall u :: u in mentions ==> mentions[u] == Mentions(event.messages, u) && mentions[u] != [])
              && (outcome == Failed ==> pushes == [] && massMentions == [])
              && (outcome != Failed ==> mentions.Keys == Mentioned(event.messages))
              && (outcome != Failed ==> pushes == Pushed(event.messages) && massMentions == MassOf(Pushed(event.messages)))
  {
    mentions, pushes, massMentions := map[], [], [];
    match event {
      case AckMessage(_) =>
        outcome := if key.user.None? then Panicked else if outside.acknowledges then Done else Failed;
      case ProcessMessage(messages) =>
        if messages == [] {
          outcome := Panicked;
          return;
        }
        var failed;
        failed, mentions := RecordMentions(messages, outside.unwritable);
        if failed {
          outcome := Failed;
          return;
        }
        pushes, massMentions := SendPushes(messages);
        outcome := if massMentions != [] && !outside.serverChannel then Panicked else Done;
    }
  }

  /** In a run of single events only mass mentions outside a server channel make the handler panic on a batch. */
  lemma BatchesPanicOnlyOnMass(steps: seq<Step>, k: Key, outside: Outside)
    requires RunOf(steps).Some? && AllSingle(steps)
    requires k in RunOf(steps).value.tasks && k.isMessage
    ensures var event := RunOf(steps).value.tasks[k].event;
            && event.ProcessMessage?
            && (Panics(k, event, outside) ==> MassOf(Pushed(event.messages)) != [] && !outside.serverChannel)
  {
    AccountsAlways(steps);
  }

  // ---- Lost mentions and unwritable users

  /** The writes of a scan are what the outside lets the handler write. */
  ghost predicate IsAnswered(w: World, step: Step, outside: Key -> Outside) {
    step.Scan? ==> WritesHold(w.tasks, outside, step.writes) && forall k :: k in step.order ==> k in step.writes
  }

  /** `outs` is what each step of the run meets outside. */
  ghost predicate IsAnsweredRun(steps: seq<Step>, outs: seq<Key -> Outside>) {
    |outs| == |steps| && RunOf(steps).Some? &&
    (steps != [] ==>
       var n := |steps| - 1;
       IsAnsweredRun(steps[..n], outs[..n]) && IsAnswered(RunOf(steps[..n]).value, steps[n], outs[n]))
  }

  /** Some call for the key meets a mentioned user who cannot be written. */
  ghost predicate SomeCallFails(steps: seq<Step>, outs: seq<Key -> Outside>, k: Key)
    requires IsAnsweredRun(steps, outs)
  {
    steps != [] &&
    var n := |steps| - 1;
    || SomeCallFails(steps[..n], outs[..n], k)
    || (steps[n].Scan? && k in steps[n].order &&
        !(Mentioned(Waiting(RunOf(steps[..n]).value.tasks, k)) !! outs[n](k).unwritable))
  }

  /** Some call for the key mentions the user, who cannot be written then. */
  ghost predicate CannotBeWritten(steps: seq<Step>, outs: seq<Key -> Outside>, k: Key, user: string)
    requires IsAnsweredRun(steps, outs)
  {
    steps != [] &&
    var n := |steps| - 1;
    || CannotBeWritten(steps[..n], outs[..n], k, user)
    || (steps[n].Scan? && k in steps[n].order &&
        user in Mentioned(Waiting(RunOf(steps[..n]).value.tasks, k)) && user in outs[n](k).unwritable)
  }

  /** The calls of a scan, one per key. */
  lemma {:induction false} CommitsOfScan(w: World, order: seq<Key>, writes: Writes)
    requires NoDuplicates(order) && forall k :: k in order ==> k in w.tasks
    ensures forall c :: c in Committed(w, order, writes).handled <==>
              c in w.handled || exists k :: k in order && c == CommitOf(w, k, writes)
  {
    if order != [] {
      var n := |order| - 1;
      var front, last := order[..n], order[n];
      CommitsOfScan(w, front, writes);
      CommitsRemove(w, front, writes);
      assert order == front + [last] && last !in front;
      var v := Committed(w, front, writes);
      assert CommitOf(v, last, writes) == CommitOf(w, last, writes);
      assert Committed(w, order, writes).handled == v.handled + [CommitOf(w, last, writes)];
    }
  }

  lemma LosesIn(handled: seq<Commit>, k: Key, user: string)
    ensures LosesMentions(handled, k, user) <==>
            exists c :: c in handled && user !in c.wrote && Mentions(BatchFor(c, k), user) != []
  {
    if c :| c in handled && user !in c.wrote && Mentions(BatchFor(c, k), user) != [] {
      var i :| 0 <= i < |handled| && handled[i] == c;
    }
  }

  /** A scan loses a user's mentions for a key exactly if it commits a batch that mentions the user without writing them. */
  lemma ScanLoses(w: World, step: Step, k: Key, user: string)
    requires step.Scan? && Kinds(w.tasks) && Enabled(w, step) && forall j :: j in step.order ==> j in step.writes
    ensures LosesMentions(After(w, step).handled, k, user) <==>
            || LosesMentions(w.handled, k, user)
            || (k in step.order && user in Mentioned(Waiting(w.tasks, k)) && user !in step.writes[k])
  {
    var order, writes := step.order, step.writes;
    CommitsOfScan(w, order, writes);
    LosesIn(w.handled, k, user);
    LosesIn(After(w, step).handled, k, user);
    MentionedHaveMentions(Waiting(w.tasks, k), user);
    if k in order {
      var c := CommitOf(w, k, writes);
      assert c in After(w, step).handled;
      assert BatchFor(c, k) == Waiting(w.tasks, k) && c.wrote == writes[k];
    }
  }

  /**
    In every run: mentions are lost only if some call for the key meets a
    mentioned user who cannot be written, and the mentions of a user who cannot
    be written are lost.
   */
  lemma {:induction false} LossIsOutside(steps: seq<Step>, outs: seq<Key -> Outside>, k: Key, user: string)
    requires IsAnsweredRun(steps, outs)
    ensures LosesMentions(RunOf(steps).value.handled, k, user) ==> SomeCallFails(steps, outs, k)
    ensures CannotBeWritten(steps, outs, k, user) ==> LosesMentions(RunOf(steps).value.handled, k, user)
  {
    if steps != [] {
      var n := |steps| - 1;
      LossIsOutside(steps[..n], outs[..n], k, user);
      var w := RunOf(steps[..n]).value;
      if steps[n].Scan? {
        ScanLoses(w, steps[n], k, user);
        if k in steps[n].order {
          ScanWrites(w, steps[n], outs[n], k, user);
        }
      }
    }
  }

  lemma ScanWrites(w: World, step: Step, outside: Key -> Outside, k: Key, user: string)
    requires step.Scan? && Enabled(w, step) && IsAnswered(w, step, outside) && k in step.order
    ensures user in Mentioned(Waiting(w.tasks, k)) && user !in step.writes[k] ==>
              !(Mentioned(Waiting(w.tasks, k)) !! outside(k).unwritable)
    ensures user in Mentioned(Waiting(w.tasks, k)) && user in outside(k).unwritable ==> user !in step.writes[k]
  {
    assert k in w.tasks;
  }

  // ---- A run that loses a mention

  const MENTION := Message("m", false, ["u"], true, false)
  const CHANNEL := Key(None, "c", true)
  const ARRIVAL := Pop(Data("c", None, ProcessMessage([MENTION])), 0)
  const LATE := 60_000
  const LOSING := [Receive(ARRIVAL, 5), Scan(LATE, map[CHANNEL := LATE], [CHANNEL], map[CHANNEL := {}])]
  const CLOSED: Key -> Outside := _ => Outside({"u"}, true, true)

  lemma OneArrives()
    ensures RunOf([LOSING[0]]) ==
            Some(World(map[CHANNEL := DelayedTask(ProcessMessage([MENTION]), false, 0, 0)], [], [ARRIVAL]))
  {
    assert [LOSING[0]][..0] == [];
    assert RunOf([]) == Some(IDLE);
    assert IDLE.popped + [ARRIVAL] == [ARRIVAL];
  }

  lemma OneIsMentioned()
    ensures Mentioned([MENTION]) == {"u"}
  {
    assert [MENTION][..0] == [];
    assert MENTION.recipients[0] == "u";
  }

  lemma LosingRuns()
    ensures LOSING[..1] == [LOSING[0]] && RunOf(LOSING).Some?
    ensures IsAnswered(RunOf([LOSING[0]]).value, LOSING[1], CLOSED)
  {
    OneArrives();
    OneIsMentioned();
    assert LOSING[..|LOSING| - 1] == [LOSING[0]];
    var w := RunOf([LOSING[0]]).value;
    assert w.tasks[CHANNEL].ShouldRun(LATE);
    assert LOSING[1].order[0] == CHANNEL;
    assert Enabled(w, LOSING[1]);
  }

  /** A user whose unread entry cannot be written when the batch is committed never gets the mention. */
  lemma MentionIsLost()
    ensures AllSingle(LOSING) && IsAnsweredRun(LOSING, [CLOSED, CLOSED])
    ensures LosesMentions(RunOf(LOSING).value.handled, CHANNEL, "u")
  {
    LosingRuns();
    OneArrives();
    OneIsMentioned();
    var outs := [CLOSED, CLOSED];
    assert LOSING[..|LOSING| - 1] == [LOSING[0]] && outs[..1] == [CLOSED];
    assert [LOSING[0]][..0] == [] && [CLOSED][..0] == [];
    assert IsAnsweredRun([], []);
    assert IsAnsweredRun([LOSING[0]], [CLOSED]);
    assert IsAnsweredRun(LOSING, outs);
    assert LOSING[1].order[0] == CHANNEL;
    assert Waiting(RunOf([LOSING[0]]).value.tasks, CHANNEL) == [MENTION];
    assert CannotBeWritten(LOSING, outs, CHANNEL, "u");
    LossIsOutside(LOSING, outs, CHANNEL, "u");
  }

  // ---- The worker

  lemma KindsAlways(steps: seq<Step>)
    ensures RunOf(steps).Some? ==> Kinds(RunOf(steps).value.tasks)
  {
    AccountsAlways(steps);
  }

  lemma RunContinues(steps: seq<Step>, step: Step)
    requires RunOf(steps).Some? && Kinds(RunOf(steps).value.tasks) && Enabled(RunOf(steps).value, step)
    ensures RunOf(steps + [step]) == Some(After(RunOf(steps).value, step))
  {
    assert (steps + [step])[..|steps|] == steps;
  }

  /** Commits read only the writes of their own keys. */
  lemma {:induction false} SameCommits(w: World, order: seq<Key>, writes: Writes, writes': Writes)
    requires forall k :: k in order ==> Lookup(writes, k) == Lookup(writes', k)
    ensures Committed(w, order, writes) == Committed(w, order, writes')
  {
    if order != [] {
      SameCommits(w, order[..|order| - 1], writes, writes');
      assert order[|order| - 1] in order;
    }
  }

  lemma TakeContinues(before: seq<Step>, queue: seq<Pop>, i: nat, limit: nat, w: World)
    requires i < |queue| && RunOf(before + Receipts(queue[..i], limit)) == Some(w)
    ensures Kinds(w.tasks)
    ensures RunOf(before + Receipts(queue[..i + 1], limit)) == Some(After(w, Receive(queue[i], limit)))
  {
    var steps := before + Receipts(queue[..i], limit);
    KindsAlways(steps);
    RunContinues(steps, Receive(queue[i], limit));
    assert before + Receipts(queue[..i + 1], limit) == steps + [Receive(queue[i], limit)];
  }

  /** One more key committed, with its own writes. */
  lemma CommittedOneMore(w: World, keys: seq<Key>, n: nat, writes: Writes, wrote: set<string>)
    requires n < |keys| && NoDuplicates(keys) && keys[n] !in writes
    ensures Committed(w, keys[..n + 1], writes[keys[n] := wrote]) ==
            CommittedOne(Committed(w, keys[..n], writes), keys[n], map[keys[n] := wrote])
  {
    assert keys[..n + 1][..n] == keys[..n];
    assert keys[n] !in keys[..n];
    SameCommits(w, keys[..n], writes, writes[keys[n] := wrote]);
  }

  /** The first `n` keys are committed, with writes as the outside allows them. */
  ghost predicate IsProgress(start: World, keys: seq<Key>, n: nat, outside: Key -> Outside, writes: Writes, w: World) {
    && n <= |keys|
    && w == Committed(start, keys[..n], writes)
    && (forall k :: k in writes <==> k in keys[..n])
    && WritesHold(start.tasks, outside, writes)
  }

  lemma KeyUntouched(start: World, keys: seq<Key>, n: nat, writes: Writes)
    requires n < |keys| && NoDuplicates(keys)
    ensures Lookup(Committed(start, keys[..n], writes).tasks, keys[n]) == Lookup(start.tasks, keys[n])
  {
    CommitsRemove(start, keys[..n], writes);
    assert keys[n] !in keys[..n];
  }

  lemma ProgressOneMore(start: World, keys: seq<Key>, n: nat, outside: Key -> Outside, writes: Writes, w: World, wrote: set<string>)
    requires n < |keys| && NoDuplicates(keys) && IsProgress(start, keys, n, outside, writes, w)
    requires keys[n] in start.tasks ==> WritesFor(start.tasks[keys[n]].event, outside(keys[n]), wrote)
    ensures IsProgress(start, keys, n + 1, outside, writes[keys[n] := wrote], CommittedOne(w, keys[n], map[keys[n] := wrote]))
  {
    assert keys[..n + 1] == keys[..n] + [keys[n]];
    assert keys[n] !in keys[..n];
    CommittedOneMore(start, keys, n, writes, wrote);
  }

  class Worker {
    var tasks: Tasks
    /** Calls of the handler, and events taken from the queue, so far. */
    ghost var handled: seq<Commit>
    ghost var popped: seq<Pop>

    ghost function Current(): World
      reads this
    {
      World(tasks, handled, popped)
    }

    constructor ()
      ensures Current() == IDLE
    {
      tasks := map[];
      handled, popped := [], [];
    }

    method FindDue(readings: map<Key, nat>) returns (keys: seq<Key>)
      requires forall k :: k in tasks ==> k in readings
      ensures forall k :: k in keys <==> IsDue(tasks, readings, k)
      ensures NoDuplicates(keys)
    {
      keys := [];
      var rest := tasks.Keys;
      while rest != {}
        invariant rest <= tasks.Keys
        invariant forall k :: k in keys <==> k !in rest && IsDue(tasks, readings, k)
        invariant NoDuplicates(keys)
        decreases rest
      {
        var key :| key in rest;
        rest := rest - {key};
        if tasks[key].ShouldRun(readings[key]) {
          keys := keys + [key];
        }
      }
    }

    /** Hand a key's task, if there is one, to the handler; a failure is logged and dropped. */
    method CommitTask(key: Key, outside: Outside) returns (panicked: bool, ghost wrote: set<string>)
      modifies this
      ensures Current() == CommittedOne(old(Current()), key, map[key := wrote])
      ensures panicked <==> PanicsAt(old(tasks), key, outside)
      ensures key in old(tasks) ==> WritesFor(old(tasks)[key].event, outside, wrote)
    {
      panicked, wrote := false, {};
      if key in tasks {
        var event := tasks[key].event;
        tasks := tasks - {key};
        var outcome, mentions, pushes, massMentions := HandleAckEvent(key, event, outside);
        wrote := mentions.Keys;
        handled := handled + [Commit(key, event, |popped|, wrote)];
        panicked := outcome == Panicked;
      }
    }

    /** One turn of the commit loop. */
    method CommitNext(keys: seq<Key>, n: nat, outside: Key -> Outside, ghost start: World, ghost writes: Writes)
      returns (panicked: bool, ghost writes': Writes)
      requires n < |keys| && NoDuplicates(keys) && IsProgress(start, keys, n, outside, writes, Current())
      modifies this
      ensures IsProgress(start, keys, n + 1, outside, writes', Current())
      ensures panicked <==> PanicsAt(start.tasks, keys[n], outside(keys[n]))
    {
      KeyUntouched(start, keys, n, writes);
      ghost var w, wrote := Current(), {};
      panicked, wrote := CommitTask(keys[n], outside(keys[n]));
      writes' := writes[keys[n] := wrote];
      ProgressOneMore(start, keys, n, outside, writes, w, wrote);
    }

    /** Commit due tasks; a panic ends the worker in the middle of its keys. */
    method CommitDue(keys: seq<Key>, outside: Key -> Outside) returns (alive: bool, done: nat, ghost writes: Writes)
      requires NoDuplicates(keys)
      modifies this
      ensures done <= |keys| && IsProgress(old(Current()), keys, done, outside, writes, Current())
      ensures alive ==> done == |keys|
      ensures alive <==> forall i :: 0 <= i < |keys| ==> !PanicsAt(old(tasks), keys[i], outside(keys[i]))
      ensures !alive ==> 0 < done && PanicsAt(old(tasks), keys[done - 1], outside(keys[done - 1]))
    {
      alive, done, writes := true, 0, map[];
      while done < |keys|
        invariant done <= |keys| && alive
        invariant IsProgress(old(Current()), keys, done, outside, writes, Current())
        invariant forall i :: 0 <= i < done ==> !PanicsAt(old(tasks), keys[i], outside(keys[i]))
        decreases |keys| - done
      {
        var panicked;
        panicked, writes := CommitNext(keys, done, outside, old(Current()), writes);
        done := done + 1;
        if panicked {
          alive := false;
          return;
        }
      }
    }

    /** Take one event from the queue. */
    method Take(data: Data, now: nat, limit: nat)
      requires Kinds(tasks)
      modifies this
      ensures Current() == After(old(Current()), Receive(Pop(data, now), limit))
    {
      var key := KeyOf(data);
      popped := popped + [Pop(data, now)];
      if key in tasks {
        var task := tasks[key];
        match data.event {
          case ProcessMessage(added) =>
            if added != [] {
              var message := added[|added| - 1];
              task := task.(event := ProcessMessage(task.event.messages + [message]));
              if message.mass {
                task := task.RunImmediately();
              } else if |task.event.messages| % U16 < limit {
                task := task.Delay(now);
              }
            }
          case AckMessage(_) =>
            task := task.(event := data.event).Delay(now);
        }
        tasks := tasks[key := task];
      } else {
        tasks := tasks[key := DelayedTask(data.event, false, now, now)];
      }
    }

    method TakeNext(queue: seq<Pop>, i: nat, limit: nat, ghost before: seq<Step>)
      requires i < |queue| && RunOf(before + Receipts(queue[..i], limit)) == Some(Current())
      modifies this
      ensures RunOf(before + Receipts(queue[..i + 1], limit)) == Some(Current())
    {
      TakeContinues(before, queue, i, limit, Current());
      Take(queue[i].data, queue[i].time, limit);
    }

    /** Drain the queue. */
    method Drain(queue: seq<Pop>, limit: nat, ghost before: seq<Step>)
      requires RunOf(before) == Some(Current())
      modifies this
      ensures RunOf(before + Receipts(queue, limit)) == Some(Current())
    {
      assert before + Receipts(queue[..0], limit) == before;
      for i := 0 to |queue|
        invariant RunOf(before + Receipts(queue[..i], limit)) == Some(Current())
      {
        TakeNext(queue, i, limit, before);
      }
      assert queue[..|queue|] == queue;
    }

    /** One round: find the due tasks, commit them, then drain the queue. */
    method Round(start: nat, readings: map<Key, nat>, outside: Key -> Outside, queue: seq<Pop>, limit: nat,
                 ghost before: seq<Step>)
      returns (alive: bool, ghost order: seq<Key>, ghost writes: Writes)
      requires RunOf(before) == Some(Current())
      requires forall k :: k in tasks ==> k in readings && readings[k] >= start
      modifies this
      ensures alive ==> RunOf(before + [Scan(start, readings, order, writes)] + Receipts(queue, limit)) == Some(Current())
      ensures alive <==> forall k :: IsDue(old(tasks), readings, k) ==> !PanicsAt(old(tasks), k, outside(k))
      ensures alive ==> IsAnswered(old(Current()), Scan(start, readings, order, writes), outside)
    {
      KindsAlways(before);
      var keys := FindDue(readings);
      order := keys;
      var done;
      alive, done, writes := CommitDue(keys, outside);
      if alive {
        assert keys[..|keys|] == keys;
        RunContinues(before, Scan(start, readings, keys, writes));
        Drain(queue, limit, before + [Scan(start, readings, keys, writes)]);
      } else {
        assert keys[done - 1] in keys;
      }
    }
  }

  /** Whose mentions a call of the handler writes: everybody's, or nobody's who cannot be written if somebody cannot. */
  ghost predicate WritesFor(event: AckEvent, outside: Outside, wrote: set<string>) {
    match event
    case AckMessage(_) => wrote == {}
    case ProcessMessage(messages) =>
      && wrote <= Mentioned(messages) - outside.unwritable
      && (Mentioned(messages) !! outside.unwritable ==> wrote == Mentioned(messages))
  }

  ghost predicate WritesHold(tasks: Tasks, outside: Key -> Outside, writes: Writes) {
    forall k :: k in writes && k in tasks ==> WritesFor(tasks[k].event, outside(k), writes[k])
  }

  function Receipts(queue: seq<Pop>, limit: nat): seq<Step> {
    seq(|queue|, i requires 0 <= i < |queue| => Receive(queue[i], limit))
  }
}
