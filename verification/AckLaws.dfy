/** What the ack worker's steps compute, message by message and clock reading by clock reading. */
module AckLaws {
  import opened AckWorker

  // ---- Tasks

  /** Events share a task exactly if user, channel and kind are the same. */
  lemma KeyLaw(a: Data, b: Data)
    ensures KeyOf(a) == KeyOf(b) <==>
            a.user == b.user && a.channel == b.channel && (a.event.ProcessMessage? <==> b.event.ProcessMessage?)
    ensures KeyOf(a).isMessage <==> a.event.ProcessMessage?
    ensures KeyOf(a).user == a.user && KeyOf(a).channel == a.channel
  {}

  /** A task is due exactly if it is flagged, its first event is 31 seconds old, or its last 6 seconds. */
  lemma DueLaw(task: DelayedTask, now: nat)
    ensures task.ShouldRun(now) <==> task.runNow || now >= task.firstSeen + 31_000 || now >= task.lastUpdated + 6_000
  {}

  /** The first event of a key becomes its task, unflagged, seen and updated now. */
  lemma FirstEventLaw(tasks: Tasks, data: Data, now: nat, limit: nat)
    requires KeyOf(data) !in tasks
    ensures var tasks' := Queued(tasks, data, now, limit);
            && tasks'.Keys == tasks.Keys + {KeyOf(data)}
            && (forall k :: k in tasks ==> tasks'[k] == tasks[k])
            && var task := tasks'[KeyOf(data)];
            && task.event == data.event && !task.runNow && task.firstSeen == now && task.lastUpdated == now
  {}

  /** A later acknowledgement replaces the waiting one and puts it off; only its own task changes. */
  lemma LaterAckLaw(tasks: Tasks, data: Data, now: nat, limit: nat)
    requires KeyOf(data) in tasks && data.event.AckMessage? && tasks[KeyOf(data)].event.AckMessage?
    ensures var tasks', k := Queued(tasks, data, now, limit), KeyOf(data);
            && tasks'.Keys == tasks.Keys && (forall j :: j in tasks && j != k ==> tasks'[j] == tasks[j])
            && tasks'[k].event == data.event && tasks'[k].lastUpdated == now
            && tasks'[k].firstSeen == tasks[k].firstSeen && tasks'[k].runNow == tasks[k].runNow
  {}

  /**
    A later message joins the batch.  A mass mention flags the task; another
    message puts it off while the batch, counted in sixteen bits, is below the
    limit.  Only its own task changes.
   */
  lemma LaterMessageLaw(tasks: Tasks, data: Data, message: Message, now: nat, limit: nat)
    requires KeyOf(data) in tasks && data.event == ProcessMessage([message]) && tasks[KeyOf(data)].event.ProcessMessage?
    ensures var tasks', k := Queued(tasks, data, now, limit), KeyOf(data);
            var count := |tasks[k].event.messages| + 1;
            && tasks'.Keys == tasks.Keys && (forall j :: j in tasks && j != k ==> tasks'[j] == tasks[j])
            && tasks'[k].event == ProcessMessage(tasks[k].event.messages + [message])
            && tasks'[k].firstSeen == tasks[k].firstSeen
            && (tasks'[k].runNow <==> tasks[k].runNow || message.mass)
            && tasks'[k].lastUpdated == if !message.mass && count % 65536 < limit then now else tasks[k].lastUpdated
  {}

  /** A flagged task is committed by the next scan, whatever the clock says. */
  lemma MassMentionRunsNext(tasks: Tasks, data: Data, message: Message, now: nat, limit: nat, readings: map<Key, nat>)
    requires KeyOf(data) in tasks && data.event == ProcessMessage([message]) && tasks[KeyOf(data)].event.ProcessMessage?
    requires message.mass && KeyOf(data) in readings
    ensures IsDue(Queued(tasks, data, now, limit), readings, KeyOf(data))
  {}

  // ---- Mentions and pushes

  /** The message goes out: it is not silenced, has a push, and has a recipient or is a mass mention. */
  ghost predicate GoesOut(m: Message) {
    !m.silenced && m.hasPush && (m.mass || exists u :: u in m.recipients)
  }

  datatype Criterion = GoingOut | Mass | For(user: string)

  ghost predicate Meets(p: Criterion, m: Message) {
    match p
    case GoingOut => GoesOut(m)
    case Mass => m.mass
    case For(user) => user in m.recipients
  }

  ghost predicate Increasing(positions: seq<nat>) {
    forall i, j :: 0 <= i < j < |positions| ==> positions[i] < positions[j]
  }

  /** `chosen` are the elements of `all` at those positions. */
  ghost predicate Picks(chosen: seq<Message>, all: seq<Message>, positions: seq<nat>) {
    |positions| == |chosen| && forall i :: 0 <= i < |positions| ==> positions[i] < |all| && chosen[i] == all[positions[i]]
  }

  /** The positions are those where the criterion is met. */
  ghost predicate MetAt(all: seq<Message>, positions: seq<nat>, p: Criterion) {
    && (forall k :: k in positions ==> k < |all| && Meets(p, all[k]))
    && (forall k :: 0 <= k < |all| && Meets(p, all[k]) ==> k in positions)
  }

  /** `chosen` is the subsequence of `all` that meets the criterion. */
  ghost predicate IsSelection(chosen: seq<Message>, all: seq<Message>, positions: seq<nat>, p: Criterion) {
    Increasing(positions) && Picks(chosen, all, positions) && MetAt(all, positions, p)
  }

  lemma SkipOne(chosen: seq<Message>, all: seq<Message>, positions: seq<nat>, p: Criterion, last: Message)
    requires IsSelection(chosen, all, positions, p) && !Meets(p, last)
    ensures IsSelection(chosen + [], all + [last], positions, p)
  {
    assert chosen + [] == chosen;
    assert forall k :: 0 <= k < |all| ==> (all + [last])[k] == all[k];
  }

  lemma TakeOne(chosen: seq<Message>, all: seq<Message>, positions: seq<nat>, p: Criterion, last: Message)
    requires IsSelection(chosen, all, positions, p) && Meets(p, last)
    ensures IsSelection(chosen + [last], all + [last], positions + [|all|], p)
  {
    var all', positions' := all + [last], positions + [|all|];
    assert forall k :: 0 <= k < |all| ==> all'[k] == all[k];
    assert positions'[|positions|] == |all|;
    assert forall k :: k in positions' <==> k in positions || k == |all|;
    assert forall i :: 0 <= i < |positions| ==> positions[i] in positions;
  }

  lemma OneMore(chosen: seq<Message>, all: seq<Message>, positions: seq<nat>, p: Criterion, last: Message)
    returns (positions': seq<nat>)
    requires IsSelection(chosen, all, positions, p)
    ensures IsSelection(chosen + (if Meets(p, last) then [last] else []), all + [last], positions', p)
  {
    if Meets(p, last) {
      positions' := positions + [|all|];
      TakeOne(chosen, all, positions, p, last);
    } else {
      positions' := positions;
      SkipOne(chosen, all, positions, p, last);
    }
  }

  /** The pushes are the messages of the batch that go out, in order. */
  lemma {:induction false} PushesAreSelected(messages: seq<Message>) returns (positions: seq<nat>)
    ensures IsSelection(Pushed(messages), messages, positions, GoingOut)
  {
    positions := [];
    if messages != [] {
      var front, last := messages[..|messages| - 1], messages[|messages| - 1];
      positions := PushesAreSelected(front);
      assert last.recipients != [] ==> last.recipients[0] in last.recipients;
      positions := OneMore(Pushed(front), front, positions, GoingOut, last);
      assert messages == front + [last];
      assert Pushed(messages) == Pushed(front) + (if Meets(GoingOut, last) then [last] else []);
    }
  }

  /** The mass mentions are those of the pushes that mention a role or a whole server, in order. */
  lemma {:induction false} MassIsSelected(pushes: seq<Message>) returns (positions: seq<nat>)
    ensures IsSelection(MassOf(pushes), pushes, positions, Mass)
  {
    positions := [];
    if pushes != [] {
      var front, last := pushes[..|pushes| - 1], pushes[|pushes| - 1];
      positions := MassIsSelected(front);
      positions := OneMore(MassOf(front), front, positions, Mass, last);
      assert pushes == front + [last];
      assert MassOf(pushes) == MassOf(front) + (if Meets(Mass, last) then [last] else []);
    }
  }

  /** A user is mentioned by a batch exactly if they are a recipient of one of its messages. */
  lemma {:induction false} MentionedLaw(messages: seq<Message>, user: string)
    ensures user in Mentioned(messages) <==> exists i :: 0 <= i < |messages| && user in messages[i].recipients
  {
    if messages != [] {
      var front, last := messages[..|messages| - 1], messages[|messages| - 1];
      MentionedLaw(front, user);
      assert messages[|front|] == last;
      if i :| 0 <= i < |front| && user in front[i].recipients {
        assert messages[i] == front[i];
      }
      if i :| 0 <= i < |messages| && user in messages[i].recipients {
        assert i == |front| || messages[i] == front[i];
      }
    }
  }

  /** The ids recorded for a user are those of the messages they are a recipient of, in order. */
  lemma {:induction false} MentionsLaw(messages: seq<Message>, user: string) returns (chosen: seq<Message>, positions: seq<nat>)
    ensures IsSelection(chosen, messages, positions, For(user))
    ensures Mentions(messages, user) == IdsOf(chosen)
  {
    chosen, positions := [], [];
    if messages != [] {
      var front, last := messages[..|messages| - 1], messages[|messages| - 1];
      chosen, positions := MentionsLaw(front, user);
      positions := OneMore(chosen, front, positions, For(user), last);
      chosen := chosen + (if user in last.recipients then [last] else []);
      assert messages == front + [last];
    }
  }

  function IdsOf(messages: seq<Message>): seq<string> {
    seq(|messages|, i requires 0 <= i < |messages| => messages[i].id)
  }

  /** When the handler panics, in terms of the event and what it meets outside. */
  lemma PanicLaw(key: Key, event: AckEvent, outside: Outside)
    ensures event.AckMessage? ==> (Panics(key, event, outside) <==> key.user.None?)
    ensures event == ProcessMessage([]) ==> Panics(key, event, outside)
    ensures event.ProcessMessage? && event.messages != [] ==>
              (Panics(key, event, outside) <==>
               && !outside.serverChannel
               && (exists i :: 0 <= i < |event.messages| && event.messages[i].mass && !event.messages[i].silenced && event.messages[i].hasPush)
               && (forall i, u :: 0 <= i < |event.messages| && u in event.messages[i].recipients ==> u !in outside.unwritable))
  {
    if event.ProcessMessage? && event.messages != [] {
      MassGoesOut(event.messages);
      forall u
        ensures u in Mentioned(event.messages) <==> exists i :: 0 <= i < |event.messages| && u in event.messages[i].recipients
      {
        MentionedLaw(event.messages, u);
      }
    }
  }

  lemma MassGoesOut(messages: seq<Message>)
    ensures MassOf(Pushed(messages)) != [] <==>
            exists i :: 0 <= i < |messages| && messages[i].mass && !messages[i].silenced && messages[i].hasPush
  {
    var at := PushesAreSelected(messages);
    var mass := MassIsSelected(Pushed(messages));
    if i :| 0 <= i < |messages| && messages[i].mass && !messages[i].silenced && messages[i].hasPush {
      assert GoesOut(messages[i]);
      assert i in at;
      var k :| 0 <= k < |at| && at[k] == i;
      assert Pushed(messages)[k].mass;
      assert k in mass;
    }
    if MassOf(Pushed(messages)) != [] {
      var m := MassOf(Pushed(messages))[0];
      assert m == Pushed(messages)[mass[0]];
      assert m == messages[at[mass[0]]];
    }
  }
}
