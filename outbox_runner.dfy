/**
 * The outbox relays (src/outbox-runner.ts): a push runner that follows the
 * outbox collection's change stream and a poll runner that scans for
 * unsent records.
 *
 * The outbox collection is a map from record id to record, the resume-token
 * store an optional token. Every external effect a runner has (publishing a
 * record to the broker, marking it sent, persisting a resume token) is
 * appended to an effect log; the store and the persisted token are always
 * the replay of that log. Whether a step throws is an oracle `fault`, and
 * the clock is read once per record, as a parameter `now` of one step or
 * a function `clock` from the change or record to its reading.
 */
module Outbox {
  import opened Common
  import opened TaskQueues

  type Id = nat
  /** A change-stream resume token (a change's `_id`). */
  type Token = nat

  /** An outbox document; its `_id` is the key it is stored under. */
  datatype OutboxRecord = OutboxRecord(event: string, payload: string, sent: bool, createdAt: int, sentAt: Option<int>)

  /** An insert event of the change stream: its resume token, the inserted id and the full document. */
  datatype Change = Change(token: Token, id: Id, doc: OutboxRecord)

  /** One external effect of a runner. */
  datatype Effect =
    | Published(id: Id, doc: OutboxRecord)
    | Marked(id: Id, at: int)
    | Checkpointed(token: Token, id: Id)

  /**
   * Which step of a relay task throws: publishing, marking the record sent,
   * or persisting the resume token (a step the poll runner does not have).
   */
  datatype Fault = NoFault | PublishFault | MarkFault | CheckpointFault

  type Store = map<Id, OutboxRecord>

  /** `updateOne({_id}, {$set: {sent: true, sentAt}})`: a missing id matches nothing. */
  function MarkSent(store: Store, id: Id, at: int): (r: Store)
    ensures r.Keys == store.Keys
    ensures id in store ==> r[id].sent && r[id].sentAt == Some(at)
    ensures id in store ==> r[id].event == store[id].event && r[id].payload == store[id].payload
                             && r[id].createdAt == store[id].createdAt
    ensures forall other :: other in store && other != id ==> r[other] == store[other]
  {
    if id in store then store[id := store[id].(sent := true, sentAt := Some(at))] else store
  }

  function Apply(store: Store, e: Effect): Store
  {
    if e.Marked? then MarkSent(store, e.id, e.at) else store
  }

  /** The store after the effects of `log`, oldest first. */
  function Replay(store: Store, log: seq<Effect>): (r: Store)
    ensures r.Keys == store.Keys
    decreases |log|
  {
    if log == [] then store else Apply(Replay(store, log[..|log| - 1]), log[|log| - 1])
  }

  /** The resume token persisted after `log`: the token of the last checkpoint, if any. */
  function PersistedToken(log: seq<Effect>, initial: Option<Token>): Option<Token>
    decreases |log|
  {
    if log == [] then initial
    else if log[|log| - 1].Checkpointed? then Some(log[|log| - 1].token)
    else PersistedToken(log[..|log| - 1], initial)
  }

  /** Appending one effect replays as applying it last. */
  lemma LogSnoc(store: Store, initial: Option<Token>, log: seq<Effect>, e: Effect)
    ensures Replay(store, log + [e]) == Apply(Replay(store, log), e)
    ensures PersistedToken(log + [e], initial) == if e.Checkpointed? then Some(e.token) else PersistedToken(log, initial)
  {
    assert (log + [e])[..|log|] == log;
  }

  /** Replaying two logs one after the other replays their concatenation. */
  lemma {:induction false} ReplayAppend(store: Store, a: seq<Effect>, b: seq<Effect>)
    ensures Replay(store, a + b) == Replay(Replay(store, a), b)
    decreases |b|
  {
    if b != [] {
      var b' := b[..|b| - 1];
      assert (a + b)[..|a + b| - 1] == a + b';
      ReplayAppend(store, a, b');
    } else {
      assert a + b == a;
    }
  }

  /** Every mark comes right after the publish of the same record. */
  predicate MarksFollowPublishes(log: seq<Effect>)
  {
    forall k :: 0 <= k < |log| && log[k].Marked? ==> 0 < k && log[k - 1].Published? && log[k - 1].id == log[k].id
  }

  /** Every checkpoint comes right after the mark of its change's record. */
  predicate CheckpointsFollowMarks(log: seq<Effect>)
  {
    forall k :: 0 <= k < |log| && log[k].Checkpointed? ==> 0 < k && log[k - 1].Marked? && log[k - 1].id == log[k].id
  }

  /** Appending an effect that follows its predecessor keeps both orderings. */
  lemma OrderSnoc(log: seq<Effect>, e: Effect)
    requires MarksFollowPublishes(log) && CheckpointsFollowMarks(log)
    requires e.Marked? ==> log != [] && log[|log| - 1].Published? && log[|log| - 1].id == e.id
    requires e.Checkpointed? ==> log != [] && log[|log| - 1].Marked? && log[|log| - 1].id == e.id
    ensures MarksFollowPublishes(log + [e]) && CheckpointsFollowMarks(log + [e])
  {
    var l := log + [e];
    forall k | 0 <= k < |l| && l[k].Marked?
      ensures 0 < k && l[k - 1].Published? && l[k - 1].id == l[k].id
    {
      if k < |log| {
        assert l[k] == log[k] && l[k - 1] == log[k - 1];
      }
    }
    forall k | 0 <= k < |l| && l[k].Checkpointed?
      ensures 0 < k && l[k - 1].Marked? && l[k - 1].id == l[k].id
    {
      if k < |log| {
        assert l[k] == log[k] && l[k - 1] == log[k - 1];
      }
    }
  }

  /**
   * A record is only ever marked sent after it has been published: if
   * replaying a log turns an unsent record into a sent one, the log
   * publishes that record.
   */
  lemma {:induction false} SentWasPublished(store: Store, log: seq<Effect>, id: Id)
    requires MarksFollowPublishes(log)
    requires id in store && !store[id].sent && Replay(store, log)[id].sent
    ensures exists k :: 0 <= k < |log| && log[k].Published? && log[k].id == id
    decreases |log|
  {
    var prefix := log[..|log| - 1];
    var e := log[|log| - 1];
    if e.Marked? && e.id == id {
      var k := |log| - 2;
      assert log[k].Published? && log[k].id == id;
    } else {
      assert MarksFollowPublishes(prefix) by {
        forall k | 0 <= k < |prefix| && prefix[k].Marked?
          ensures 0 < k && prefix[k - 1].Published? && prefix[k - 1].id == prefix[k].id
        {
          assert prefix[k] == log[k] && prefix[k - 1] == log[k - 1];
        }
      }
      SentWasPublished(store, prefix, id);
      var k :| 0 <= k < |prefix| && prefix[k].Published? && prefix[k].id == id;
      assert log[k] == prefix[k];
    }
  }

  /** The persisted token, unless still the initial one, is the token of some checkpoint in the log. */
  lemma {:induction false} PersistedTokenWasCheckpointed(log: seq<Effect>, initial: Option<Token>)
    ensures PersistedToken(log, initial) == initial
            || exists k :: 0 <= k < |log| && log[k].Checkpointed? && PersistedToken(log, initial) == Some(log[k].token)
    decreases |log|
  {
    if log != [] && !log[|log| - 1].Checkpointed? {
      var prefix := log[..|log| - 1];
      PersistedTokenWasCheckpointed(prefix, initial);
      if PersistedToken(log, initial) != initial {
        var k :| 0 <= k < |prefix| && prefix[k].Checkpointed? && PersistedToken(prefix, initial) == Some(prefix[k].token);
        assert log[k] == prefix[k];
      }
    }
  }

  /**
   * The persisted token advances only to changes whose record was
   * published and then marked sent, in that order, right before.
   */
  lemma PersistedTokenWasConfirmed(log: seq<Effect>, initial: Option<Token>)
    requires MarksFollowPublishes(log) && CheckpointsFollowMarks(log)
    ensures PersistedToken(log, initial) == initial
            || exists k :: 2 <= k < |log| && log[k].Checkpointed? && PersistedToken(log, initial) == Some(log[k].token)
                           && log[k - 1].Marked? && log[k - 1].id == log[k].id
                           && log[k - 2].Published? && log[k - 2].id == log[k].id
  {
    PersistedTokenWasCheckpointed(log, initial);
    if PersistedToken(log, initial) != initial {
      var k :| 0 <= k < |log| && log[k].Checkpointed? && PersistedToken(log, initial) == Some(log[k].token);
      assert log[k - 1].Marked? && log[k - 2].Published?;
    }
  }

  // ---------------------------------------------------------------------
  // One relay task of the push runner
  // ---------------------------------------------------------------------

  /**
   * The effects of the task built for change `c`: publish the full
   * document, mark the record sent, persist the change's token; the first
   * step that throws ends the task.
   */
  function TaskEffects(c: Change, f: Fault, now: int): seq<Effect>
  {
    match f
    case PublishFault => []
    case MarkFault => [Published(c.id, c.doc)]
    case CheckpointFault => [Published(c.id, c.doc), Marked(c.id, now)]
    case NoFault => [Published(c.id, c.doc), Marked(c.id, now), Checkpointed(c.token, c.id)]
  }

  /**
   * Publishing a record and then marking it sent: the publish changes no
   * record, the mark marks exactly that record, neither moves the token,
   * and both keep the effects in order.
   */
  lemma PublishThenMark(store: Store, initial: Option<Token>, log: seq<Effect>, id: Id, doc: OutboxRecord, now: int)
    requires MarksFollowPublishes(log) && CheckpointsFollowMarks(log)
    ensures var l := log + [Published(id, doc)];
            && Replay(store, l) == Replay(store, log) && PersistedToken(l, initial) == PersistedToken(log, initial)
            && MarksFollowPublishes(l) && CheckpointsFollowMarks(l)
    ensures var l := log + [Published(id, doc), Marked(id, now)];
            && Replay(store, l) == MarkSent(Replay(store, log), id, now)
            && PersistedToken(l, initial) == PersistedToken(log, initial)
            && MarksFollowPublishes(l) && CheckpointsFollowMarks(l)
  {
    var l1 := log + [Published(id, doc)];
    LogSnoc(store, initial, log, Published(id, doc));
    OrderSnoc(log, Published(id, doc));
    LogSnoc(store, initial, l1, Marked(id, now));
    OrderSnoc(l1, Marked(id, now));
    assert l1 + [Marked(id, now)] == log + [Published(id, doc), Marked(id, now)];
  }

  /**
   * A relay task keeps the effects in order, marks its record only once
   * published, and moves the persisted token to its change only when all
   * three steps succeed; a task that throws leaves the token where it was.
   */
  lemma TaskEffectsReplay(store: Store, initial: Option<Token>, log: seq<Effect>, c: Change, f: Fault, now: int)
    requires MarksFollowPublishes(log) && CheckpointsFollowMarks(log)
    ensures var l := log + TaskEffects(c, f, now);
            && Replay(store, l) == (if f == NoFault || f == CheckpointFault then MarkSent(Replay(store, log), c.id, now)
                                    else Replay(store, log))
            && PersistedToken(l, initial) == (if f == NoFault then Some(c.token) else PersistedToken(log, initial))
            && MarksFollowPublishes(l) && CheckpointsFollowMarks(l)
  {
    PublishThenMark(store, initial, log, c.id, c.doc, now);
    if f == PublishFault {
      assert log + TaskEffects(c, f, now) == log;
    } else if f == NoFault {
      var l2 := log + [Published(c.id, c.doc), Marked(c.id, now)];
      LogSnoc(store, initial, l2, Checkpointed(c.token, c.id));
      OrderSnoc(l2, Checkpointed(c.token, c.id));
      assert l2 + [Checkpointed(c.token, c.id)] == log + TaskEffects(c, f, now);
    }
  }

  /** The effects of draining `ts` front first, up to and including the first task that throws. */
  function DrainEffects(ts: seq<Task<Change>>, fault: Change -> Fault, clock: Change -> int): seq<Effect>
  {
    if ts == [] then []
    else TaskEffects(ts[0].job, fault(ts[0].job), clock(ts[0].job))
         + (if fault(ts[0].job) == NoFault then DrainEffects(ts[1..], fault, clock) else [])
  }

  predicate AllSucceed(ts: seq<Task<Change>>, fault: Change -> Fault)
  {
    forall i :: 0 <= i < |ts| ==> fault(ts[i].job) == NoFault
  }

  /** The ids a log publishes, in order. */
  function PublishedIds(log: seq<Effect>): seq<Id>
  {
    if log == [] then [] else (if log[0].Published? then [log[0].id] else []) + PublishedIds(log[1..])
  }

  function ChangeIds(ts: seq<Task<Change>>): (r: seq<Id>)
    ensures |r| == |ts| && forall i :: 0 <= i < |ts| ==> r[i] == ts[i].job.id
  {
    if ts == [] then [] else [ts[0].job.id] + ChangeIds(ts[1..])
  }

  lemma {:induction false} PublishedIdsAppend(a: seq<Effect>, b: seq<Effect>)
    ensures PublishedIds(a + b) == PublishedIds(a) + PublishedIds(b)
  {
    if a == [] {
      assert a + b == b;
    } else {
      assert (a + b)[1..] == a[1..] + b;
      PublishedIdsAppend(a[1..], b);
      AppendAssoc(if a[0].Published? then [a[0].id] else [], PublishedIds(a[1..]), PublishedIds(b));
    }
  }

  /** A task publishes its own record once, unless publishing throws. */
  lemma TaskPublishesOnce(c: Change, f: Fault, now: int)
    ensures PublishedIds(TaskEffects(c, f, now)) == if f == PublishFault then [] else [c.id]
  {
    var e := TaskEffects(c, f, now);
    if f != PublishFault {
      assert PublishedIds(e) == [c.id] + PublishedIds(e[1..]);
      if f == NoFault {
        assert e[1..] == [Marked(c.id, now), Checkpointed(c.token, c.id)];
        assert e[1..][1..] == [Checkpointed(c.token, c.id)];
        assert PublishedIds(e[1..]) == PublishedIds(e[1..][1..]) == PublishedIds(e[1..][1..][1..]);
      } else if f == CheckpointFault {
        assert e[1..] == [Marked(c.id, now)];
        assert PublishedIds(e[1..]) == PublishedIds(e[1..][1..]);
      }
    }
  }

  /**
   * Records are published in the order their changes were queued, and a
   * task that throws stops the drain: the published ids are a prefix of
   * the queued ids, all of them when no task throws.
   */
  lemma {:induction false} DrainPublishesInOrder(ts: seq<Task<Change>>, fault: Change -> Fault, clock: Change -> int)
    ensures PublishedIds(DrainEffects(ts, fault, clock)) <= ChangeIds(ts)
    ensures AllSucceed(ts, fault) ==> PublishedIds(DrainEffects(ts, fault, clock)) == ChangeIds(ts)
  {
    if ts != [] {
      var c := ts[0].job;
      var rest := if fault(c) == NoFault then DrainEffects(ts[1..], fault, clock) else [];
      PublishedIdsAppend(TaskEffects(c, fault(c), clock(c)), rest);
      DrainPublishesInOrder(ts[1..], fault, clock);
      TaskPublishesOnce(c, fault(c), clock(c));
      assert ChangeIds(ts) == [c.id] + ChangeIds(ts[1..]);
      if AllSucceed(ts, fault) {
        assert forall i :: 0 <= i < |ts[1..]| ==> ts[1..][i] == ts[i + 1];
      }
    }
  }

  // ---------------------------------------------------------------------
  // The push runner
  // ---------------------------------------------------------------------

  /**
   * A change stream: the token it resumes after, if any, the position the
   * history had reached when it was opened, and the number of changes it
   * has delivered. A stream opened without a token sees only the changes
   * made after it opened.
   */
  datatype ChangeStream = ChangeStream(resumeAfter: Option<Token>, closed: bool, delivered: nat, start: nat)

  /**
   * The collection's insert history, in the order the database records it:
   * the change at position k has resume token k + 1.
   */
  predicate Numbered(history: seq<Change>)
  {
    forall k :: 0 <= k < |history| ==> history[k].token == k + 1
  }

  /** The position of the next change a stream delivers: right after its token, or where it opened. */
  function NextPosition(s: ChangeStream): nat
  {
    (if s.resumeAfter.Some? then s.resumeAfter.value else s.start) + s.delivered
  }

  /** The checkpoints of a log, in order. */
  function Checkpoints(log: seq<Effect>): seq<Effect>
  {
    if log == [] then [] else (if log[0].Checkpointed? then [log[0]] else []) + Checkpoints(log[1..])
  }

  /** The checkpoints of the changes `cs`, in order. */
  function CheckpointsOf(cs: seq<Change>): (r: seq<Effect>)
    ensures |r| == |cs| && forall i :: 0 <= i < |cs| ==> r[i] == Checkpointed(cs[i].token, cs[i].id)
  {
    if cs == [] then [] else CheckpointsOf(cs[..|cs| - 1]) + [Checkpointed(cs[|cs| - 1].token, cs[|cs| - 1].id)]
  }

  lemma {:induction false} CheckpointsAppend(a: seq<Effect>, b: seq<Effect>)
    ensures Checkpoints(a + b) == Checkpoints(a) + Checkpoints(b)
  {
    if a == [] {
      assert a + b == b;
    } else {
      assert (a + b)[1..] == a[1..] + b;
      CheckpointsAppend(a[1..], b);
      AppendAssoc(if a[0].Checkpointed? then [a[0]] else [], Checkpoints(a[1..]), Checkpoints(b));
    }
  }

  /** A relay task checkpoints its own change once, and only when all three steps succeed. */
  lemma TaskCheckpoints(c: Change, f: Fault, now: int)
    ensures Checkpoints(TaskEffects(c, f, now)) == if f == NoFault then [Checkpointed(c.token, c.id)] else []
  {
    var e := TaskEffects(c, f, now);
    if f != PublishFault {
      assert Checkpoints(e) == Checkpoints(e[1..]);
      if f == NoFault {
        assert e[1..][1..] == [Checkpointed(c.token, c.id)];
        assert Checkpoints(e[1..]) == Checkpoints(e[1..][1..]);
        assert e[1..][1..][1..] == [];
      } else if f == CheckpointFault {
        assert e[1..] == [Marked(c.id, now)];
        assert Checkpoints(e[1..]) == Checkpoints(e[1..][1..]);
      }
    }
  }

  /** Every checkpoint the filter keeps is an effect of the log. */
  lemma {:induction false} CheckpointIsInLog(log: seq<Effect>, i: nat)
    requires i < |Checkpoints(log)|
    ensures exists j :: 0 <= j < |log| && log[j] == Checkpoints(log)[i]
  {
    if log[0].Checkpointed? && i == 0 {
      assert log[0] == Checkpoints(log)[0];
    } else {
      var skip := if log[0].Checkpointed? then 1 else 0;
      assert Checkpoints(log)[i] == Checkpoints(log[1..])[i - skip];
      CheckpointIsInLog(log[1..], i - skip);
      var j :| 0 <= j < |log[1..]| && log[1..][j] == Checkpoints(log[1..])[i - skip];
      assert log[j + 1] == log[1..][j];
    }
  }

  /**
   * Once a token is persisted, the push runner can resume without losing a
   * change: the checkpoints are exactly those of the history's changes from
   * `origin` (the initial token, or the first change checkpointed) up to the
   * persisted token, none skipped and in order, and the current stream
   * delivers next the change right after the persisted token. Before any
   * token is persisted nothing has been checkpointed, and a new stream
   * starts wherever the history stands when it opens.
   */
  predicate Resumable(history: seq<Change>, streams: seq<ChangeStream>, persisted: Option<Token>,
                      log: seq<Effect>, origin: nat)
  {
    && (persisted.None? ==> Checkpoints(log) == [])
    && (persisted.Some? ==>
          && origin <= persisted.value <= |history|
          && Checkpoints(log) == CheckpointsOf(history[origin..persisted.value])
          && (streams != [] ==> NextPosition(streams[|streams| - 1]) == persisted.value))
  }

  /**
   * When the runner can resume, every change between the origin and the
   * persisted token had its record published and then marked sent, right
   * before its checkpoint.
   */
  lemma ChangeBehindTokenConfirmed(history: seq<Change>, streams: seq<ChangeStream>, persisted: Option<Token>,
                                   log: seq<Effect>, origin: nat, k: nat)
    requires Resumable(history, streams, persisted, log, origin)
    requires MarksFollowPublishes(log) && CheckpointsFollowMarks(log)
    requires persisted.Some? && origin <= k < persisted.value
    ensures exists j :: 2 <= j < |log| && log[j] == Checkpointed(history[k].token, history[k].id)
                        && log[j - 1].Marked? && log[j - 1].id == history[k].id
                        && log[j - 2].Published? && log[j - 2].id == history[k].id
  {
    var i := k - origin;
    assert Checkpoints(log)[i] == Checkpointed(history[k].token, history[k].id);
    CheckpointIsInLog(log, i);
    var j :| 0 <= j < |log| && log[j] == Checkpoints(log)[i];
    assert log[j - 1].Marked? && log[j - 2].Published?;
  }

  /** A runner that has not yet opened a stream nor run a task can resume, from its initial token. */
  lemma StartsResumable(history: seq<Change>, initial: Option<Token>)
    requires initial.Some? ==> initial.value <= |history|
    ensures Resumable(history, [], initial, [], if initial.Some? then initial.value else 0)
  {
    if initial.Some? {
      assert history[initial.value..initial.value] == [];
    }
  }

  /** Opening a stream from the persisted token, or closing the current one, keeps the runner resumable. */
  lemma RestartKeepsResumable(history: seq<Change>, streams: seq<ChangeStream>, persisted: Option<Token>,
                              log: seq<Effect>, origin: nat, startAt: nat)
    requires Resumable(history, streams, persisted, log, origin)
    ensures Resumable(history, streams + [ChangeStream(persisted, false, 0, startAt)], persisted, log, origin)
    ensures streams != [] ==>
              Resumable(history, streams[..|streams| - 1] + [streams[|streams| - 1].(closed := true)], persisted, log, origin)
  {
  }

  /**
   * The current stream delivering the next change keeps the runner
   * resumable. A task that succeeds checkpoints exactly that change, which
   * becomes the origin when it is the first one checkpointed. A task that
   * throws checkpoints nothing and opens a stream from the persisted token,
   * which delivers the failed change again once a token is persisted; with
   * none, the new stream starts at `startAt` and the failed change is not
   * delivered again.
   */
  lemma DeliveryKeepsResumable(history: seq<Change>, streams: seq<ChangeStream>, persisted: Option<Token>,
                               log: seq<Effect>, origin: nat, f: Fault, now: int, startAt: nat)
    requires Numbered(history) && Resumable(history, streams, persisted, log, origin)
    requires streams != [] && NextPosition(streams[|streams| - 1]) < |history|
    ensures var s := streams[|streams| - 1];
            var n := NextPosition(s);
            var c := history[n];
            var advanced := streams[|streams| - 1 := s.(delivered := s.delivered + 1)];
            Resumable(history,
                      if f == NoFault then advanced else advanced + [ChangeStream(persisted, false, 0, startAt)],
                      if f == NoFault then Some(c.token) else persisted,
                      log + TaskEffects(c, f, now),
                      if persisted.None? then n else origin)
  {
    if f == NoFault {
      SucceededDeliveryResumable(history, streams, persisted, log, origin, now);
    } else {
      FailedDeliveryResumable(history, streams, persisted, log, origin, f, now, startAt);
    }
  }

  /** The success case of `DeliveryKeepsResumable`: the delivered change is checkpointed next. */
  lemma SucceededDeliveryResumable(history: seq<Change>, streams: seq<ChangeStream>, persisted: Option<Token>,
                                   log: seq<Effect>, origin: nat, now: int)
    requires Numbered(history) && Resumable(history, streams, persisted, log, origin)
    requires streams != [] && NextPosition(streams[|streams| - 1]) < |history|
    ensures var s := streams[|streams| - 1];
            var n := NextPosition(s);
            var c := history[n];
            Resumable(history, streams[|streams| - 1 := s.(delivered := s.delivered + 1)], Some(c.token),
                      log + TaskEffects(c, NoFault, now), if persisted.None? then n else origin)
  {
    var s := streams[|streams| - 1];
    var n := NextPosition(s);
    var c := history[n];
    var advanced := streams[|streams| - 1 := s.(delivered := s.delivered + 1)];
    CheckpointsAppend(log, TaskEffects(c, NoFault, now));
    TaskCheckpoints(c, NoFault, now);
    assert NextPosition(advanced[|advanced| - 1]) == n + 1 == c.token;
    if persisted.Some? {
      CheckpointsAdvance(history, origin, n);
    } else {
      assert history[n..n + 1] == [c];
    }
  }

  /** The failure case of `DeliveryKeepsResumable`: nothing is checkpointed and a stream is opened. */
  lemma FailedDeliveryResumable(history: seq<Change>, streams: seq<ChangeStream>, persisted: Option<Token>,
                                log: seq<Effect>, origin: nat, f: Fault, now: int, startAt: nat)
    requires Resumable(history, streams, persisted, log, origin)
    requires streams != [] && NextPosition(streams[|streams| - 1]) < |history| && f != NoFault
    ensures var s := streams[|streams| - 1];
            var n := NextPosition(s);
            Resumable(history, streams[|streams| - 1 := s.(delivered := s.delivered + 1)] + [ChangeStream(persisted, false, 0, startAt)],
                      persisted, log + TaskEffects(history[n], f, now), if persisted.None? then n else origin)
  {
    var c := history[NextPosition(streams[|streams| - 1])];
    CheckpointsAppend(log, TaskEffects(c, f, now));
    TaskCheckpoints(c, f, now);
    assert Checkpoints(log + TaskEffects(c, f, now)) == Checkpoints(log) + [];
  }

  /** Moving the persisted position one change ahead adds exactly that change's checkpoint. */
  lemma CheckpointsAdvance(history: seq<Change>, p0: nat, p: nat)
    requires p0 <= p < |history|
    ensures CheckpointsOf(history[p0..p + 1]) == CheckpointsOf(history[p0..p]) + [Checkpointed(history[p].token, history[p].id)]
  {
    assert history[p0..p + 1][..p - p0] == history[p0..p];
  }

  class PushOutboxRunner {
    const queue: TaskQueue<Change>
    const initialStore: Store
    const initialToken: Option<Token>
    /** Every change stream opened, the current one last. */
    var streams: seq<ChangeStream>
    var store: Store
    var persisted: Option<Token>
    var log: seq<Effect>

    /** The store and the persisted token are the replay of the effect log, whose effects come in order. */
    ghost predicate Consistent()
      reads this
    {
      && store == Replay(initialStore, log)
      && persisted == PersistedToken(log, initialToken)
      && MarksFollowPublishes(log)
      && CheckpointsFollowMarks(log)
    }

    ghost predicate Valid()
      reads this, queue, queue.Repr
    {
      Consistent() && queue.Valid() && this !in queue.Repr
    }

    constructor (initialStore: Store, initialToken: Option<Token>)
      ensures Valid() && fresh(queue.Repr)
      ensures this.initialStore == initialStore && this.initialToken == initialToken
      ensures streams == [] && store == initialStore && persisted == initialToken && log == []
      ensures queue.Contents == [] && !queue.running
    {
      queue := new TaskQueue();
      this.initialStore, this.initialToken := initialStore, initialToken;
      streams, store, persisted, log := [], initialStore, initialToken, [];
    }

    /** `start`: does nothing once a stream has been set, otherwise runs. */
    method Start(startAt: nat)
      requires Valid()
      modifies this`streams
      ensures Valid()
      ensures old(streams) != [] ==> streams == old(streams)
      ensures old(streams) == [] ==> streams == [ChangeStream(persisted, false, 0, startAt)]
    {
      if streams != [] {
        return;
      }
      Run(startAt);
    }

    /** `run`: read the persisted token and open a change stream that resumes after it. */
    method Run(startAt: nat)
      requires Valid()
      modifies this`streams
      ensures Valid()
      ensures streams == old(streams) + [ChangeStream(persisted, false, 0, startAt)]
    {
      var resumeToken := persisted;
      streams := streams + [ChangeStream(resumeToken, false, 0, startAt)];
    }

    /** `stop`: close the current stream, if there is one. */
    method Stop()
      requires Valid()
      modifies this`streams
      ensures Valid()
      ensures old(streams) == [] ==> streams == []
      ensures old(streams) != [] ==>
                streams == old(streams)[..|old(streams)| - 1] + [old(streams)[|old(streams)| - 1].(closed := true)]
    {
      if streams != [] {
        var current := streams[|streams| - 1];
        streams := streams[..|streams| - 1] + [current.(closed := true)];
      }
    }

    /**
     * The `execute` of the task built for change `c`: publish, mark sent,
     * persist the token, each step only after the one before succeeded.
     */
    method Execute(c: Change, f: Fault, now: int) returns (ok: bool)
      requires Consistent()
      modifies this`store, this`persisted, this`log
      ensures Consistent()
      ensures log == old(log) + TaskEffects(c, f, now)
      ensures ok <==> f == NoFault
    {
      TaskEffectsReplay(initialStore, initialToken, log, c, f, now);
      if f == PublishFault {
        assert TaskEffects(c, f, now) == [];
        return false;
      }
      log := log + [Published(c.id, c.doc)];
      if f == MarkFault {
        assert TaskEffects(c, f, now) == [Published(c.id, c.doc)];
        return false;
      }
      store := MarkSent(store, c.id, now);
      log := log + [Marked(c.id, now)];
      if f == CheckpointFault {
        assert log == old(log) + [Published(c.id, c.doc), Marked(c.id, now)] == old(log) + TaskEffects(c, f, now);
        return false;
      }
      persisted := Some(c.token);
      log := log + [Checkpointed(c.token, c.id)];
      assert log == old(log) + [Published(c.id, c.doc), Marked(c.id, now), Checkpointed(c.token, c.id)]
                 == old(log) + TaskEffects(c, f, now);
      return true;
    }

    /** The task's `onerror`: drop the pending tasks and run again from the persisted token. */
    method OnTaskError(startAt: nat)
      requires Valid()
      modifies this`streams, queue.Repr
      ensures Valid() && queue.Repr == old(queue.Repr)
      ensures queue.Contents == [] && queue.running == old(queue.running)
      ensures streams == old(streams) + [ChangeStream(persisted, false, 0, startAt)]
    {
      var _ := queue.Clear();
      Run(startAt);
    }

    /**
     * The stream's `error` and `end` handlers: close the stream, drop the
     * pending tasks and, after a delay, run again from the persisted token.
     */
    method OnStreamErrorOrEnd(startAt: nat)
      requires Valid() && streams != []
      modifies this`streams, queue.Repr
      ensures Valid() && queue.Repr == old(queue.Repr)
      ensures queue.Contents == [] && queue.running == old(queue.running)
      ensures streams == old(streams)[..|old(streams)| - 1]
                         + [old(streams)[|old(streams)| - 1].(closed := true), ChangeStream(persisted, false, 0, startAt)]
    {
      Stop();
      var _ := queue.Clear();
      Run(startAt);
    }

    /** The stream's `change` handler: push a task for the change (it has an `onerror`). */
    method OnChange(c: Change, fault: Change -> Fault, clock: Change -> int, startAt: nat)
      requires Valid()
      modifies this`streams, this`store, this`persisted, this`log, queue.Repr
      ensures Valid() && fresh(queue.Repr - old(queue.Repr))
      ensures old(queue.running) ==>
                && queue.running && queue.Contents == old(queue.Contents) + [Task(c, true)]
                && log == old(log) && streams == old(streams)
      ensures !old(queue.running) ==>
                var pending := old(queue.Contents) + [Task(c, true)];
                && !queue.running && queue.Contents == []
                && log == old(log) + DrainEffects(pending, fault, clock)
                && (AllSucceed(pending, fault) ==> streams == old(streams))
                && (!AllSucceed(pending, fault) ==> streams == old(streams) + [ChangeStream(persisted, false, 0, startAt)])
    {
      queue.Enqueue(Task(c, true));
      Drain(fault, clock, startAt);
    }

    /** No drain is in progress and nothing is pending: the state between two event handlers. */
    ghost predicate Idle()
      reads this, queue
    {
      !queue.running && queue.Contents == []
    }

    /**
     * The `change` event of stream `from`: the stream delivers the next
     * change of the history after its position, and the handler pushes its
     * task. The handler is registered on every stream `run` opens, so a
     * stream that is not closed keeps delivering, the current one or not.
     * When the task throws, the new stream opens when the history has
     * reached position `startAt`.
     */
    method Deliver(from: nat, history: seq<Change>, fault: Change -> Fault, clock: Change -> int, startAt: nat)
      requires Valid() && Idle()
      requires from < |streams| && !streams[from].closed && NextPosition(streams[from]) < |history|
      modifies this`streams, this`store, this`persisted, this`log, queue.Repr
      ensures Valid() && Idle() && fresh(queue.Repr - old(queue.Repr))
      ensures var s := old(streams)[from];
              var c := history[NextPosition(s)];
              var advanced := old(streams)[from := s.(delivered := s.delivered + 1)];
              && log == old(log) + TaskEffects(c, fault(c), clock(c))
              && persisted == (if fault(c) == NoFault then Some(c.token) else old(persisted))
              && streams == if fault(c) == NoFault then advanced else advanced + [ChangeStream(persisted, false, 0, startAt)]
    {
      var s := streams[from];
      var c := history[NextPosition(s)];
      ghost var log0 := log;
      streams := streams[from := s.(delivered := s.delivered + 1)];
      OnChange(c, fault, clock, startAt);
      assert [] + [Task(c, true)] == [Task(c, true)];
      assert [Task(c, true)][1..] == [];
      assert DrainEffects([Task(c, true)], fault, clock) == TaskEffects(c, fault(c), clock(c)) + [];
      assert AllSucceed([Task(c, true)], fault) <==> fault(c) == NoFault;
      TaskEffectsReplay(initialStore, initialToken, log0, c, fault(c), clock(c));
    }

    /**
     * The `change` handler as evidently intended: a change from a stream
     * other than the current one is ignored, and a change from the current
     * stream is handled as `Deliver` does. Handling changes this way keeps
     * the runner resumable, so once a token is persisted it never passes a
     * change whose task threw.
     */
    method DeliverCurrent(from: nat, history: seq<Change>, fault: Change -> Fault, clock: Change -> int,
                          startAt: nat, ghost origin: nat)
      requires Valid() && Idle() && Numbered(history)
      requires Resumable(history, streams, persisted, log, origin)
      requires from < |streams|
      requires from == |streams| - 1 && !streams[from].closed ==> NextPosition(streams[from]) < |history|
      modifies this`streams, this`store, this`persisted, this`log, queue.Repr
      ensures Valid() && Idle() && fresh(queue.Repr - old(queue.Repr))
      ensures Resumable(history, streams, persisted, log,
                        if old(persisted).None? then old(NextPosition(streams[from])) else origin)
      ensures from < |old(streams)| - 1 || old(streams)[from].closed ==> streams == old(streams) && log == old(log)
      ensures from == |old(streams)| - 1 && !old(streams)[from].closed ==>
                var s := old(streams)[from];
                var c := history[NextPosition(s)];
                var advanced := old(streams)[from := s.(delivered := s.delivered + 1)];
                && log == old(log) + TaskEffects(c, fault(c), clock(c))
                && persisted == (if fault(c) == NoFault then Some(c.token) else old(persisted))
                && streams == if fault(c) == NoFault then advanced else advanced + [ChangeStream(persisted, false, 0, startAt)]
    {
      if from != |streams| - 1 || streams[from].closed {
        return;
      }
      ghost var streams0, persisted0, log0 := streams, persisted, log;
      ghost var c := history[NextPosition(streams[from])];
      Deliver(from, history, fault, clock, startAt);
      DeliveryKeepsResumable(history, streams0, persisted0, log0, origin, fault(c), clock(c), startAt);
    }

    /**
     * The queue's `run` on the runner's tasks: single-flight; executes the
     * pending tasks front first until one throws, whose `onerror` then
     * clears the queue and restarts the stream.
     */
    method Drain(fault: Change -> Fault, clock: Change -> int, startAt: nat)
      requires Valid()
      modifies this`streams, this`store, this`persisted, this`log, queue.Repr
      ensures Valid() && queue.Repr == old(queue.Repr)
      ensures old(queue.running) ==>
                queue.running && queue.Contents == old(queue.Contents) && log == old(log) && streams == old(streams)
      ensures !old(queue.running) ==>
                && !queue.running && queue.Contents == []
                && log == old(log) + DrainEffects(old(queue.Contents), fault, clock)
                && (AllSucceed(old(queue.Contents), fault) ==> streams == old(streams))
                && (!AllSucceed(old(queue.Contents), fault) ==> streams == old(streams) + [ChangeStream(persisted, false, 0, startAt)])
    {
      if queue.running {
        return;
      }
      queue.running := true;
      DrainLoop(fault, clock, startAt);
      queue.running := false;
    }

    /** The `for` loop of the queue's `run`, with this runner's `execute` and `onerror`. */
    method DrainLoop(fault: Change -> Fault, clock: Change -> int, startAt: nat)
      requires Valid()
      modifies this`streams, this`store, this`persisted, this`log, queue.Repr
      ensures Valid() && queue.Repr == old(queue.Repr) && queue.running == old(queue.running)
      ensures queue.Contents == []
      ensures log == old(log) + DrainEffects(old(queue.Contents), fault, clock)
      ensures AllSucceed(old(queue.Contents), fault) ==> streams == old(streams)
      ensures !AllSucceed(old(queue.Contents), fault) ==> streams == old(streams) + [ChangeStream(persisted, false, 0, startAt)]
    {
      while true
        invariant Valid() && queue.Repr == old(queue.Repr) && queue.running == old(queue.running)
        invariant log + DrainEffects(queue.Contents, fault, clock) == old(log) + DrainEffects(old(queue.Contents), fault, clock)
        invariant streams == old(streams) ==> (AllSucceed(old(queue.Contents), fault) <==> AllSucceed(queue.Contents, fault))
        invariant streams != old(streams) ==>
                    && streams == old(streams) + [ChangeStream(persisted, false, 0, startAt)]
                    && queue.Contents == [] && !AllSucceed(old(queue.Contents), fault)
        decreases |queue.Contents|
      {
        ghost var before := queue.Contents;
        var task := queue.Pop();
        if task.None? {
          break;
        }
        DrainStep(task.value, before, fault, clock, startAt);
      }
    }

    /** One task of the loop: execute it, and on a throw run its `onerror`. */
    method DrainStep(t: Task<Change>, ghost before: seq<Task<Change>>, fault: Change -> Fault, clock: Change -> int, startAt: nat)
      requires Valid() && before != [] && before[0] == t && queue.Contents == before[1..]
      modifies this`streams, this`store, this`persisted, this`log, queue.Repr
      ensures Valid() && queue.Repr == old(queue.Repr) && queue.running == old(queue.running)
      ensures log + DrainEffects(queue.Contents, fault, clock) == old(log) + DrainEffects(before, fault, clock)
      ensures fault(t.job) == NoFault ==> queue.Contents == old(queue.Contents) && streams == old(streams)
      ensures fault(t.job) != NoFault ==> queue.Contents == [] && streams == old(streams) + [ChangeStream(persisted, false, 0, startAt)]
      ensures |queue.Contents| < |before|
    {
      var ok := Execute(t.job, fault(t.job), clock(t.job));
      ghost var effects := TaskEffects(t.job, fault(t.job), clock(t.job));
      if ok {
        AppendAssoc(old(log), effects, DrainEffects(queue.Contents, fault, clock));
      } else {
        OnTaskError(startAt);
        assert DrainEffects(before, fault, clock) == effects + [];
      }
    }
  }

  /** The store and the checkpoints after the scenario's one successful task, on record 3. */
  lemma ScenarioOutcome(rec: OutboxRecord, initial: Store, log: seq<Effect>, c: Change)
    requires initial == map[2 := rec, 3 := rec] && c.id == 3
    requires log == [] + TaskEffects(c, NoFault, 0)
    ensures Replay(initial, log)[2] == rec
    ensures Checkpoints(log) == [Checkpointed(c.token, 3)]
  {
    TaskEffectsReplay(initial, Some(1), [], c, NoFault, 0);
    TaskCheckpoints(c, NoFault, 0);
    assert log == TaskEffects(c, NoFault, 0);
    assert Replay(initial, log) == MarkSent(initial, 3, 0);
  }

  /**
   * The `change` handler as written lets a stale stream bypass a failed
   * change. The runner resumes after token 1. The task for change 2 throws
   * at publish, and `onerror` opens a new stream without closing the first.
   * The first stream then delivers change 3, whose task succeeds, so the
   * persisted token moves to 3 while record 2 is still unsent and change 2
   * was never checkpointed: a runner started again from that token never
   * delivers change 2.
   */
  method StaleStreamScenario() returns (persisted: Option<Token>, secondSent: bool, checkpoints: seq<Effect>)
    ensures persisted == Some(3) && !secondSent
    ensures checkpoints == [Checkpointed(3, 3)]
  {
    var rec := OutboxRecord("created", "{}", false, 0, None);
    var runner := new PushOutboxRunner(map[2 := rec, 3 := rec], Some(1));
    runner.Start(1);
    persisted, secondSent, checkpoints := FailThenStaleDelivery(runner, rec);
  }

  /** Publishing record 2 throws; every other step succeeds. */
  function ScenarioFault(c: Change): Fault
  {
    if c.id == 2 then PublishFault else NoFault
  }

  function ScenarioClock(c: Change): int
  {
    0
  }

  /** The two deliveries of the scenario, both from the first stream. */
  method FailThenStaleDelivery(runner: PushOutboxRunner, rec: OutboxRecord)
    returns (persisted: Option<Token>, secondSent: bool, checkpoints: seq<Effect>)
    requires runner.Valid() && runner.Idle()
    requires runner.initialStore == map[2 := rec, 3 := rec] && runner.initialToken == Some(1)
    requires runner.streams == [ChangeStream(Some(1), false, 0, 1)] && runner.log == []
    modifies runner`streams, runner`store, runner`persisted, runner`log, runner.queue.Repr
    ensures persisted == Some(3) && secondSent == rec.sent
    ensures checkpoints == [Checkpointed(3, 3)]
  {
    var history := [Change(1, 1, rec), Change(2, 2, rec), Change(3, 3, rec)];
    ScenarioFailure(runner, history);
    assert NextPosition(runner.streams[0]) == 2 && ScenarioFault(history[2]) == NoFault;
    runner.Deliver(0, history, ScenarioFault, ScenarioClock, 3);
    assert runner.log == [] + TaskEffects(history[2], NoFault, 0);
    ScenarioOutcome(rec, runner.initialStore, runner.log, history[2]);
    persisted := runner.persisted;
    secondSent := runner.store[2].sent;
    checkpoints := Checkpoints(runner.log);
  }

  /** The first delivery of the scenario: change 2 throws at publish, and a second stream opens. */
  method ScenarioFailure(runner: PushOutboxRunner, history: seq<Change>)
    requires runner.Valid() && runner.Idle() && |history| == 3 && history[1].id == 2
    requires runner.streams == [ChangeStream(Some(1), false, 0, 1)] && runner.log == []
    modifies runner`streams, runner`store, runner`persisted, runner`log, runner.queue.Repr
    ensures runner.Valid() && runner.Idle() && fresh(runner.queue.Repr - old(runner.queue.Repr))
    ensures runner.log == [] && |runner.streams| == 2 && runner.streams[0] == ChangeStream(Some(1), false, 1, 1)
  {
    assert NextPosition(runner.streams[0]) == 1 && ScenarioFault(history[1]) == PublishFault;
    runner.Deliver(0, history, ScenarioFault, ScenarioClock, 2);
  }

  // ---------------------------------------------------------------------
  // The poll runner
  // ---------------------------------------------------------------------

  /** Which step of one iteration of a poll pass throws: a pass has no checkpoint step. */
  datatype PollFault = PollNoFault | PollPublishFault | PollMarkFault

  predicate PollStepSucceeds(f: PollFault)
  {
    f == PollNoFault
  }

  /**
   * `find({sent: false})`: the result lists every unsent record exactly
   * once, in the order the database returns them.
   */
  predicate FindsUnsent(store: Store, found: seq<Id>)
  {
    && (forall i :: 0 <= i < |found| ==> found[i] in store && !store[found[i]].sent)
    && (forall i, j :: 0 <= i < j < |found| ==> found[i] != found[j])
    && (forall id :: id in store && !store[id].sent ==> id in found)
  }

  /** How many records at the front of `found` a pass publishes and marks before the first throw. */
  function Confirmed(found: seq<Id>, fault: Id -> PollFault): (r: nat)
    ensures r <= |found|
    ensures forall i :: 0 <= i < r ==> PollStepSucceeds(fault(found[i]))
    ensures r < |found| ==> !PollStepSucceeds(fault(found[r]))
  {
    if found == [] || !PollStepSucceeds(fault(found[0])) then 0 else 1 + Confirmed(found[1..], fault)
  }

  /** The effects of one iteration of a poll pass: publish the record as found, then mark it sent. */
  function PollStepEffects(id: Id, doc: OutboxRecord, f: PollFault, now: int): seq<Effect>
  {
    match f
    case PollPublishFault => []
    case PollMarkFault => [Published(id, doc)]
    case PollNoFault => [Published(id, doc), Marked(id, now)]
  }

  /** The effects of a poll pass over `found`, publishing the documents as found in `docs`. */
  function PollEffects(found: seq<Id>, docs: Store, fault: Id -> PollFault, clock: Id -> int): seq<Effect>
    requires forall i :: 0 <= i < |found| ==> found[i] in docs
  {
    if found == [] then []
    else PollStepEffects(found[0], docs[found[0]], fault(found[0]), clock(found[0]))
         + (if PollStepSucceeds(fault(found[0])) then PollEffects(found[1..], docs, fault, clock) else [])
  }

  /** The pass over the suffix of `found` from `i` is the iteration at `i` followed, when it succeeds, by the pass behind it. */
  lemma PollEffectsFrom(found: seq<Id>, docs: Store, fault: Id -> PollFault, clock: Id -> int, i: nat)
    requires i < |found| && forall j :: 0 <= j < |found| ==> found[j] in docs
    ensures PollEffects(found[i..], docs, fault, clock) ==
              PollStepEffects(found[i], docs[found[i]], fault(found[i]), clock(found[i]))
              + (if PollStepSucceeds(fault(found[i])) then PollEffects(found[i + 1..], docs, fault, clock) else [])
  {
    assert found[i..][1..] == found[i + 1..];
  }

  /** A poll pass over `found` replays as its first iteration followed by the pass over the rest. */
  lemma PollEffectsReplay(store: Store, found: seq<Id>, docs: Store, fault: Id -> PollFault, clock: Id -> int)
    requires found != [] && forall i :: 0 <= i < |found| ==> found[i] in docs
    ensures var id := found[0];
            Replay(store, PollEffects(found, docs, fault, clock)) ==
              if PollStepSucceeds(fault(id))
              then Replay(MarkSent(store, id, clock(id)), PollEffects(found[1..], docs, fault, clock))
              else store
  {
    var id := found[0];
    if fault(id) == PollPublishFault {
      assert PollEffects(found, docs, fault, clock) == [];
    } else if fault(id) == PollMarkFault {
      assert PollEffects(found, docs, fault, clock) == [Published(id, docs[id])];
      LogSnoc(store, None, [], Published(id, docs[id]));
      assert [] + [Published(id, docs[id])] == [Published(id, docs[id])];
    } else {
      var step := [Published(id, docs[id]), Marked(id, clock(id))];
      assert PollEffects(found, docs, fault, clock) == step + PollEffects(found[1..], docs, fault, clock);
      PublishThenMark(store, None, [], id, docs[id], clock(id));
      assert [] + step == step;
      ReplayAppend(store, step, PollEffects(found[1..], docs, fault, clock));
    }
  }

  /** A poll pass marks each record before the first throw sent, at its own clock reading. */
  lemma {:induction false} PollPassMarks(store: Store, found: seq<Id>, docs: Store, fault: Id -> PollFault, clock: Id -> int, i: nat)
    requires forall j :: 0 <= j < |found| ==> found[j] in docs
    requires i < Confirmed(found, fault) && found[i] in store
    requires found[i] !in found[..i] && found[i] !in found[i + 1..]
    ensures Replay(store, PollEffects(found, docs, fault, clock))[found[i]] ==
              store[found[i]].(sent := true, sentAt := Some(clock(found[i])))
  {
    var id := found[0];
    var rest := found[1..];
    PollEffectsReplay(store, found, docs, fault, clock);
    var marked := MarkSent(store, id, clock(id));
    assert PollStepSucceeds(fault(id)) && Confirmed(found, fault) == 1 + Confirmed(rest, fault);
    if i == 0 {
      var k := Confirmed(rest, fault);
      assert rest[..k] == found[1..k + 1];
      PollPassKeeps(marked, rest, docs, fault, clock, id);
    } else {
      assert found[i] == rest[i - 1] && found[i] != id;
      assert rest[..i - 1] == found[1..i] && rest[i..] == found[i + 1..];
      assert marked[found[i]] == store[found[i]];
      PollPassMarks(marked, rest, docs, fault, clock, i - 1);
    }
  }

  /** A poll pass leaves every record it did not confirm as it was. */
  lemma {:induction false} PollPassKeeps(store: Store, found: seq<Id>, docs: Store, fault: Id -> PollFault, clock: Id -> int, id: Id)
    requires forall j :: 0 <= j < |found| ==> found[j] in docs
    requires id in store && id !in found[..Confirmed(found, fault)]
    ensures Replay(store, PollEffects(found, docs, fault, clock))[id] == store[id]
  {
    if found != [] {
      PollEffectsReplay(store, found, docs, fault, clock);
      var first := found[0];
      if PollStepSucceeds(fault(first)) {
        var k := Confirmed(found[1..], fault);
        assert Confirmed(found, fault) == 1 + k;
        assert found[..1 + k] == [first] + found[1..][..k];
        var marked := MarkSent(store, first, clock(first));
        assert id != first && id in marked && marked[id] == store[id];
        PollPassKeeps(marked, found[1..], docs, fault, clock, id);
      }
    }
  }

  class PollOutboxRunner {
    const initialStore: Store
    var running: bool
    /** Whether the interval timer that calls `start` is armed. */
    var scheduled: bool
    var store: Store
    var log: seq<Effect>

    /** The store is the replay of the effect log, in which every mark follows its publish. */
    ghost predicate Valid()
      reads this
    {
      store == Replay(initialStore, log) && MarksFollowPublishes(log) && CheckpointsFollowMarks(log)
    }

    constructor (initialStore: Store)
      ensures Valid() && !running && scheduled
      ensures this.initialStore == initialStore && store == initialStore && log == []
    {
      this.initialStore := initialStore;
      running, scheduled := false, true;
      store, log := initialStore, [];
    }

    /**
     * `start`: one pass over the unsent records, publishing and then marking
     * each in the order found and stopping at the first throw; a call made
     * while a pass is in progress does nothing.
     */
    method Start(found: seq<Id>, fault: Id -> PollFault, clock: Id -> int)
      requires Valid() && (!running ==> FindsUnsent(store, found))
      modifies this`running, this`store, this`log
      ensures Valid()
      ensures old(running) ==> running && store == old(store) && log == old(log)
      ensures !old(running) ==> !running && log == old(log) + PollEffects(found, old(store), fault, clock)
      ensures !old(running) ==>
                var k := Confirmed(found, fault);
                && store.Keys == old(store).Keys
                && (forall i :: 0 <= i < k ==> store[found[i]] == old(store)[found[i]].(sent := true, sentAt := Some(clock(found[i]))))
                && (forall i :: k <= i < |found| ==> store[found[i]] == old(store)[found[i]] && !store[found[i]].sent)
                && (forall id :: id in old(store) && id !in found ==> store[id] == old(store)[id])
    {
      if running {
        return;
      }
      running := true;
      ghost var docs := store;
      PollPass(found, fault, clock);
      ReplayAppend(initialStore, old(log), PollEffects(found, docs, fault, clock));
      ghost var k := Confirmed(found, fault);
      forall i | 0 <= i < k
        ensures store[found[i]] == docs[found[i]].(sent := true, sentAt := Some(clock(found[i])))
      {
        assert found[i] !in found[..i] && found[i] !in found[i + 1..];
        PollPassMarks(docs, found, docs, fault, clock, i);
      }
      forall id | id in docs && id !in found[..k]
        ensures store[id] == docs[id]
      {
        PollPassKeeps(docs, found, docs, fault, clock, id);
      }
      assert forall i :: k <= i < |found| ==> found[i] !in found[..k];
      running := false;
    }

    /** The `for` loop of `start`. */
    method PollPass(found: seq<Id>, fault: Id -> PollFault, clock: Id -> int)
      requires Valid() && forall i :: 0 <= i < |found| ==> found[i] in store
      modifies this`store, this`log
      ensures Valid()
      ensures log == old(log) + PollEffects(found, old(store), fault, clock)
    {
      var docs := store;
      var i := 0;
      while i < |found|
        invariant Valid() && 0 <= i <= |found|
        invariant log + PollEffects(found[i..], docs, fault, clock) == old(log) + PollEffects(found, docs, fault, clock)
      {
        var id := found[i];
        PollEffectsFrom(found, docs, fault, clock, i);
        ghost var step := PollStepEffects(id, docs[id], fault(id), clock(id));
        ghost var before := log;
        var ok := PollStep(id, docs[id], fault(id), clock(id));
        if !ok {
          assert step + [] == step;
          break;
        }
        AppendAssoc(before, step, PollEffects(found[i + 1..], docs, fault, clock));
        i := i + 1;
      }
    }

    /** One iteration of the pass: publish the record as found, then mark it sent; `ok` is false when either throws. */
    method PollStep(id: Id, doc: OutboxRecord, f: PollFault, now: int) returns (ok: bool)
      requires Valid()
      modifies this`store, this`log
      ensures Valid()
      ensures ok <==> PollStepSucceeds(f)
      ensures log == old(log) + PollStepEffects(id, doc, f, now)
      ensures store == if ok then MarkSent(old(store), id, now) else old(store)
    {
      PublishThenMark(initialStore, None, log, id, doc, now);
      if f == PollPublishFault {
        assert log + [] == log;
        return false;
      }
      log := log + [Published(id, doc)];
      if f == PollMarkFault {
        return false;
      }
      store := MarkSent(store, id, now);
      log := log + [Marked(id, now)];
      assert log == old(log) + [Published(id, doc), Marked(id, now)];
      return true;
    }

    /** `stop`: disarm the interval timer. */
    method Stop()
      modifies this`scheduled
      ensures !scheduled
    {
      scheduled := false;
    }
  }
}
