/**
 * The sequential task queue (src/task-queue.ts): a singly linked FIFO of
 * tasks with `head`/`tail` pointers and a `running` flag, drained one task
 * at a time in submission order.
 *
 * Executing a task is asynchronous work the queue cannot see; here it is an
 * oracle `execute` that says whether the task's promise resolved or
 * rejected, and with which error.
 */
module TaskQueues {
  import opened Common

  /** How a task's `execute()` settled. */
  datatype Outcome<E> = Pass | Fail(error: E)

  /** A unit of work; `hasOnError` says whether its optional `onerror` handler is present. */
  datatype Task<J> = Task(job: J, hasOnError: bool)

  /** What the drain loop did with one task. */
  datatype Event<J, E> =
    | Completed(task: Task<J>)
    | Failed(task: Task<J>, error: E, onerrorCalled: bool)

  /** The event the drain loop produces for task `t` whose execution settled as `o`. */
  function Handle<J, E>(t: Task<J>, o: Outcome<E>): Event<J, E>
  {
    match o
    case Pass => Completed(t)
    case Fail(e) => Failed(t, e, t.hasOnError)
  }

  /** The events of draining `ts` from the front, one task after the other. */
  function Drained<J, E>(ts: seq<Task<J>>, execute: Task<J> -> Outcome<E>): seq<Event<J, E>>
  {
    if ts == [] then [] else [Handle(ts[0], execute(ts[0]))] + Drained(ts[1..], execute)
  }

  /**
   * Draining runs every task in submission order, one event per task: a
   * failure is reported to the task's own `onerror` (when it has one) and
   * does not stop the tasks behind it.
   */
  lemma {:induction false} DrainedInOrder<J, E>(ts: seq<Task<J>>, execute: Task<J> -> Outcome<E>, i: nat)
    requires i < |ts|
    ensures |Drained(ts, execute)| == |ts|
    ensures Drained(ts, execute)[i].task == ts[i]
    ensures execute(ts[i]).Pass? <==> Drained(ts, execute)[i].Completed?
    ensures execute(ts[i]).Fail? ==>
              Drained(ts, execute)[i] == Failed(ts[i], execute(ts[i]).error, ts[i].hasOnError)
  {
    if i > 0 {
      DrainedInOrder(ts[1..], execute, i - 1);
    } else {
      DrainedLength(ts[1..], execute);
    }
  }

  lemma {:induction false} DrainedLength<J, E>(ts: seq<Task<J>>, execute: Task<J> -> Outcome<E>)
    ensures |Drained(ts, execute)| == |ts|
  {
    if ts != [] {
      DrainedLength(ts[1..], execute);
    }
  }

  /**
   * Tasks pushed behind a pending batch are drained after the whole batch.
   * Between calls no method leaves `running` set, so this lemma, rather than
   * the `old(running)` branches of `Push` and `Run`, is what describes a
   * task pushed while a drain is in progress.
   */
  lemma {:induction false} DrainedAppend<J, E>(a: seq<Task<J>>, b: seq<Task<J>>, execute: Task<J> -> Outcome<E>)
    ensures Drained(a + b, execute) == Drained(a, execute) + Drained(b, execute)
  {
    if a == [] {
      assert a + b == b;
    } else {
      assert (a + b)[1..] == a[1..] + b;
      DrainedAppend(a[1..], b, execute);
    }
  }

  /** A node of the singly linked list (src/task-queue.ts:6-8). */
  class TaskNode<J> {
    var task: Task<J>
    var next: TaskNode?<J>

    constructor (task: Task<J>)
      ensures this.task == task && next == null
    {
      this.task := task;
      next := null;
    }
  }

  class TaskQueue<J> {
    var head: TaskNode?<J>
    var tail: TaskNode?<J>
    var running: bool

    /** The pending tasks, front first. */
    ghost var Contents: seq<Task<J>>
    /** The nodes holding them, in list order. */
    ghost var Nodes: seq<TaskNode<J>>
    ghost var Repr: set<object>

    /**
     * The list from `head` follows `next` through `Nodes` and ends at
     * `tail`, whose `next` is undefined; `head` is undefined exactly when
     * `tail` is.
     */
    ghost predicate Valid()
      reads this, Repr
    {
      && this in Repr
      && |Nodes| == |Contents|
      && (forall i :: 0 <= i < |Nodes| ==> Nodes[i] in Repr && Nodes[i].task == Contents[i])
      && (forall i :: 0 <= i < |Nodes| - 1 ==> Nodes[i].next == Nodes[i + 1])
      && (forall i, j :: 0 <= i < j < |Nodes| ==> Nodes[i] != Nodes[j])
      && (Nodes == [] ==> head == null && tail == null)
      && (Nodes != [] ==> head == Nodes[0] && tail == Nodes[|Nodes| - 1] && tail.next == null)
    }

    constructor ()
      ensures Valid() && fresh(Repr)
      ensures Contents == [] && !running
    {
      head, tail := null, null;
      running := false;
      Contents, Nodes := [], [];
      Repr := {this};
    }

    /** `head` is undefined exactly when `tail` is, exactly when nothing is pending. */
    lemma HeadTailAgree()
      requires Valid()
      ensures (head == null) == (tail == null) == (Contents == [])
    {
    }

    /** The append half of `push`: link a new node after `tail`. */
    method Enqueue(t: Task<J>)
      requires Valid()
      modifies Repr
      ensures Valid() && fresh(Repr - old(Repr))
      ensures Contents == old(Contents) + [t]
      ensures running == old(running)
      ensures tail != null && tail.task == t
    {
      var node := new TaskNode(t);
      if head == null {
        head, tail := node, node;
      } else {
        tail.next := node;
        tail := node;
      }
      Contents, Nodes, Repr := Contents + [t], Nodes + [node], Repr + {node};
    }

    /**
     * `push`: append the task, then start a drain. While another drain is
     * in progress the drain returns at once and the task waits its turn.
     */
    method Push<E>(t: Task<J>, execute: Task<J> -> Outcome<E>) returns (trace: seq<Event<J, E>>)
      requires Valid()
      modifies Repr
      ensures Valid() && fresh(Repr - old(Repr))
      ensures old(running) ==> running && trace == [] && Contents == old(Contents) + [t]
      ensures !old(running) ==> !running && Contents == [] && trace == Drained(old(Contents) + [t], execute)
    {
      Enqueue(t);
      trace := Run(execute);
    }

    /** `pop`: detach the head node and return its task; `None` when nothing is pending. */
    method Pop() returns (t: Option<Task<J>>)
      requires Valid()
      modifies Repr
      ensures Valid() && Repr == old(Repr) && running == old(running)
      ensures old(Contents) == [] ==> t == None && Contents == []
      ensures old(Contents) != [] ==> t == Some(old(Contents)[0]) && Contents == old(Contents)[1..]
    {
      if head == null {
        return None;
      }
      var task := head.task;
      if head == tail {
        head, tail := null, null;
        Contents, Nodes := [], [];
      } else {
        var next := head.next;
        head.next := null;
        head := next;
        Contents, Nodes := Contents[1..], Nodes[1..];
      }
      return Some(task);
    }

    /**
     * `run`: single-flight drain. When a drain is already in progress it
     * returns without popping anything; otherwise it executes the pending
     * tasks front first, one at a time, reports each failure to the failing
     * task's `onerror`, keeps going, and finally clears `running`.
     */
    method Run<E>(execute: Task<J> -> Outcome<E>) returns (trace: seq<Event<J, E>>)
      requires Valid()
      modifies Repr
      ensures Valid() && Repr == old(Repr)
      ensures old(running) ==> running && trace == [] && Contents == old(Contents)
      ensures !old(running) ==> !running && Contents == [] && trace == Drained(old(Contents), execute)
    {
      if running {
        return [];
      }
      running := true;
      trace := DrainLoop(execute);
      running := false;
    }

    /** The `for` loop of `run`: pop and execute until `pop` finds nothing. */
    method DrainLoop<E>(execute: Task<J> -> Outcome<E>) returns (trace: seq<Event<J, E>>)
      requires Valid()
      modifies Repr
      ensures Valid() && Repr == old(Repr) && running == old(running)
      ensures Contents == [] && trace == Drained(old(Contents), execute)
    {
      trace := [];
      while true
        invariant Valid() && Repr == old(Repr) && running == old(running)
        invariant trace + Drained(Contents, execute) == Drained(old(Contents), execute)
        decreases |Contents|
      {
        ghost var before := Contents;
        var task := Pop();
        if task.None? {
          break;
        }
        var t := task.value;
        assert Drained(before, execute) == [Handle(t, execute(t))] + Drained(Contents, execute);
        trace := trace + [Handle(t, execute(t))];
      }
    }

    /** `clear`: unlink every pending node and forget them; `running` is left alone. */
    method Clear() returns (self: TaskQueue<J>)
      requires Valid()
      modifies Repr
      ensures Valid() && Repr == old(Repr)
      ensures self == this && Contents == [] && head == null && tail == null
      ensures running == old(running)
      ensures forall i :: 0 <= i < |old(Nodes)| ==> old(Nodes)[i].next == null
    {
      var node := head;
      ghost var k := 0;
      while node != null
        invariant this in Repr && Repr == old(Repr) && running == old(running)
        invariant Nodes == old(Nodes) && 0 <= k <= |Nodes|
        invariant forall i :: 0 <= i < |Nodes| ==> Nodes[i] in Repr
        invariant forall i, j :: 0 <= i < j < |Nodes| ==> Nodes[i] != Nodes[j]
        invariant forall i :: k <= i < |Nodes| - 1 ==> Nodes[i].next == Nodes[i + 1]
        invariant Nodes != [] ==> Nodes[|Nodes| - 1].next == null
        invariant node == if k < |Nodes| then Nodes[k] else null
        invariant forall i :: 0 <= i < k ==> Nodes[i].next == null
        decreases |Nodes| - k
      {
        var next := node.next;
        node.next := null;
        node := next;
        k := k + 1;
      }
      head, tail := null, null;
      Contents, Nodes := [], [];
      self := this;
    }
  }
}
