/** The hand-off queue: `push` gives a value to the oldest parked `pop`, or stores it when nobody waits. */
module AsyncQueues {
  import opened Basics

  // History of the dispatched handlers, in order: the k-th pop completed with a value is `served[k]` and
  // it received `given[k]`; `aborted` lists the pops completed with operation_aborted.
  datatype QueueState<T> =
    QueueState(queue: seq<T>, waiters: seq<nat>, served: seq<nat>, given: seq<T>, aborted: seq<nat>)
  {
    function Push(value: T): QueueState<T>
    {
      if waiters != [] then
        this.(waiters := waiters[1..], served := served + [waiters[0]], given := given + [value])
      else
        this.(queue := queue + [value])
    }

    function Pop(id: nat): QueueState<T>
    {
      if queue != [] then
        this.(queue := queue[1..], served := served + [id], given := given + [queue[0]])
      else
        this.(waiters := waiters + [id])
    }

    // The cancellation handler: it forgets the waiter and completes it with operation_aborted.
    function Cancel(id: nat): QueueState<T>
    {
      this.(waiters := Without(waiters, {id}), aborted := aborted + [id])
    }
  }

  class AsyncQueue<T> {
    var queue: seq<T>
    var waiters: seq<nat>
    ghost var served: seq<nat>
    ghost var given: seq<T>
    ghost var aborted: seq<nat>

    ghost function State(): QueueState<T>
      reads this
    {
      QueueState(queue, waiters, served, given, aborted)
    }

    constructor ()
      ensures State() == QueueState([], [], [], [], [])
    {
      queue, waiters, served, given, aborted := [], [], [], [], [];
    }

    method Push(value: T)
      modifies this
      ensures State() == old(State()).Push(value)
    {
      if |waiters| > 0 {
        var waiter := waiters[0];
        waiters := waiters[1..];
        served, given := served + [waiter], given + [value];
      } else {
        queue := queue + [value];
      }
    }

    method Pop(id: nat) returns (value: Option<T>)
      modifies this
      ensures State() == old(State()).Pop(id)
      ensures value == if old(queue) == [] then None else Some(old(queue)[0])
    {
      if |queue| > 0 {
        value := Some(queue[0]);
        served, given := served + [id], given + [queue[0]];
        queue := queue[1..];
      } else {
        value := None;
        waiters := waiters + [id];
      }
    }

    method Cancel(id: nat)
      modifies this
      ensures State() == old(State()).Cancel(id)
    {
      waiters := Without(waiters, {id});
      aborted := aborted + [id];
    }
  }

  // Runs

  datatype Op<T> = OpPush(value: T) | OpPop(id: nat) | OpCancel(id: nat)

  function Apply<T>(s: QueueState<T>, op: Op<T>): QueueState<T>
  {
    match op
    case OpPush(v) => s.Push(v)
    case OpPop(id) => s.Pop(id)
    case OpCancel(id) => s.Cancel(id)
  }

  // The state of an initially empty queue after a sequence of calls and cancellations.
  function After<T>(ops: seq<Op<T>>): QueueState<T>
  {
    if ops == [] then QueueState([], [], [], [], [])
    else Apply(After(ops[..|ops| - 1]), ops[|ops| - 1])
  }

  function Pushed<T>(ops: seq<Op<T>>): seq<T>
  {
    if ops == [] then []
    else Pushed(ops[..|ops| - 1]) + if ops[|ops| - 1].OpPush? then [ops[|ops| - 1].value] else []
  }

  // The pops called and not cancelled since, in calling order.
  function Survivors<T>(ops: seq<Op<T>>): seq<nat>
  {
    if ops == [] then []
    else
      var before := Survivors(ops[..|ops| - 1]);
      match ops[|ops| - 1]
      case OpPush(_) => before
      case OpPop(id) => before + [id]
      case OpCancel(id) => Without(before, {id})
  }

  // Each pop is a new call, and only a pop that is still parked is cancelled.
  predicate Proper<T>(ops: seq<Op<T>>)
  {
    ops == [] ||
    (var before := ops[..|ops| - 1];
     && Proper(before)
     && match ops[|ops| - 1]
        case OpPush(_) => true
        case OpPop(id) => id !in Survivors(before)
        case OpCancel(id) => id in After(before).waiters)
  }

  // Conservation and FIFO of the values, under any interleaving of pushes, pops and cancellations:
  // a cancelled pop consumes nothing, and stored values never coexist with parked pops.
  lemma {:induction false} Conservation<T>(ops: seq<Op<T>>)
    ensures After(ops).given + After(ops).queue == Pushed(ops)
    ensures |After(ops).served| == |After(ops).given|
    ensures After(ops).queue == [] || After(ops).waiters == []
  {
    if ops != [] {
      Conservation(ops[..|ops| - 1]);
      var before := After(ops[..|ops| - 1]);
      if before.queue != [] {
        assert before.queue == [before.queue[0]] + before.queue[1..];
      }
    }
  }

  // The pops are served in calling order: those handed a value, then those still parked,
  // are exactly the pops never cancelled.
  lemma {:induction false} PopsAreServedInOrder<T>(ops: seq<Op<T>>)
    requires Proper(ops)
    ensures After(ops).served + After(ops).waiters == Survivors(ops)
    ensures NoDup(Survivors(ops))
  {
    if ops != [] {
      var before := After(ops[..|ops| - 1]);
      PopsAreServedInOrder(ops[..|ops| - 1]);
      Conservation(ops[..|ops| - 1]);
      match ops[|ops| - 1] {
        case OpPush(v) =>
          assert After(ops).served + After(ops).waiters == before.served + before.waiters;
        case OpPop(id) =>
          assert After(ops).served + After(ops).waiters == before.served + before.waiters + [id];
        case OpCancel(id) =>
          RemoveParked(before.served, before.waiters, id);
      }
    }
  }

  // Complete behaviour of the queue: the k-th surviving pop receives exactly the k-th pushed value,
  // and as many pops are served as there are both values and survivors.
  lemma KthPopGetsKthValue<T>(ops: seq<Op<T>>)
    requires Proper(ops)
    ensures var n := if |Pushed(ops)| <= |Survivors(ops)| then |Pushed(ops)| else |Survivors(ops)|;
            && After(ops).served == Survivors(ops)[..n]
            && After(ops).given == Pushed(ops)[..n]
  {
    Conservation(ops);
    PopsAreServedInOrder(ops);
  }

  // Cancellation

  function Popped<T>(ops: seq<Op<T>>): seq<nat>
  {
    if ops == [] then []
    else Popped(ops[..|ops| - 1]) + if ops[|ops| - 1].OpPop? then [ops[|ops| - 1].id] else []
  }

  function Cancelled<T>(ops: seq<Op<T>>): seq<nat>
  {
    if ops == [] then []
    else Cancelled(ops[..|ops| - 1]) + if ops[|ops| - 1].OpCancel? then [ops[|ops| - 1].id] else []
  }

  // The pops completed as aborted are exactly those cancelled, in that order.
  lemma {:induction false} AbortedAreCancelled<T>(ops: seq<Op<T>>)
    ensures After(ops).aborted == Cancelled(ops)
  {
    if ops != [] {
      AbortedAreCancelled(ops[..|ops| - 1]);
    }
  }

  // Served, parked and aborted pops together.
  function Accounted<T>(s: QueueState<T>): multiset<nat>
  {
    multiset(s.served) + multiset(s.waiters) + multiset(s.aborted)
  }

  lemma PushAccounts<T>(s: QueueState<T>, value: T)
    ensures Accounted(s.Push(value)) == Accounted(s)
  {
    if s.waiters != [] {
      assert s.waiters == [s.waiters[0]] + s.waiters[1..];
    }
  }

  lemma PopAccounts<T>(s: QueueState<T>, id: nat)
    ensures Accounted(s.Pop(id)) == Accounted(s) + multiset{id}
  {
  }

  lemma CancelAccounts<T>(s: QueueState<T>, id: nat)
    requires NoDup(s.served + s.waiters) && id in s.waiters
    ensures Accounted(s.Cancel(id)) == Accounted(s)
  {
    SuffixNoDup(s.served, s.waiters);
    WithoutOne(s.waiters, id);
  }

  // No pop is ever lost or answered twice: each pop called has been served, is parked, or was aborted.
  lemma {:induction false} EveryPopIsAccountedFor<T>(ops: seq<Op<T>>)
    requires Proper(ops)
    ensures multiset(Popped(ops)) == Accounted(After(ops))
  {
    if ops != [] {
      hide Accounted;
      var before := After(ops[..|ops| - 1]);
      EveryPopIsAccountedFor(ops[..|ops| - 1]);
      PopsAreServedInOrder(ops[..|ops| - 1]);
      match ops[|ops| - 1] {
        case OpPush(v) => PushAccounts(before, v);
        case OpPop(id) => PopAccounts(before, id);
        case OpCancel(id) => CancelAccounts(before, id);
      }
    }
  }
}
