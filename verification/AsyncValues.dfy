/** A value with parked waiters: `set` wakes all of them, `notify_one` the oldest one, `update` none. */
module AsyncValues {
  import opened Basics

  // `woken` lists the waits completed successfully and `aborted` those completed with
  // operation_aborted, each in the order their handlers were dispatched.
  datatype ValueState<T> =
    ValueState(value: T, version: nat, waiters: seq<nat>, woken: seq<nat>, aborted: seq<nat>)
  {
    function Set(newValue: T): ValueState<T>
    {
      this.(value := newValue, version := version + 1, waiters := [], woken := woken + waiters)
    }

    function Update(newValue: T): ValueState<T>
    {
      this.(value := newValue, version := version + 1)
    }

    function NotifyOne(): ValueState<T>
    {
      if waiters == [] then this
      else this.(waiters := waiters[1..], woken := woken + [waiters[0]])
    }

    function Wait(id: nat): ValueState<T>
    {
      this.(waiters := waiters + [id])
    }

    // The cancellation handler: it forgets the waiter and completes it with operation_aborted.
    function Cancel(id: nat): ValueState<T>
    {
      this.(waiters := Without(waiters, {id}), aborted := aborted + [id])
    }
  }

  class AsyncValue<T> {
    var value: T
    var version: nat
    var waiters: seq<nat>
    ghost var woken: seq<nat>
    ghost var aborted: seq<nat>

    ghost function State(): ValueState<T>
      reads this
    {
      ValueState(value, version, waiters, woken, aborted)
    }

    constructor (init: T)
      ensures State() == ValueState(init, 0, [], [], [])
    {
      value, version, waiters, woken, aborted := init, 0, [], [], [];
    }

    // Every waiter parked before the call is taken off and its handler dispatched, oldest first.
    method Set(newValue: T)
      modifies this
      ensures State() == old(State()).Set(newValue)
    {
      value := newValue;
      version := version + 1;
      var parked := waiters;
      waiters := [];
      for i := 0 to |parked|
        invariant value == newValue && version == old(version) + 1
        invariant waiters == [] && aborted == old(aborted)
        invariant woken == old(woken) + parked[..i]
      {
        woken := woken + [parked[i]];
      }
    }

    method Update(newValue: T)
      modifies this
      ensures State() == old(State()).Update(newValue)
    {
      value := newValue;
      version := version + 1;
    }

    method NotifyOne()
      modifies this
      ensures State() == old(State()).NotifyOne()
    {
      if |waiters| == 0 {
        return;
      }
      woken := woken + [waiters[0]];
      waiters := waiters[1..];
    }

    method Wait(id: nat)
      modifies this
      ensures State() == old(State()).Wait(id)
    {
      waiters := waiters + [id];
    }

    method Cancel(id: nat)
      modifies this
      ensures State() == old(State()).Cancel(id)
    {
      waiters := Without(waiters, {id});
      aborted := aborted + [id];
    }
  }

  // Runs

  datatype Op<T> = OpSet(value: T) | OpUpdate(value: T) | OpNotify | OpWait(id: nat) | OpCancel(id: nat)

  function Apply<T>(s: ValueState<T>, op: Op<T>): ValueState<T>
  {
    match op
    case OpSet(v) => s.Set(v)
    case OpUpdate(v) => s.Update(v)
    case OpNotify => s.NotifyOne()
    case OpWait(id) => s.Wait(id)
    case OpCancel(id) => s.Cancel(id)
  }

  function After<T>(init: T, ops: seq<Op<T>>): ValueState<T>
  {
    if ops == [] then ValueState(init, 0, [], [], [])
    else Apply(After(init, ops[..|ops| - 1]), ops[|ops| - 1])
  }

  // The waits registered and not cancelled since, in registration order.
  function Survivors<T>(ops: seq<Op<T>>): seq<nat>
  {
    if ops == [] then []
    else
      var before := Survivors(ops[..|ops| - 1]);
      match ops[|ops| - 1]
      case OpWait(id) => before + [id]
      case OpCancel(id) => Without(before, {id})
      case _ => before
  }

  // Each wait is a new call, and only a wait that is still parked is cancelled.
  predicate Proper<T>(init: T, ops: seq<Op<T>>)
  {
    ops == [] ||
    (var before := ops[..|ops| - 1];
     && Proper(init, before)
     && match ops[|ops| - 1]
        case OpWait(id) => id !in Survivors(before)
        case OpCancel(id) => id in After(init, before).waiters
        case _ => true)
  }

  // FIFO: the waits woken so far, followed by the parked ones, are exactly the waits never cancelled.
  lemma {:induction false} WaitersWakeInOrder<T>(init: T, ops: seq<Op<T>>)
    requires Proper(init, ops)
    ensures After(init, ops).woken + After(init, ops).waiters == Survivors(ops)
    ensures NoDup(Survivors(ops))
  {
    if ops != [] {
      var before, after := After(init, ops[..|ops| - 1]), After(init, ops);
      WaitersWakeInOrder(init, ops[..|ops| - 1]);
      match ops[|ops| - 1] {
        case OpWait(id) =>
          assert after.woken + after.waiters == before.woken + before.waiters + [id];
        case OpCancel(id) =>
          RemoveParked(before.woken, before.waiters, id);
        case _ =>
          assert after.woken + after.waiters == before.woken + before.waiters;
      }
    }
  }

  // No lost wakeup: after a `set`, every wait registered before it and never cancelled has been woken,
  // in registration order.
  lemma {:induction false} SetWakesEverySurvivor<T>(init: T, ops: seq<Op<T>>, value: T)
    requires Proper(init, ops)
    ensures After(init, ops + [OpSet(value)]).woken == Survivors(ops)
  {
    WaitersWakeInOrder(init, ops);
    assert (ops + [OpSet(value)])[..|ops|] == ops;
  }

  // A notification wakes exactly the oldest survivor not yet woken, if there is one.
  lemma NotifyWakesTheOldestSurvivor<T>(init: T, ops: seq<Op<T>>)
    requires Proper(init, ops)
    ensures var n := |After(init, ops).woken|;
            After(init, ops + [OpNotify]).woken ==
            if n < |Survivors(ops)| then Survivors(ops)[..n + 1] else Survivors(ops)
  {
    WaitersWakeInOrder(init, ops);
    assert (ops + [OpNotify])[..|ops|] == ops;
    var s, notified := After(init, ops), After(init, ops + [OpNotify]);
    assert notified == s.NotifyOne();
    hide After, Survivors, Proper;
    NextOf(s.woken, s.waiters, Survivors(ops));
  }

  lemma NextOf(woken: seq<nat>, waiters: seq<nat>, all: seq<nat>)
    requires woken + waiters == all
    ensures if waiters == [] then |woken| == |all| && woken == all
            else |woken| < |all| && all[..|woken| + 1] == woken + [waiters[0]]
  {
    if waiters == [] {
      assert woken + waiters == woken;
    }
  }

  // Values

  // The argument of the last call that stores one.
  function LastStored<T>(init: T, ops: seq<Op<T>>): T
  {
    if ops == [] then init
    else
      match ops[|ops| - 1]
      case OpSet(v) => v
      case OpUpdate(v) => v
      case _ => LastStored(init, ops[..|ops| - 1])
  }

  function Stores<T>(ops: seq<Op<T>>): nat
  {
    if ops == [] then 0
    else Stores(ops[..|ops| - 1]) + if ops[|ops| - 1].OpSet? || ops[|ops| - 1].OpUpdate? then 1 else 0
  }

  // The value is the one stored last, and the version counts the stores.
  lemma {:induction false} ValueIsLastStored<T>(init: T, ops: seq<Op<T>>)
    ensures After(init, ops).value == LastStored(init, ops) && After(init, ops).version == Stores(ops)
  {
    if ops != [] {
      ValueIsLastStored(init, ops[..|ops| - 1]);
    }
  }

  // Cancellation

  function Waited<T>(ops: seq<Op<T>>): seq<nat>
  {
    if ops == [] then []
    else Waited(ops[..|ops| - 1]) + if ops[|ops| - 1].OpWait? then [ops[|ops| - 1].id] else []
  }

  function Cancelled<T>(ops: seq<Op<T>>): seq<nat>
  {
    if ops == [] then []
    else Cancelled(ops[..|ops| - 1]) + if ops[|ops| - 1].OpCancel? then [ops[|ops| - 1].id] else []
  }

  // The waits completed as aborted are exactly those cancelled, in that order.
  lemma {:induction false} AbortedAreCancelled<T>(init: T, ops: seq<Op<T>>)
    ensures After(init, ops).aborted == Cancelled(ops)
  {
    if ops != [] {
      AbortedAreCancelled(init, ops[..|ops| - 1]);
    }
  }

  // Woken, parked and aborted waits together.
  function Accounted<T>(s: ValueState<T>): multiset<nat>
  {
    multiset(s.woken) + multiset(s.waiters) + multiset(s.aborted)
  }

  lemma WakesAccount<T>(s: ValueState<T>, value: T, id: nat)
    ensures Accounted(s.Set(value)) == Accounted(s.Update(value)) == Accounted(s.NotifyOne()) == Accounted(s)
    ensures Accounted(s.Wait(id)) == Accounted(s) + multiset{id}
  {
    if s.waiters != [] {
      NotifyAccounts(s);
    }
    WaitAccounts(s, id);
  }

  lemma NotifyAccounts<T>(s: ValueState<T>)
    requires s.waiters != []
    ensures Accounted(s.NotifyOne()) == Accounted(s)
  {
    assert s.waiters == [s.waiters[0]] + s.waiters[1..];
  }

  lemma WaitAccounts<T>(s: ValueState<T>, id: nat)
    ensures Accounted(s.Wait(id)) == Accounted(s) + multiset{id}
  {
  }

  lemma CancelAccounts<T>(s: ValueState<T>, id: nat)
    requires NoDup(s.woken + s.waiters) && id in s.waiters
    ensures Accounted(s.Cancel(id)) == Accounted(s)
  {
    SuffixNoDup(s.woken, s.waiters);
    WithoutOne(s.waiters, id);
  }

  // No wait is ever lost or completed twice: each has been woken, is parked, or was aborted.
  lemma {:induction false} EveryWaitIsAccountedFor<T>(init: T, ops: seq<Op<T>>)
    requires Proper(init, ops)
    ensures multiset(Waited(ops)) == Accounted(After(init, ops))
  {
    if ops != [] {
      hide Accounted;
      var before := After(init, ops[..|ops| - 1]);
      EveryWaitIsAccountedFor(init, ops[..|ops| - 1]);
      WaitersWakeInOrder(init, ops[..|ops| - 1]);
      match ops[|ops| - 1] {
        case OpSet(v) => WakesAccount(before, v, 0);
        case OpUpdate(v) => WakesAccount(before, v, 0);
        case OpNotify => WakesAccount(before, init, 0);
        case OpWait(id) => WakesAccount(before, init, id);
        case OpCancel(id) => CancelAccounts(before, id);
      }
    }
  }
}
