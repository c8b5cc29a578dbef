/**
 * Listener control: the scheduled-task handle and the backoff of one listener kind
 * (the `AtomicReference<Future<?>>` and `AtomicReference<ExponentialBackoffStrategy>`
 * pairs), and the walk of a `ListenerRunnable` over its snapshot. Scheduling is
 * recorded, not performed: the handle says which action is pending and after which delay.
 */
module Listener {
  import opened Domain

  /** The backoff strategy as the helper uses it: a base delay and a failure counter. */
  datatype Backoff = Backoff(baseMillis: int, failures: nat)

  /** The default strategy: base 1000 ms, no immediate first attempt, no jitter, no failures yet. */
  const DefaultBackoff: Backoff := Backoff(1000, 0)

  /** `reset()`: forget the failures, keep the base. */
  function Reset(b: Backoff): Backoff
  {
    b.(failures := 0)
  }

  /** The update `setThreadDelay` applies: a new base, the same failure count. */
  function WithBaseMillis(b: Backoff, threadDelay: int): Backoff
  {
    b.(baseMillis := threadDelay)
  }

  /**
   * What a pending task will do when it runs: the start command (take a new snapshot),
   * a `ListenerRunnable` just submitted over a snapshot (its `run()`), or the runnable's
   * `run(index)` scheduled for a later item.
   */
  datatype Action<T> = StartCommand | RunSnapshot(items: seq<T>) | RunIndex(items: seq<T>, index: nat)

  /** A task handed to the executor: the action and the delay it was scheduled with. */
  datatype Scheduled<T> = Scheduled(action: Action<T>, delayMillis: int)

  /** An index scheduled by the runnable is always within its snapshot. */
  predicate WellFormed<T>(a: Action<T>)
  {
    a.RunIndex? ==> a.index < |a.items|
  }

  /** Running `a` applies the listener's task to an item of the snapshot. */
  predicate RunsItem<T>(a: Action<T>)
  {
    (a.RunSnapshot? && a.items != []) || (a.RunIndex? && a.index < |a.items|)
  }

  /** The index of the item `a` processes: `run()` starts at 0. */
  function ItemIndex<T>(a: Action<T>): nat
    requires RunsItem(a)
  {
    if a.RunSnapshot? then 0 else a.index
  }

  /** The item `a` processes. */
  function ItemOf<T>(a: Action<T>): T
    requires RunsItem(a)
  {
    a.items[ItemIndex(a)]
  }

  /** What the runnable schedules after processing its item: the next index, or the start command after the last. */
  function AfterItem<T>(a: Action<T>): Action<T>
    requires RunsItem(a)
  {
    var i := ItemIndex(a);
    if i + 1 < |a.items| then RunIndex(a.items, i + 1) else StartCommand
  }

  /** The action pending after `k` uninterrupted runs starting from `a`. */
  function Advance<T>(a: Action<T>, k: nat): Action<T>
    decreases k
  {
    if k == 0 || !RunsItem(a) then a else Advance(AfterItem(a), k - 1)
  }

  /** From index `i`, `k` runs reach index `i + k`, or the start command once the snapshot is used up. */
  lemma {:induction false} AdvanceFromIndex<T>(items: seq<T>, i: nat, k: nat)
    requires i < |items|
    ensures Advance(RunIndex(items, i), k) == if i + k < |items| then RunIndex(items, i + k) else StartCommand
    decreases k
  {
    if k > 0 {
      if i + 1 < |items| {
        AdvanceFromIndex(items, i + 1, k - 1);
      } else {
        assert AfterItem(RunIndex(items, i)) == StartCommand;
        assert Advance<T>(StartCommand, k - 1) == StartCommand;
      }
    }
  }

  /**
   * A runnable over a non-empty snapshot processes the items in index order, the k-th
   * run taking item k, and after the last item the start command is pending.
   */
  lemma VisitsItemsInOrder<T>(items: seq<T>, k: nat)
    requires k < |items|
    ensures RunsItem(Advance(RunSnapshot(items), k)) && ItemOf(Advance(RunSnapshot(items), k)) == items[k]
    ensures Advance(RunSnapshot(items), |items|) == StartCommand
  {
    var first := RunSnapshot(items);
    assert AfterItem(first) == AfterItem(RunIndex(items, 0));
    if k > 0 {
      AdvanceFromIndex(items, 0, k);
      assert Advance(first, k) == Advance(RunIndex(items, 0), k);
    }
    AdvanceFromIndex(items, 0, |items|);
    assert Advance(first, |items|) == Advance(RunIndex(items, 0), |items|);
  }

  /**
   * The effect of `updateListener` on `l`, sequentially: afterwards a task is pending
   * iff the listener should run; a pending task is never replaced; a stopped listener
   * that should run is scheduled to start after the backoff delay; the backoff is reset
   * exactly when a pending task is cleared.
   */
  twostate predicate UpdatedBy<T>(l: Listener<T>, stop: bool)
    reads l
  {
    && (l.future.Some? <==> !stop)
    && (!stop && old(l.future).Some? ==> l.future == old(l.future))
    && (!stop && old(l.future).None? ==> l.future == Some(Scheduled(StartCommand, l.delayOf(old(l.backoff)))))
    && l.backoff == if stop && old(l.future).Some? then Reset(old(l.backoff)) else old(l.backoff)
  }

  /** The scheduling state of one listener kind. */
  class Listener<T> {
    /** The pending task, or null when the listener is stopped. */
    var future: Option<Scheduled<T>>
    var backoff: Backoff
    /** `backoff.get()`: the delay the strategy yields; its formula is not part of this model. */
    const delayOf: Backoff -> int

    ghost predicate Valid()
      reads this
    {
      future.Some? ==> WellFormed(future.value.action)
    }

    constructor (delayOf: Backoff -> int)
      ensures Valid() && future.None? && backoff == DefaultBackoff && this.delayOf == delayOf
    {
      future := None;
      backoff := DefaultBackoff;
      this.delayOf := delayOf;
    }

    /**
     * `updateListener`: a stopped listener whose set is non-empty is scheduled to start
     * after the backoff delay; a running listener whose set is empty is cleared and its
     * backoff reset. A present handle is never replaced.
     */
    method Update(stop: bool)
      requires Valid()
      modifies this
      ensures Valid()
      ensures UpdatedBy(this, stop)
    {
      if stop {
        if future.Some? {
          future := None;
          backoff := Reset(backoff);
        }
      } else {
        if future.None? {
          future := Some(Scheduled(StartCommand, delayOf(backoff)));
        }
      }
    }

    /** The start command: a running listener submits a runnable over `snapshot`, to run at once. */
    method Restart(snapshot: seq<T>)
      requires Valid()
      modifies this
      ensures Valid()
      ensures future == if old(future).Some? then Some(Scheduled(RunSnapshot(snapshot), 0)) else None
      ensures backoff == old(backoff)
    {
      if future.Some? {
        future := Some(Scheduled(RunSnapshot(snapshot), 0));
      }
    }

    /** `run()` on an empty snapshot: reset the backoff, then start again after its delay. */
    method RescheduleAfterEmpty()
      requires Valid()
      modifies this
      ensures Valid()
      ensures old(future).Some? ==>
        backoff == Reset(old(backoff)) && future == Some(Scheduled(StartCommand, delayOf(Reset(old(backoff)))))
      ensures old(future).None? ==> future.None? && backoff == old(backoff)
    {
      if future.Some? {
        backoff := Reset(backoff);
        future := Some(Scheduled(StartCommand, delayOf(backoff)));
      }
    }

    /**
     * The end of `run(index)`: schedule the next item, or the start command after the
     * last one, with no delay when the task reported that none is needed and the
     * backoff delay otherwise.
     */
    method RescheduleAfterItem(running: Action<T>, skipDelay: bool)
      requires Valid() && RunsItem(running)
      modifies this
      ensures Valid()
      ensures future == if old(future).Some?
                        then Some(Scheduled(AfterItem(running), if skipDelay then 0 else delayOf(backoff)))
                        else None
      ensures backoff == old(backoff)
    {
      if future.Some? {
        future := Some(Scheduled(AfterItem(running), if skipDelay then 0 else delayOf(backoff)));
      }
    }

    /** `backoff.get().reset()` after a successful request. */
    method ResetBackoff()
      requires Valid()
      modifies this
      ensures Valid()
      ensures backoff == Reset(old(backoff)) && future == old(future)
    {
      backoff := Reset(backoff);
    }

    /** The `setThreadDelay` update of this listener's strategy. */
    method SetBaseMillis(threadDelay: int)
      requires Valid()
      modifies this
      ensures Valid()
      ensures backoff == WithBaseMillis(old(backoff), threadDelay) && future == old(future)
    {
      backoff := WithBaseMillis(backoff, threadDelay);
    }

    /** `getAndSet(null)` followed by cancelling what was pending. */
    method Clear()
      requires Valid()
      modifies this
      ensures Valid()
      ensures future.None? && backoff == old(backoff)
    {
      future := None;
    }
  }
}
