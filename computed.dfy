/** The derived cell created by `createComputed` (src/core/computed.ts). It calls
    its compute function once, eagerly, and caches the result; `get` returns the
    cache, `set` always fails, and subscribe and unsubscribe work on a listener
    set as in the value cell. Nothing ever changes the cache, so no listener is
    ever called. */
module ComputedCell {
  import opened Cell

  /** The error `set` throws on a derived cell. */
  datatype CellError = ReadOnlyViolation(message: string)

  /** Outcome of an operation that can only fail by signalling an error. */
  datatype Outcome<E> = Pass | Fail(error: E)

  /** The message of that error. */
  const ReadOnlyMessage: string := "Cannot set value on computed atom"

  class Computed<T> {
    /** The cached value: assigned once, by the constructor. The cell keeps no
        reference to the compute function, so nothing can recompute it. */
    const value: T
    /** Bookkeeping for the compute function's calls: the constructor, which
        calls it once, sets this to 1, and no method writes it. */
    var evaluations: nat
    var listeners: set<ListenerId>
    /** Every listener invocation the cell makes, in order. */
    var log: seq<Call<T>>

    /** `createComputed(computeFn)`: one call of `computeFn`, whose result is
        the cached value. */
    constructor (computeFn: () -> T)
      ensures value == computeFn() && evaluations == 1
      ensures listeners == {} && log == []
    {
      value := computeFn();
      evaluations := 1;
      listeners := {};
      log := [];
    }

    /** `get()`: the cached value, without calling the compute function. */
    method Get() returns (v: T)
      ensures v == value
    {
      v := value;
    }

    /** `set(...)`: always fails with the read-only error; nothing changes. */
    method Set(u: Update<T>) returns (r: Outcome<CellError>)
      ensures r == Fail(ReadOnlyViolation(ReadOnlyMessage))
    {
      r := Fail(ReadOnlyViolation(ReadOnlyMessage));
    }

    /** `subscribe(listener)`: register the listener and return its unsubscribe
        handle; the cache, the compute count and the log stay as they were. */
    method Subscribe(l: ListenerId) returns (unsubscribe: Subscription<T>)
      modifies this
      ensures fresh(unsubscribe) && unsubscribe.cell == this && unsubscribe.listener == l
      ensures listeners == old(listeners) + {l}
      ensures evaluations == old(evaluations) && log == old(log)
    {
      listeners := listeners + {l};
      unsubscribe := new Subscription(this, l);
    }
  }

  /** The unsubscribe closure that `subscribe` returns. */
  class Subscription<T> {
    const cell: Computed<T>
    const listener: ListenerId

    constructor (cell: Computed<T>, listener: ListenerId)
      ensures this.cell == cell && this.listener == listener
    {
      this.cell := cell;
      this.listener := listener;
    }

    /** Calling the handle removes its listener and nothing else. Calling it
        again right away changes nothing; a handle also removes a later
        re-subscription of the same listener. */
    method Unsubscribe()
      modifies cell
      ensures cell.listeners == old(cell.listeners) - {listener}
      ensures cell.evaluations == old(cell.evaluations) && cell.log == old(cell.log)
    {
      cell.listeners := cell.listeners - {listener};
    }
  }

  /** A derived cell over `() => 21 * 2`: two reads return the same cached value,
      the compute function ran once, a write fails and changes nothing, and no
      listener subscribed along the way is called. */
  method CachedAndReadOnly() returns (first: int, second: int, evaluations: nat, outcome: Outcome<CellError>, calls: nat)
    ensures first == 42 && second == 42 && evaluations == 1
    ensures outcome == Fail(ReadOnlyViolation(ReadOnlyMessage))
    ensures calls == 0
  {
    var c := new Computed(() => 21 * 2);
    var unsubscribe := c.Subscribe(7);
    first := c.Get();
    outcome := c.Set(Direct(0));
    second := c.Get();
    unsubscribe.Unsubscribe();
    unsubscribe.Unsubscribe();
    evaluations := c.evaluations;
    calls := |c.log|;
  }
}
