/** The value cell created by `createAtom` (src/core/atom.ts): one mutable value
    and a set of listeners, with get, set and subscribe.

    The module has two layers. A functional layer describes one operation on a
    cell's state (`Step`) and what each listener receives from it (`Emitted`),
    and lifts both to sequences of operations (`Run`, `Received`); the lemmas
    about whole sequences are stated there. The class `Atom` is the imperative
    cell, and each of its methods is proved to perform exactly one `Step` and to
    deliver exactly what `Emitted` says. */
module AtomCell {
  import opened Cell

  /** The replacement value set computes from its argument: the updater applied
      to the current value, or the argument itself. */
  function Resolve<T>(current: T, u: Update<T>): (next: T)
    ensures u.Direct? ==> next == u.v
    ensures u.Apply? ==> next == u.f(current)
  {
    match u
    case Direct(v) => v
    case Apply(f) => f(current)
  }

  /** The observable state of a value cell. */
  datatype CellState<T> = CellState(value: T, listeners: set<ListenerId>)

  /** The operations of the cell's contract: get, set, subscribe, and calling
      the unsubscribe handle of a listener. */
  datatype Op<!T> = GetOp | SetOp(u: Update<T>) | SubscribeOp(l: ListenerId) | UnsubscribeOp(l: ListenerId)

  /** The state after one operation. A set whose replacement equals the current
      value leaves the state as it was. */
  function Step<T(==)>(s: CellState<T>, op: Op<T>): (s': CellState<T>)
    ensures op.SetOp? ==> s'.value == Resolve(s.value, op.u)
    ensures !op.SetOp? ==> s'.value == s.value
    ensures op.GetOp? || op.SetOp? ==> s'.listeners == s.listeners
    ensures op.SubscribeOp? ==> s'.listeners == s.listeners + {op.l}
    ensures op.UnsubscribeOp? ==> s'.listeners == s.listeners - {op.l}
  {
    match op
    case GetOp => s
    case SetOp(u) =>
      var next := Resolve(s.value, u);
      if next != s.value then s.(value := next) else s
    case SubscribeOp(l) => s.(listeners := s.listeners + {l})
    case UnsubscribeOp(l) => s.(listeners := s.listeners - {l})
  }

  /** The values listener `l` receives from one operation: the new value, once,
      when a set changes the value and `l` is registered; nothing otherwise. */
  function Emitted<T(==)>(s: CellState<T>, op: Op<T>, l: ListenerId): (delivered: seq<T>)
    ensures |delivered| <= 1
    ensures delivered != [] <==> op.SetOp? && Step(s, op).value != s.value && l in s.listeners
    ensures delivered != [] ==> delivered == [Step(s, op).value]
  {
    match op
    case SetOp(u) =>
      var next := Resolve(s.value, u);
      if next != s.value && l in s.listeners then [next] else []
    case _ => []
  }

  /** The state after a sequence of operations. */
  function Run<T(==)>(s: CellState<T>, ops: seq<Op<T>>): (final: CellState<T>)
    decreases |ops|
  {
    if ops == [] then s else Run(Step(s, ops[0]), ops[1..])
  }

  /** The values listener `l` receives, in order, over a sequence of operations. */
  function Received<T(==)>(s: CellState<T>, ops: seq<Op<T>>, l: ListenerId): (received: seq<T>)
    decreases |ops|
  {
    if ops == [] then [] else Emitted(s, ops[0], l) + Received(Step(s, ops[0]), ops[1..], l)
  }

  /** The last value in `r`, or `v` when `r` is empty. */
  function Latest<T>(v: T, r: seq<T>): (latest: T)
  {
    if r == [] then v else r[|r| - 1]
  }

  /** No operation in `ops` subscribes `l`. */
  ghost predicate NeverSubscribes<T>(ops: seq<Op<T>>, l: ListenerId)
  {
    forall i :: 0 <= i < |ops| ==> !(ops[i].SubscribeOp? && ops[i].l == l)
  }

  /** No operation in `ops` unsubscribes `l`. */
  ghost predicate NeverUnsubscribes<T>(ops: seq<Op<T>>, l: ListenerId)
  {
    forall i :: 0 <= i < |ops| ==> !(ops[i].UnsubscribeOp? && ops[i].l == l)
  }

  /** Every operation in `ops` is a get or a set. */
  ghost predicate OnlyGetsAndSets<T>(ops: seq<Op<T>>)
  {
    forall i :: 0 <= i < |ops| ==> ops[i].GetOp? || ops[i].SetOp?
  }

  /** A listener that is not registered, and that nothing subscribes, receives
      nothing, however the value changes; in particular a listener whose
      unsubscribe handle has been called hears nothing from later sets. */
  lemma {:induction false} SilentWhileUnsubscribed<T>(s: CellState<T>, ops: seq<Op<T>>, l: ListenerId)
    requires l !in s.listeners
    requires NeverSubscribes(ops, l)
    ensures Received(s, ops, l) == []
    ensures l !in Run(s, ops).listeners
    decreases |ops|
  {
    if ops != [] {
      assert !(ops[0].SubscribeOp? && ops[0].l == l);
      assert NeverSubscribes(ops[1..], l) by {
        forall i | 0 <= i < |ops[1..]| ensures !(ops[1..][i].SubscribeOp? && ops[1..][i].l == l) {
          assert ops[1..][i] == ops[i + 1];
        }
      }
      SilentWhileUnsubscribed(Step(s, ops[0]), ops[1..], l);
    }
  }

  /** A listener that stays registered misses no change: the cell's final value
      is the last value the listener received, or the starting value when it
      received nothing. */
  lemma {:induction false} SubscriberSeesLatest<T>(s: CellState<T>, ops: seq<Op<T>>, l: ListenerId)
    requires l in s.listeners
    requires NeverUnsubscribes(ops, l)
    ensures Run(s, ops).value == Latest(s.value, Received(s, ops, l))
    decreases |ops|
  {
    if ops != [] {
      var s' := Step(s, ops[0]);
      assert !(ops[0].UnsubscribeOp? && ops[0].l == l);
      assert l in s'.listeners;
      assert NeverUnsubscribes(ops[1..], l) by {
        forall i | 0 <= i < |ops[1..]| ensures !(ops[1..][i].UnsubscribeOp? && ops[1..][i].l == l) {
          assert ops[1..][i] == ops[i + 1];
        }
      }
      SubscriberSeesLatest(s', ops[1..], l);
      var e, rest := Emitted(s, ops[0], l), Received(s', ops[1..], l);
      assert Received(s, ops, l) == e + rest;
      if rest == [] {
        assert e + rest == e;
        assert e == [] ==> s'.value == s.value;
        assert e != [] ==> e == [s'.value];
      } else {
        assert (e + rest)[|e + rest| - 1] == rest[|rest| - 1];
      }
    }
  }

  /** Gets and sets never change the listener set. */
  lemma {:induction false} SetsKeepListeners<T>(s: CellState<T>, ops: seq<Op<T>>)
    requires OnlyGetsAndSets(ops)
    ensures Run(s, ops).listeners == s.listeners
    decreases |ops|
  {
    if ops != [] {
      assert ops[0].GetOp? || ops[0].SetOp?;
      assert OnlyGetsAndSets(ops[1..]) by {
        forall i | 0 <= i < |ops[1..]| ensures ops[1..][i].GetOp? || ops[1..][i].SetOp? {
          assert ops[1..][i] == ops[i + 1];
        }
      }
      SetsKeepListeners(Step(s, ops[0]), ops[1..]);
    }
  }

  /** `op` with an updater replaced by the value it computes in state `s`. */
  function ResolvedOp<T>(s: CellState<T>, op: Op<T>): (op': Op<T>)
  {
    match op
    case SetOp(u) => SetOp(Direct(Resolve(s.value, u)))
    case _ => op
  }

  /** `ops` with every updater replaced by the value it computes at its turn. */
  function Resolved<T(==)>(s: CellState<T>, ops: seq<Op<T>>): (ops': seq<Op<T>>)
    decreases |ops|
  {
    if ops == [] then [] else [ResolvedOp(s, ops[0])] + Resolved(Step(s, ops[0]), ops[1..])
  }

  /** A set with an updater is a set with the updater's result on the value
      current at that moment: replacing every updater of a run by the value it
      computes gives the same final state and the same notifications. */
  lemma {:induction false} UpdaterIsDirectSet<T>(s: CellState<T>, ops: seq<Op<T>>, l: ListenerId)
    ensures Run(s, Resolved(s, ops)) == Run(s, ops)
    ensures Received(s, Resolved(s, ops), l) == Received(s, ops, l)
    decreases |ops|
  {
    if ops != [] {
      var r := Resolved(s, ops);
      var s' := Step(s, ops[0]);
      assert r[0] == ResolvedOp(s, ops[0]) && r[1..] == Resolved(s', ops[1..]);
      assert Step(s, r[0]) == s';
      assert Emitted(s, r[0], l) == Emitted(s, ops[0], l);
      UpdaterIsDirectSet(s', ops[1..], l);
    }
  }

  /** The notify loop of set: invokes every listener of `ls` once with `v`, in
      an order the model leaves open, and returns the calls made. */
  method Notify<T>(ls: set<ListenerId>, v: T) returns (calls: seq<Call<T>>)
    ensures Targets(calls) == multiset(ls)
    ensures AllCarry(calls, v)
  {
    var pending := ls;
    calls := [];
    while pending != {}
      invariant pending <= ls
      invariant Targets(calls) + multiset(pending) == multiset(ls)
      invariant AllCarry(calls, v)
      decreases pending
    {
      var l :| l in pending;
      var calls' := calls + [Call(l, v)];
      assert calls'[..|calls'| - 1] == calls;
      assert multiset(pending) == multiset(pending - {l}) + multiset{l} by {
        assert pending == (pending - {l}) + {l};
      }
      calls := calls';
      pending := pending - {l};
    }
  }

  /** A value cell. `log` records every listener invocation the cell makes, in
      order; it stands for the effect of calling the listeners. */
  class Atom<T(==)> {
    var value: T
    var listeners: set<ListenerId>
    var log: seq<Call<T>>

    /** The cell's observable state. */
    function State(): (s: CellState<T>)
      reads this
    {
      CellState(value, listeners)
    }

    /** `createAtom(initialValue)`: the cell holds the initial value, has no
        listeners and has called none. */
    constructor (initialValue: T)
      ensures value == initialValue && listeners == {} && log == []
    {
      value := initialValue;
      listeners := {};
      log := [];
    }

    /** `get()`: the current value; nothing changes. */
    method Get() returns (v: T)
      ensures v == value
    {
      v := value;
    }

    /** `set(newValue)`: compute the replacement; on an actual change store it
        and call every listener registered at the time of the call once with
        it. */
    method Set(u: Update<T>)
      modifies this
      ensures State() == Step(old(State()), SetOp(u))
      ensures value == Resolve(old(value), u)
      ensures listeners == old(listeners)
      ensures value == old(value) ==> log == old(log)
      ensures |old(log)| <= |log| && log[..|old(log)|] == old(log)
      ensures value != old(value) ==>
        Targets(log[|old(log)|..]) == multiset(listeners) && AllCarry(log[|old(log)|..], value)
      ensures forall l :: Inbox(log, l) == Inbox(old(log), l) + Emitted(old(State()), SetOp(u), l)
    {
      var next := Resolve(value, u);
      if next != value {
        value := next;
        var calls := Notify(listeners, value);
        forall l ensures Inbox(log + calls, l) == Inbox(log, l) + Emitted(old(State()), SetOp(u), l) {
          InboxAppend(log, calls, l);
          DeliveryInbox(calls, listeners, value, l);
        }
        log := log + calls;
        assert log[|old(log)|..] == calls;
      }
    }

    /** `subscribe(listener)`: register the listener (a second registration of
        the same listener adds nothing) and return its unsubscribe handle. */
    method Subscribe(l: ListenerId) returns (unsubscribe: Subscription<T>)
      modifies this
      ensures fresh(unsubscribe) && unsubscribe.cell == this && unsubscribe.listener == l
      ensures State() == Step(old(State()), SubscribeOp(l))
      ensures listeners == old(listeners) + {l}
      ensures value == old(value) && log == old(log)
    {
      listeners := listeners + {l};
      unsubscribe := new Subscription(this, l);
    }
  }

  /** The unsubscribe closure that `subscribe` returns: it captures the cell and
      the listener it registered. */
  class Subscription<T(==)> {
    const cell: Atom<T>
    const listener: ListenerId

    constructor (cell: Atom<T>, listener: ListenerId)
      ensures this.cell == cell && this.listener == listener
    {
      this.cell := cell;
      this.listener := listener;
    }

    /** Calling the handle removes its listener and nothing else. Calling it
        again right away changes nothing; a handle also removes a later
        re-subscription of the same listener, since listeners are known only
        by identity. */
    method Unsubscribe()
      modifies cell
      ensures cell.State() == Step(old(cell.State()), UnsubscribeOp(listener))
      ensures cell.listeners == old(cell.listeners) - {listener}
      ensures cell.value == old(cell.value) && cell.log == old(cell.log)
    {
      cell.listeners := cell.listeners - {listener};
    }
  }

  /** Any sequence of calls on a cell, as a client makes them: a get, a set, a
      subscribe, or a call of the unsubscribe handle of a listener. The cell
      ends in the state `Run` gives, and each listener receives exactly what
      `Received` gives; so the lemmas about `Run` and `Received` hold of every
      sequence of calls on an `Atom`. */
  method Replay<T(==)>(a: Atom<T>, ops: seq<Op<T>>)
    modifies a
    ensures a.State() == Run(old(a.State()), ops)
    ensures forall l :: Inbox(a.log, l) == Inbox(old(a.log), l) + Received(old(a.State()), ops, l)
  {
    var i := 0;
    while i < |ops|
      invariant 0 <= i <= |ops|
      invariant Run(a.State(), ops[i..]) == Run(old(a.State()), ops)
      invariant forall l :: Inbox(a.log, l) + Received(a.State(), ops[i..], l)
                           == Inbox(old(a.log), l) + Received(old(a.State()), ops, l)
    {
      assert ops[i..][0] == ops[i] && ops[i..][1..] == ops[i + 1..];
      match ops[i] {
        case GetOp =>
          var _ := a.Get();
        case SetOp(u) =>
          a.Set(u);
        case SubscribeOp(l) =>
          var _ := a.Subscribe(l);
        case UnsubscribeOp(l) =>
          var handle := new Subscription(a, l);
          handle.Unsubscribe();
      }
      i := i + 1;
    }
    assert ops[i..] == [];
  }
}
