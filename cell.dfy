/** The contract both cells share (src/types/index.ts): get, set with a value or
    an updater, subscribe returning an unsubscribe handle. This module holds the
    vocabulary the two cell modules use: listener identities, the argument of
    set, and the record of listener invocations. */
module Cell {

  /** A listener is known to a cell only by its identity: the JavaScript `Set`
      of listeners compares function references, so two registrations of the
      same reference are one entry. */
  type ListenerId = nat

  /** The argument of set: a replacement value, or an updater applied to the
      current value. The source tells the two apart with a `typeof` test. */
  datatype Update<!T> = Direct(v: T) | Apply(f: T -> T)

  /** One invocation of a listener, with the value it was called with. */
  datatype Call<T> = Call(listener: ListenerId, value: T)

  /** The listeners named by a sequence of calls, with multiplicity. */
  function Targets<T>(calls: seq<Call<T>>): (targets: multiset<ListenerId>)
  {
    if calls == [] then multiset{}
    else Targets(calls[..|calls| - 1]) + multiset{calls[|calls| - 1].listener}
  }

  /** The values listener `l` was called with, in order. */
  function Inbox<T>(calls: seq<Call<T>>, l: ListenerId): (received: seq<T>)
  {
    if calls == [] then []
    else
      var last := calls[|calls| - 1];
      Inbox(calls[..|calls| - 1], l) + (if last.listener == l then [last.value] else [])
  }

  /** Every call in `calls` passes the value `v`. */
  ghost predicate AllCarry<T>(calls: seq<Call<T>>, v: T)
  {
    forall i :: 0 <= i < |calls| ==> calls[i].value == v
  }

  /** What a listener receives from two batches of calls is what it receives
      from the first followed by what it receives from the second. */
  lemma {:induction false} InboxAppend<T>(a: seq<Call<T>>, b: seq<Call<T>>, l: ListenerId)
    ensures Inbox(a + b, l) == Inbox(a, l) + Inbox(b, l)
  {
    if b == [] {
      assert a + b == a;
    } else {
      var b' := b[..|b| - 1];
      assert (a + b)[..|a + b| - 1] == a + b';
      InboxAppend(a, b', l);
    }
  }

  /** In a batch of calls that all pass `v`, listener `l` receives `v` exactly
      as many times as the batch names it. */
  lemma {:induction false} UniformInbox<T>(calls: seq<Call<T>>, v: T, l: ListenerId)
    requires AllCarry(calls, v)
    ensures Inbox(calls, l) == seq(Targets(calls)[l], _ => v)
  {
    if calls != [] {
      var prefix := calls[..|calls| - 1];
      assert AllCarry(prefix, v) by {
        forall i | 0 <= i < |prefix| ensures prefix[i].value == v {
          assert prefix[i] == calls[i];
        }
      }
      UniformInbox(prefix, v, l);
      assert calls[|calls| - 1].value == v;
    }
  }

  /** A batch that names each listener of `ls` exactly once, each time with
      `v`, delivers `v` once to every member of `ls` and nothing to anyone else. */
  lemma DeliveryInbox<T>(calls: seq<Call<T>>, ls: set<ListenerId>, v: T, l: ListenerId)
    requires Targets(calls) == multiset(ls)
    requires AllCarry(calls, v)
    ensures Inbox(calls, l) == if l in ls then [v] else []
  {
    UniformInbox(calls, v, l);
  }
}
