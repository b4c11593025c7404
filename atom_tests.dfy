/** Client methods that replay the scenarios of tests/core/atom.test.ts against
    the value cell's contracts, and a few more scenarios the source promises.
    Listener 1 plays the test suites' spy; what it received is read off the
    cell's log. */
module AtomScenarios {
  import opened Cell
  import opened AtomCell

  const Spy: ListenerId := 1

  /** A cell created with 42 reads 42. */
  method CreatesWithInitialValue() returns (v: int)
    ensures v == 42
  {
    var a := new Atom(42);
    v := a.Get();
  }

  /** Setting 5 on a cell holding 0 leaves it reading 5. */
  method UpdatesValue() returns (v: int)
    ensures v == 5
  {
    var a := new Atom(0);
    a.Set(Direct(5));
    v := a.Get();
  }

  /** Setting with `prev => prev + 5` on a cell holding 10 leaves it reading 15. */
  method UpdatesWithFunction() returns (v: int)
    ensures v == 15
  {
    var a := new Atom(10);
    a.Set(Apply(prev => prev + 5));
    v := a.Get();
  }

  /** A subscriber is called with 5 when the value changes to 5. */
  method NotifiesSubscribers() returns (received: seq<int>)
    ensures received == [5]
  {
    var a := new Atom(0);
    var _ := a.Subscribe(Spy);
    a.Set(Direct(5));
    received := Inbox(a.log, Spy);
  }

  /** Setting the value a cell already holds calls no subscriber. */
  method SameValueDoesNotNotify() returns (received: seq<int>)
    ensures received == []
  {
    var a := new Atom(5);
    var _ := a.Subscribe(Spy);
    a.Set(Direct(5));
    received := Inbox(a.log, Spy);
  }

  /** After its unsubscribe handle is called, a listener is not called by a
      change. */
  method UnsubscribesCorrectly() returns (received: seq<int>)
    ensures received == []
  {
    var a := new Atom(0);
    var unsubscribe := a.Subscribe(Spy);
    unsubscribe.Unsubscribe();
    a.Set(Direct(5));
    received := Inbox(a.log, Spy);
  }

  /** A record value updated with a spread-style updater. */
  datatype Counter = Counter(count: int, name: string)

  /** Updating one field of a record value leaves the other as it was. */
  method WorksWithComplexObjects() returns (v: Counter)
    ensures v.count == 1 && v.name == "test"
  {
    var a := new Atom(Counter(0, "test"));
    a.Set(Apply((prev: Counter) => prev.(count := prev.count + 1)));
    v := a.Get();
  }

  /** Three increments on a cell holding 0 deliver 1, 2 and 3 to a subscriber,
      one call per change, and leave the cell at 3. */
  method IncrementThrice() returns (received: seq<int>, v: int)
    ensures received == [1, 2, 3] && v == 3
  {
    var a := new Atom(0);
    var _ := a.Subscribe(Spy);
    a.Set(Apply(n => n + 1));
    a.Set(Apply(n => n + 1));
    a.Set(Apply(n => n + 1));
    received := Inbox(a.log, Spy);
    v := a.Get();
  }

  /** Subscribing the same listener twice registers it once, so a change calls
      it once; calling both handles is safe and silences it. */
  method SubscribeTwiceNotifiesOnce() returns (received: seq<int>, afterUnsubscribe: seq<int>)
    ensures received == [5] && afterUnsubscribe == [5]
  {
    var a := new Atom(0);
    var first := a.Subscribe(Spy);
    var second := a.Subscribe(Spy);
    a.Set(Direct(5));
    received := Inbox(a.log, Spy);
    first.Unsubscribe();
    second.Unsubscribe();
    a.Set(Direct(6));
    afterUnsubscribe := Inbox(a.log, Spy);
  }
}
