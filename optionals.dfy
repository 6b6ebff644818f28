/** Optionals.java: the first present value among several alternatives. */
module Optionals {
  import opened Wrappers

  /** The first present element of opts, in order, or empty when there is none. */
  function FirstPresent<T>(opts: seq<Option<T>>): (r: Option<T>)
    ensures r.None? <==> forall i | 0 <= i < |opts| :: opts[i].None?
    ensures r.Some? ==> r in opts
  {
    if opts == [] then None
    else if opts[0].Some? then opts[0]
    else
      var rest := FirstPresent(opts[1..]);
      assert forall i | 1 <= i < |opts| :: opts[i] == opts[1..][i - 1];
      rest
  }

  /** The position of the first present element, or |opts| when there is none. */
  function FirstPresentIndex<T>(opts: seq<Option<T>>): (k: nat)
    ensures k <= |opts|
    ensures forall j | 0 <= j < k :: opts[j].None?
    ensures k < |opts| ==> opts[k].Some?
  {
    if opts == [] then 0
    else if opts[0].Some? then 0
    else
      var k := FirstPresentIndex(opts[1..]) + 1;
      assert forall j | 1 <= j < k :: opts[j] == opts[1..][j - 1];
      k
  }

  /** The result is exactly the element at the first present position, unaltered. */
  lemma {:induction false} FirstPresentAt<T>(opts: seq<Option<T>>)
    ensures var k := FirstPresentIndex(opts);
            FirstPresent(opts) == if k < |opts| then opts[k] else None
  {
    if opts != [] && opts[0].None? {
      FirstPresentAt(opts[1..]);
    }
  }

  /** Later alternatives matter only when every earlier one is empty. */
  lemma {:induction false} FirstPresentAppend<T>(a: seq<Option<T>>, b: seq<Option<T>>)
    ensures FirstPresent(a + b) == if FirstPresent(a).Some? then FirstPresent(a) else FirstPresent(b)
  {
    if a != [] {
      assert (a + b)[0] == a[0];
      assert (a + b)[1..] == a[1..] + b;
      if a[0].None? {
        FirstPresentAppend(a[1..], b);
      }
    } else {
      assert a + b == b;
    }
  }

  /** Three alternatives, as Optionals.first(a, b, c) is called for a region. */
  lemma FirstPresentOfThree<T>(a: Option<T>, b: Option<T>, c: Option<T>)
    ensures FirstPresent([a, b, c]) == if a.Some? then a else if b.Some? then b else c
  {
    assert FirstPresent([c]) == c by {
      assert [c][1..] == [];
    }
    assert FirstPresent([b, c]) == if b.Some? then b else c by {
      assert [b, c][1..] == [c];
    }
    assert [a, b, c][1..] == [b, c];
  }

  /** The values the suppliers would yield, in order. */
  function Supplied<T>(suppliers: seq<() -> Option<T>>): (opts: seq<Option<T>>)
    ensures |opts| == |suppliers|
    ensures forall i | 0 <= i < |suppliers| :: opts[i] == suppliers[i]()
  {
    seq(|suppliers|, i requires 0 <= i < |suppliers| => suppliers[i]())
  }

  /**
   * Optionals.first(Supplier...): call the suppliers in order and return the first
   * present result. invoked counts the suppliers called; none after the first
   * present one is called.
   */
  method FirstSupplied<T>(suppliers: seq<() -> Option<T>>) returns (r: Option<T>, invoked: nat)
    ensures r == FirstPresent(Supplied(suppliers))
    ensures var k := FirstPresentIndex(Supplied(suppliers));
            invoked == if k < |suppliers| then k + 1 else |suppliers|
  {
    ghost var opts := Supplied(suppliers);
    FirstPresentAt(opts);
    invoked := 0;
    for i := 0 to |suppliers|
      invariant invoked == i
      invariant forall j | 0 <= j < i :: opts[j].None?
    {
      var optional := suppliers[i]();
      invoked := invoked + 1;
      if optional.Some? {
        return optional, invoked;
      }
    }
    return None, invoked;
  }

  /** Optionals.first(Optional...): the first present value among already evaluated ones. */
  method First<T>(optionals: seq<Option<T>>) returns (r: Option<T>)
    ensures r == FirstPresent(optionals)
  {
    FirstPresentAt(optionals);
    for i := 0 to |optionals|
      invariant forall j | 0 <= j < i :: optionals[j].None?
    {
      if optionals[i].Some? {
        return optionals[i];
      }
    }
    return None;
  }
}
