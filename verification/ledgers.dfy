/** The per-callable storage of the engine: one `Slot` per mocked callable
    (the source's `mockPropData`), holding one `Ledger` per receiver. */
module Ledgers {

  import opened Wrappers
  import opened Values

  /** A programmed return: a value given back (called first when it is a
      function), an exception declared with `thenThrow`, or the throwing
      placeholder `when()` installs until a return is declared. */
  datatype Ret = Give(v: Value) | Raise(reason: Value) | Unassigned

  /** The stored calls of one (callable, receiver) pair: argument patterns,
      their returns and their call counters, index-aligned, plus the index
      answering zero-argument calls. */
  datatype Ledger = Ledger(
    noArgsIndex: Option<nat>,
    args: seq<seq<Value>>,
    rets: seq<Ret>,         // the source's `returns`
    calls: seq<int>)

  /** One mocked callable: the receivers seen so far and, index-aligned,
      their ledgers. */
  datatype Slot = Slot(isFunction: bool, contexts: seq<ContextKey>, mocks: seq<Ledger>)

  const EmptyLedger := Ledger(None, [], [], [])

  const FreshSlot := Slot(true, [], [])

  predicate LedgerOk(l: Ledger) {
    && |l.rets| == |l.args|
    && |l.calls| == |l.args|
    && (l.noArgsIndex.Some? ==> l.noArgsIndex.value < |l.args|)
  }

  predicate Distinct<T(==)>(xs: seq<T>) {
    forall i, j | 0 <= i < j < |xs| :: xs[i] != xs[j]
  }

  predicate SlotOk(s: Slot) {
    && |s.mocks| == |s.contexts|
    && Distinct(s.contexts)
    && forall c | 0 <= c < |s.mocks| :: LedgerOk(s.mocks[c])
  }

  /** `Array.prototype.indexOf` under strict equality: the first position
      holding `x`. */
  function IndexOf<T(==)>(xs: seq<T>, x: T): (r: Option<nat>)
    ensures r.Some? ==> r.value < |xs| && xs[r.value] == x && x !in xs[..r.value]
    ensures r.None? <==> x !in xs
  {
    if |xs| == 0 then None
    else if xs[0] == x then Some(0)
    else
      var r := IndexOf(xs[1..], x);
      if r.None? then None
      else
        assert xs[1..][..r.value] == xs[1..r.value + 1];
        assert xs[..r.value + 1] == [xs[0]] + xs[1..r.value + 1];
        Some(r.value + 1)
  }

  /** Context resolution: the ledger of the exact receiver if it has one,
      otherwise the ledger declared for any receiver, otherwise a new
      receiver entry with an empty ledger. Returns the (possibly extended)
      slot and the position of the ledger to use. */
  function Locate(s: Slot, ctx: ContextKey): (r: (Slot, nat))
    requires SlotOk(s)
    ensures SlotOk(r.0) && r.1 < |r.0.contexts|
    ensures ctx in s.contexts ==> r.0 == s && s.contexts[r.1] == ctx
    ensures ctx !in s.contexts && AnyContext in s.contexts ==>
              r.0 == s && s.contexts[r.1] == AnyContext
    ensures ctx !in s.contexts && AnyContext !in s.contexts ==>
              && r.0 == s.(contexts := s.contexts + [ctx], mocks := s.mocks + [EmptyLedger])
              && r.1 == |s.contexts|
  {
    var exact := IndexOf(s.contexts, ctx);
    var found := if exact.Some? then exact else IndexOf(s.contexts, AnyContext);
    if found.Some? then (s, found.value)
    else (s.(contexts := s.contexts + [ctx], mocks := s.mocks + [EmptyLedger]), |s.contexts|)
  }

  /** A call that matched no stored pattern becomes a new pattern: its live
      arguments, an `undefined` return and the counter `first`. The new
      pattern answers zero-argument calls when the call had no arguments
      or its first argument is the `Match.everything` marker. */
  function Register(l: Ledger, args: seq<Value>, first: int): (r: Ledger)
    requires LedgerOk(l)
    ensures LedgerOk(r)
    ensures r.args == l.args + [args]
    ensures r.rets == l.rets + [Give(Undefined)]
    ensures r.calls == l.calls + [first]
    ensures (|args| == 0 || IsMarker(args[0])) ==> r.noArgsIndex == Some(|l.args|)
    ensures !(|args| == 0 || IsMarker(args[0])) ==> r.noArgsIndex == l.noArgsIndex
  {
    var k := |l.args|;
    Ledger(
      if |args| == 0 || IsMarker(args[0]) then Some(k) else l.noArgsIndex,
      l.args + [args],
      l.rets + [Give(Undefined)],
      l.calls + [first])
  }
}
