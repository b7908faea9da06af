/** The interception engine: the shared state the source keeps in module
    globals, the replacement function installed for every mocked callable,
    and the `when`/`thenReturn`/`thenThrow`/`Acts`/`verify` API. Every
    operation is a pure step from one engine state to the next, paired with
    its result or the error it raises. */
module Mocking {

  import opened Wrappers
  import opened Values
  import opened Ledgers
  import opened Matcher
  import opened Cardinalities
  import P = Protocol

  datatype Error =
    | Unexpected(expected: P.Expect, got: P.Action)  // the consistency check failed
    | NoPendingCall                                  // `when()` with no unmatched call to attach to
    | NoReturnTarget                                 // `thenReturn` before any `when()`
    | UnsupportedType(target: Value)                 // `Mock` of a non-function, non-object
    | Raised(reason: Value)                          // a call whose return was declared by `thenThrow`
    | ReturnNotDeclared                              // a call after `when()` but before `thenReturn`
    | ExpectationFailed(card: Cardinality, times: int)

  /** A stored pattern: slot, receiver position in that slot, pattern
      position in that ledger (the source's `tempMockData`/`tempMockIndex`
      pair and `WhenWhat.prop`/`returnIndex` pair). */
  datatype Ptr = Ptr(slot: nat, ctx: nat, index: nat)

  /** The whole engine state. `pending` is the most recently touched pattern
      that `when()` attaches to; `whenTarget` is the pattern `thenReturn`
      writes; `saved` is the `andSave`/`teardown` registry. */
  datatype Engine = Engine(
    expectations: P.Expect,
    verifying: bool,
    pending: Option<Ptr>,
    whenTarget: Option<Ptr>,
    slots: seq<Slot>,
    saved: map<string, Value>)

  /** The state after an operation, with its result or the error it raised.
      The source does not roll back on an error, so the state of a failed
      operation keeps every change made before the error was raised. */
  datatype Step<T> = Step(engine: Engine, out: Result<T, Error>)

  const Initial := Engine(P.Normal, false, None, None, [], map[])

  predicate PtrOk(slots: seq<Slot>, p: Ptr) {
    && p.slot < |slots|
    && p.ctx < |slots[p.slot].mocks|
    && LedgerOk(slots[p.slot].mocks[p.ctx])
    && p.index < |slots[p.slot].mocks[p.ctx].args|
  }

  function LedgerAt(slots: seq<Slot>, p: Ptr): Ledger
    requires PtrOk(slots, p)
  {
    slots[p.slot].mocks[p.ctx]
  }

  function CountAt(slots: seq<Slot>, p: Ptr): int
    requires PtrOk(slots, p)
  {
    LedgerAt(slots, p).calls[p.index]
  }

  function RetAt(slots: seq<Slot>, p: Ptr): Ret
    requires PtrOk(slots, p)
  {
    LedgerAt(slots, p).rets[p.index]
  }

  /** The invariant every reachable state keeps: slots well formed, both
      pattern pointers valid, the verification flag set exactly in
      `AfterActs`, the just-registered pattern counted once in
      `AfterSetCall`, and a return target present in `AfterWhen`. */
  predicate Valid(e: Engine) {
    && (forall s | 0 <= s < |e.slots| :: SlotOk(e.slots[s]))
    && (e.pending.Some? ==> PtrOk(e.slots, e.pending.value))
    && (e.whenTarget.Some? ==> PtrOk(e.slots, e.whenTarget.value))
    && (e.verifying <==> e.expectations == P.AfterActs)
    && (e.expectations == P.AfterSetCall ==>
          e.pending.Some? && PtrOk(e.slots, e.pending.value) && CountAt(e.slots, e.pending.value) == 1)
    && (e.expectations == P.AfterWhen ==> e.whenTarget.Some?)
  }

  /** Stored patterns are only ever appended: no slot, receiver or pattern
      disappears or changes. */
  predicate Grows(e: Engine, e': Engine) {
    && |e.slots| <= |e'.slots|
    && forall s | 0 <= s < |e.slots| :: SlotGrows(e.slots[s], e'.slots[s])
  }

  predicate SlotGrows(a: Slot, b: Slot) {
    && a.contexts <= b.contexts
    && |a.mocks| <= |b.mocks|
    && forall c | 0 <= c < |a.mocks| :: a.mocks[c].args <= b.mocks[c].args
  }

  /** Every counter of `e` is still there in `e'` and unchanged, except the
      one at `p`, which moved by `delta`. */
  ghost predicate CountsMoved(e: Engine, e': Engine, p: Option<Ptr>, delta: int) {
    forall q | PtrOk(e.slots, q) ::
      PtrOk(e'.slots, q) && CountAt(e'.slots, q) == CountAt(e.slots, q) + (if p == Some(q) then delta else 0)
  }

  /** Replaces the ledger at slot `s`, receiver position `c`. */
  function Store(slots: seq<Slot>, s: nat, c: nat, l: Ledger): (r: seq<Slot>)
    requires s < |slots| && c < |slots[s].mocks|
    ensures |r| == |slots|
    ensures forall t | 0 <= t < |slots| && t != s :: r[t] == slots[t]
    ensures r[s].contexts == slots[s].contexts && |r[s].mocks| == |slots[s].mocks|
    ensures forall d | 0 <= d < |slots[s].mocks| && d != c :: r[s].mocks[d] == slots[s].mocks[d]
    ensures r[s].mocks[c] == l
  {
    slots[s := slots[s].(mocks := slots[s].mocks[c := l])]
  }

  /** Storing a well-formed ledger that keeps every pattern of the old one
      (and may append more) keeps all slots well formed, keeps every valid
      pointer valid, and leaves every other ledger as it was. */
  lemma StoreKeeps(slots: seq<Slot>, s: nat, c: nat, l: Ledger)
    requires s < |slots| && c < |slots[s].mocks|
    requires forall t | 0 <= t < |slots| :: SlotOk(slots[t])
    requires LedgerOk(l) && slots[s].mocks[c].args <= l.args
    ensures forall t | 0 <= t < |slots| :: SlotOk(Store(slots, s, c, l)[t])
    ensures SlotGrows(slots[s], Store(slots, s, c, l)[s])
    ensures forall q | PtrOk(slots, q) ::
              && PtrOk(Store(slots, s, c, l), q)
              && ((q.slot != s || q.ctx != c) ==> LedgerAt(Store(slots, s, c, l), q) == LedgerAt(slots, q))
  {
    var r := Store(slots, s, c, l);
    assert SlotOk(r[s]) by {
      forall d | 0 <= d < |r[s].mocks|
        ensures LedgerOk(r[s].mocks[d])
      {
        if d != c {
          assert LedgerOk(slots[s].mocks[d]);
        }
      }
    }
  }

  /** What a matched call in recording mode gives back: a function return is
      called with the call's receiver and arguments, a declared exception or
      the placeholder of an unfinished `when()` raises, anything else is
      returned as it is. */
  function Reply(host: Host, r: Ret, ctx: ContextKey, args: seq<Value>): (res: Result<Value, Error>)
    ensures res.Err? <==> !r.Give?
    ensures r.Give? && !r.v.Fn? ==> res == Ok(r.v)
    ensures r.Raise? ==> res == Err(Raised(r.reason))
  {
    match r
    case Give(v) => if v.Fn? then Ok(Apply(host, v.f, ctx, args)) else Ok(v)
    case Raise(x) => Err(Raised(x))
    case Unassigned => Err(ReturnNotDeclared)
  }

  /** A matched call in recording mode: the GET_CALL check comes first, so a
      rejected call changes no counter; an accepted one adds one to the
      matched counter and gives back the programmed return. */
  function Replay(host: Host, e: Engine, p: Ptr, ctx: ContextKey, args: seq<Value>): (st: Step<Value>)
    requires Valid(e) && PtrOk(e.slots, p) && !e.verifying
    ensures Valid(st.engine) && Grows(e, st.engine) && st.engine.saved == e.saved
    ensures |st.engine.slots| == |e.slots|
    ensures forall t | 0 <= t < |e.slots| && t != p.slot :: st.engine.slots[t] == e.slots[t]
    ensures st.engine.pending == Some(p)
    ensures !P.Permits(e.expectations, P.GetCall) ==>
              st.engine == e.(pending := Some(p)) && st.out == Err(Unexpected(e.expectations, P.GetCall))
    ensures P.Permits(e.expectations, P.GetCall) ==>
              && CountsMoved(e, st.engine, Some(p), 1)
              && SamePatterns(e, st.engine)
              && RetsKept(e, st.engine, None)
              && st.engine == e.(slots := st.engine.slots, expectations := P.AfterGetCall, pending := Some(p))
              && st.out == Reply(host, RetAt(e.slots, p), ctx, args)
  {
    var e1 := e.(pending := Some(p));
    if !P.Permits(e.expectations, P.GetCall) then
      Step(e1, Err(Unexpected(e.expectations, P.GetCall)))
    else
      var l := LedgerAt(e.slots, p);
      var l' := l.(calls := l.calls[p.index := l.calls[p.index] + 1]);
      StoreKeeps(e.slots, p.slot, p.ctx, l');
      var e2 := e1.(slots := Store(e.slots, p.slot, p.ctx, l'), expectations := P.AfterGetCall);
      Step(e2, Reply(host, l.rets[p.index], ctx, args))
  }

  /** The end of a verification-mode call: after the CHECK_CALLS check the
      flag is cleared, the state becomes `AfterCheckCalls` and the stored
      count of the pending pattern is the call's result. */
  function Report(e: Engine): (st: Step<Value>)
    requires Valid(e) && e.verifying && e.pending.Some?
    ensures Valid(st.engine)
    ensures st.engine == e.(verifying := false, expectations := P.AfterCheckCalls, pending := None)
    ensures st.out == Ok(Num(CountAt(e.slots, e.pending.value)))
  {
    if !P.Permits(e.expectations, P.CheckCalls) then
      Step(e, Err(Unexpected(e.expectations, P.CheckCalls)))
    else
      var times := CountAt(e.slots, e.pending.value);
      Step(e.(verifying := false, expectations := P.AfterCheckCalls, pending := None), Ok(Num(times)))
  }

  /** The registration of a call that matched no pattern: its arguments
      become a new pattern of ledger `c` of slot `s`, counted once in
      recording mode and zero times in verification mode, and it becomes the
      pending pattern. No existing counter changes. */
  function Registered(e: Engine, s: nat, c: nat, args: seq<Value>): (e1: Engine)
    requires Valid(e) && s < |e.slots| && c < |e.slots[s].mocks|
    ensures Valid(e1) && Grows(e, e1) && CountsMoved(e, e1, None, 0)
    ensures |e1.slots| == |e.slots|
    ensures forall t | 0 <= t < |e.slots| && t != s :: e1.slots[t] == e.slots[t]
    ensures e1.slots[s].contexts == e.slots[s].contexts
    ensures e1.slots[s].mocks ==
              e.slots[s].mocks[c := Register(e.slots[s].mocks[c], args, if e.verifying then 0 else 1)]
    ensures e1 == e.(slots := e1.slots, pending := Some(Ptr(s, c, |e.slots[s].mocks[c].args|)))
  {
    var l' := Register(e.slots[s].mocks[c], args, if e.verifying then 0 else 1);
    StoreKeeps(e.slots, s, c, l');
    var e1 := e.(slots := Store(e.slots, s, c, l'), pending := Some(Ptr(s, c, |e.slots[s].mocks[c].args|)));
    assert forall q | PtrOk(e.slots, q) :: CountAt(e1.slots, q) == CountAt(e.slots, q);
    e1
  }

  /** A call that matched no pattern: it is registered (counted once in
      recording mode, zero times in verification mode) before any check,
      so a rejected call still leaves the new pattern in place. */
  function Enroll(e: Engine, s: nat, c: nat, args: seq<Value>): (st: Step<Value>)
    requires Valid(e) && s < |e.slots| && c < |e.slots[s].mocks|
    ensures Valid(st.engine) && Grows(e, st.engine) && st.engine.saved == e.saved
    ensures |st.engine.slots| == |e.slots|
    ensures forall t | 0 <= t < |e.slots| && t != s :: st.engine.slots[t] == e.slots[t]
    ensures st.engine.slots[s].contexts == e.slots[s].contexts
    ensures st.engine.slots[s].mocks ==
              e.slots[s].mocks[c := Register(e.slots[s].mocks[c], args, if e.verifying then 0 else 1)]
    ensures !e.verifying && P.Permits(e.expectations, P.SetCall) ==>
              && st.out == Ok(Undefined)
              && st.engine == e.(slots := st.engine.slots, expectations := P.AfterSetCall,
                                 pending := Some(Ptr(s, c, |e.slots[s].mocks[c].args|)))
    ensures !e.verifying && !P.Permits(e.expectations, P.SetCall) ==>
              && st.out == Err(Unexpected(e.expectations, P.SetCall))
              && st.engine == e.(slots := st.engine.slots, pending := Some(Ptr(s, c, |e.slots[s].mocks[c].args|)))
    ensures e.verifying ==>
              && st.out == Ok(Num(0))
              && st.engine == e.(slots := st.engine.slots, verifying := false,
                                 expectations := P.AfterCheckCalls, pending := None)
  {
    var e1 := Registered(e, s, c, args);
    if !e.verifying then
      if !P.Permits(e.expectations, P.SetCall) then
        Step(e1, Err(Unexpected(e.expectations, P.SetCall)))
      else
        Step(e1.(expectations := P.AfterSetCall), Ok(Undefined))
    else
      Report(e1)
  }

  /** Context resolution inside the engine: slot `s` after `Locate`, and
      the position of the receiver's ledger. No counter changes. */
  function Enter(e: Engine, s: nat, ctx: ContextKey): (r: (Engine, nat))
    requires Valid(e) && s < |e.slots|
    ensures Valid(r.0) && Grows(e, r.0) && CountsMoved(e, r.0, None, 0)
    ensures r.0 == e.(slots := e.slots[s := Locate(e.slots[s], ctx).0])
    ensures r.1 == Locate(e.slots[s], ctx).1 && r.1 < |r.0.slots[s].mocks|
  {
    var (slot, c) := Locate(e.slots[s], ctx);
    var e1 := e.(slots := e.slots[s := slot]);
    assert SlotGrows(e.slots[s], slot);
    assert forall q | PtrOk(e.slots, q) :: PtrOk(e1.slots, q) && CountAt(e1.slots, q) == CountAt(e.slots, q);
    (e1, c)
  }

  /** The replacement function installed for slot `s`, called on receiver
      `ctx` with `args`: resolve the receiver's ledger, run the matcher,
      then replay a matched call, report a count in verification mode, or
      register an unmatched call. */
  function Intercept(host: Host, e: Engine, s: nat, ctx: ContextKey, args: seq<Value>): (st: Step<Value>)
    requires Valid(e) && s < |e.slots|
    ensures Valid(st.engine)
    ensures Grows(e, st.engine)
    ensures |st.engine.slots| == |e.slots|
    ensures forall t | 0 <= t < |e.slots| && t != s :: st.engine.slots[t] == e.slots[t]
    ensures st.engine.saved == e.saved
  {
    var (e1, c) := Enter(e, s, ctx);
    var st := match CheckCallArgs(host, e1.slots[s].mocks[c], args)
      case Some(k) =>
        if e.verifying then Report(e1.(pending := Some(Ptr(s, c, k))))
        else Replay(host, e1, Ptr(s, c, k), ctx, args)
      case None =>
        Enroll(e1, s, c, args);
    GrowsIsTransitive(e, e1, st.engine);
    st
  }

  lemma GrowsIsTransitive(a: Engine, b: Engine, c: Engine)
    requires Grows(a, b) && Grows(b, c)
    ensures Grows(a, c)
  {
    forall s | 0 <= s < |a.slots|
      ensures SlotGrows(a.slots[s], c.slots[s])
    {
      assert SlotGrows(b.slots[s], c.slots[s]);
    }
  }

  /** The patterns themselves (receivers, argument lists, zero-argument
      indexes) are identical. */
  predicate SamePatterns(e: Engine, e': Engine) {
    && |e'.slots| == |e.slots|
    && forall s | 0 <= s < |e.slots| ::
         && e'.slots[s].contexts == e.slots[s].contexts
         && |e'.slots[s].mocks| == |e.slots[s].mocks|
         && forall c | 0 <= c < |e.slots[s].mocks| ::
              && e'.slots[s].mocks[c].args == e.slots[s].mocks[c].args
              && e'.slots[s].mocks[c].noArgsIndex == e.slots[s].mocks[c].noArgsIndex
  }

  /** Every programmed return of `e` is unchanged in `e'`, except at `p`. */
  ghost predicate RetsKept(e: Engine, e': Engine, p: Option<Ptr>) {
    forall q | PtrOk(e.slots, q) && p != Some(q) :: PtrOk(e'.slots, q) && RetAt(e'.slots, q) == RetAt(e.slots, q)
  }

  /** Rewrites the counter and the return of the pattern at `p`. */
  function Amend(e: Engine, p: Ptr, delta: int, r: Ret): (e': Engine)
    requires Valid(e) && PtrOk(e.slots, p)
    ensures forall s | 0 <= s < |e'.slots| :: SlotOk(e'.slots[s])
    ensures SamePatterns(e, e') && Grows(e, e')
    ensures CountsMoved(e, e', Some(p), delta) && RetsKept(e, e', Some(p)) && RetAt(e'.slots, p) == r
    ensures e' == e.(slots := e'.slots)
  {
    var l := LedgerAt(e.slots, p);
    var l' := l.(calls := l.calls[p.index := l.calls[p.index] + delta], rets := l.rets[p.index := r]);
    StoreKeeps(e.slots, p.slot, p.ctx, l');
    var e' := e.(slots := Store(e.slots, p.slot, p.ctx, l'));
    e'
  }

  /** `when()`: legal only right after a call registered a new pattern. It
      makes that pattern the return target, takes back the count the
      registering call added, installs the placeholder return and clears
      the pending pointer. */
  function When(e: Engine): (st: Step<()>)
    requires Valid(e)
    ensures Valid(st.engine) && SamePatterns(e, st.engine)
    ensures st.out.Ok? <==> e.expectations == P.AfterSetCall
    ensures st.out.Err? ==> st.engine == e
    ensures st.out.Ok? ==>
              && e.pending.Some?
              && CountsMoved(e, st.engine, e.pending, -1)
              && RetsKept(e, st.engine, e.pending)
              && CountAt(st.engine.slots, e.pending.value) == 0
              && RetAt(st.engine.slots, e.pending.value) == Unassigned
              && st.engine == e.(slots := st.engine.slots, expectations := P.AfterWhen,
                                 pending := None, whenTarget := e.pending)
  {
    if !P.Permits(e.expectations, P.When) then
      Step(e, Err(Unexpected(e.expectations, P.When)))
    else if e.pending.None? then
      Step(e, Err(NoPendingCall))
    else
      var p := e.pending.value;
      var e1 := Amend(e, p, -1, Unassigned);
      Step(e1.(whenTarget := Some(p), pending := None, expectations := P.AfterWhen), Ok(()))
  }

  /** `thenReturn(v)` is `Declare(e, Give(v))` and `thenThrow(x)` is
      `Declare(e, Raise(x))`: legal only after `when()`, they overwrite the
      return of the `when()` target and go back to `Normal`. */
  function Declare(e: Engine, r: Ret): (st: Step<()>)
    requires Valid(e)
    ensures Valid(st.engine) && SamePatterns(e, st.engine)
    ensures st.out.Ok? <==> e.expectations == P.AfterWhen
    ensures st.out.Err? ==> st.engine == e
    ensures st.out.Ok? ==>
              && e.whenTarget.Some?
              && CountsMoved(e, st.engine, None, 0)
              && RetsKept(e, st.engine, e.whenTarget)
              && RetAt(st.engine.slots, e.whenTarget.value) == r
              && st.engine == e.(slots := st.engine.slots, expectations := P.Normal)
  {
    if !P.Permits(e.expectations, P.Return) then
      Step(e, Err(Unexpected(e.expectations, P.Return)))
    else if e.whenTarget.None? then
      Step(e, Err(NoReturnTarget))
    else
      var e1 := Amend(e, e.whenTarget.value, 0, r);
      Step(e1.(expectations := P.Normal), Ok(()))
  }

  function ThenReturn(e: Engine, v: Value): Step<()>
    requires Valid(e)
  {
    Declare(e, Give(v))
  }

  function ThenThrow(e: Engine, reason: Value): Step<()>
    requires Valid(e)
  {
    Declare(e, Raise(reason))
  }

  /** Reading one of the `Acts` cardinalities: the ACTS check, then the
      verification flag and `AfterActs` together; the result is the
      predicate `verify` will apply. */
  function Acts(e: Engine, c: Cardinality): (st: Step<Cardinality>)
    requires Valid(e)
    ensures Valid(st.engine)
    ensures st.out.Ok? <==> e.expectations in {P.Normal, P.AfterSetCall, P.AfterGetCall}
    ensures st.out.Err? ==> st.engine == e
    ensures st.out.Ok? ==> st.out.value == c && st.engine == e.(verifying := true, expectations := P.AfterActs)
  {
    if !P.Permits(e.expectations, P.Acts) then
      Step(e, Err(Unexpected(e.expectations, P.Acts)))
    else
      Step(e.(verifying := true, expectations := P.AfterActs), Ok(c))
  }

  /** `verify(c, times)`: legal only after a verification-mode call. The
      state goes back to `Normal` before the predicate runs, so it is
      `Normal` whether or not the predicate raises. */
  function Verify(e: Engine, c: Cardinality, times: int): (st: Step<()>)
    requires Valid(e)
    ensures Valid(st.engine)
    ensures e.expectations != P.AfterCheckCalls ==>
              st.engine == e && st.out == Err(Unexpected(e.expectations, P.Verify))
    ensures e.expectations == P.AfterCheckCalls ==>
              && st.engine == e.(expectations := P.Normal)
              && (st.out.Ok? <==> Satisfied(c, times))
              && (st.out.Err? ==> st.out.error == ExpectationFailed(c, times))
  {
    if !P.Permits(e.expectations, P.Verify) then
      Step(e, Err(Unexpected(e.expectations, P.Verify)))
    else
      var e1 := e.(expectations := P.Normal);
      Step(e1, if Satisfied(c, times) then Ok(()) else Err(ExpectationFailed(c, times)))
  }
}
