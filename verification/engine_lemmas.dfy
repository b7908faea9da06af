/** What one intercepted call, and the API calls around it, do to the
    engine's counters, returns and protocol state. */
module EngineLemmas {

  import opened Wrappers
  import opened Values
  import opened Ledgers
  import opened Matcher
  import opened Cardinalities
  import opened Mocking
  import P = Protocol

  /** The stored pattern a call on slot `s` with receiver `ctx` and `args`
      matches, if any. A matched pattern always existed before the call:
      a receiver seen for the first time has an empty ledger. */
  function Target(host: Host, e: Engine, s: nat, ctx: ContextKey, args: seq<Value>): (r: Option<Ptr>)
    requires Valid(e) && s < |e.slots|
    ensures r.Some? ==> r.value.slot == s && PtrOk(e.slots, r.value)
    ensures r.Some? ==> r.value.ctx == Locate(e.slots[s], ctx).1
  {
    var (e1, c) := Enter(e, s, ctx);
    match CheckCallArgs(host, e1.slots[s].mocks[c], args)
    case Some(k) => Some(Ptr(s, c, k))
    case None => None
  }

  lemma CountsCompose(a: Engine, b: Engine, c: Engine, p: Option<Ptr>, d: int)
    requires CountsMoved(a, b, None, 0) && CountsMoved(b, c, p, d)
    ensures CountsMoved(a, c, p, d)
  {
  }

  /** A matched call in recording mode. If GET_CALL is legal, exactly the
      matched counter goes up by one, the state becomes `AfterGetCall` and
      the programmed return is given back; otherwise the call raises and no
      counter and no protocol state changes. */
  lemma MatchedRecordingCall(host: Host, e: Engine, s: nat, ctx: ContextKey, args: seq<Value>)
    requires Valid(e) && s < |e.slots| && !e.verifying
    requires Target(host, e, s, ctx, args).Some?
    ensures var p := Target(host, e, s, ctx, args).value;
            var st := Intercept(host, e, s, ctx, args);
            && st.engine.pending == Some(p)
            && (P.Permits(e.expectations, P.GetCall) ==>
                  && CountsMoved(e, st.engine, Some(p), 1)
                  && SamePatterns(e, st.engine)
                  && RetsKept(e, st.engine, None)
                  && st.engine == e.(slots := st.engine.slots, expectations := P.AfterGetCall, pending := Some(p))
                  && st.out == Reply(host, RetAt(e.slots, p), ctx, args))
            && (!P.Permits(e.expectations, P.GetCall) ==>
                  && st.engine == e.(pending := Some(p))
                  && st.out == Err(Unexpected(e.expectations, P.GetCall)))
  {
    var (e1, c) := Enter(e, s, ctx);
    assert e1 == e;
    var p := Target(host, e, s, ctx, args).value;
    var st := Replay(host, e1, p, ctx, args);
    assert st == Intercept(host, e, s, ctx, args);
  }

  /** A call that matches no stored pattern is registered in the receiver's
      ledger: its arguments, an `undefined` return and a counter of 1 in
      recording mode or 0 in verification mode are appended, whether or
      not the SET_CALL check then passes, and no existing counter changes. */
  lemma UnmatchedCall(host: Host, e: Engine, s: nat, ctx: ContextKey, args: seq<Value>)
    requires Valid(e) && s < |e.slots|
    requires Target(host, e, s, ctx, args).None?
    ensures var (slot, c) := Locate(e.slots[s], ctx);
            var st := Intercept(host, e, s, ctx, args);
            && CountsMoved(e, st.engine, None, 0)
            && st.engine.slots[s].contexts == slot.contexts
            && st.engine.slots[s].mocks == slot.mocks[c := Register(slot.mocks[c], args, if e.verifying then 0 else 1)]
            && (!e.verifying && P.Permits(e.expectations, P.SetCall) ==>
                  && st.out == Ok(Undefined)
                  && st.engine == e.(slots := st.engine.slots, expectations := P.AfterSetCall,
                                     pending := Some(Ptr(s, c, |slot.mocks[c].args|))))
            && (!e.verifying && !P.Permits(e.expectations, P.SetCall) ==>
                  && st.out == Err(Unexpected(e.expectations, P.SetCall))
                  && st.engine == e.(slots := st.engine.slots, pending := Some(Ptr(s, c, |slot.mocks[c].args|))))
  {
    var (e1, c) := Enter(e, s, ctx);
    var st := Enroll(e1, s, c, args);
    assert st == Intercept(host, e, s, ctx, args);
    assert CountsMoved(e1, st.engine, None, 0);
    CountsCompose(e, e1, st.engine, None, 0);
  }

  /** A call in verification mode reports the stored count of the pattern
      it matches (0 for a pattern it registers), changes no counter, clears
      the flag and the pending pointer, and leaves `AfterCheckCalls`. */
  lemma VerificationCall(host: Host, e: Engine, s: nat, ctx: ContextKey, args: seq<Value>)
    requires Valid(e) && s < |e.slots| && e.verifying
    ensures var t := Target(host, e, s, ctx, args);
            var st := Intercept(host, e, s, ctx, args);
            && CountsMoved(e, st.engine, None, 0)
            && st.out == Ok(Num(if t.Some? then CountAt(e.slots, t.value) else 0))
            && st.engine.expectations == P.AfterCheckCalls
            && !st.engine.verifying
            && st.engine.pending.None?
  {
    if Target(host, e, s, ctx, args).Some? {
      VerificationCallMatched(host, e, s, ctx, args);
    } else {
      VerificationCallUnmatched(host, e, s, ctx, args);
    }
  }

  lemma VerificationCallMatched(host: Host, e: Engine, s: nat, ctx: ContextKey, args: seq<Value>)
    requires Valid(e) && s < |e.slots| && e.verifying
    requires Target(host, e, s, ctx, args).Some?
    ensures var st := Intercept(host, e, s, ctx, args);
            && CountsMoved(e, st.engine, None, 0)
            && st.out == Ok(Num(CountAt(e.slots, Target(host, e, s, ctx, args).value)))
            && st.engine == Enter(e, s, ctx).0.(verifying := false, expectations := P.AfterCheckCalls, pending := None)
  {
    var (e1, c) := Enter(e, s, ctx);
    var t := Target(host, e, s, ctx, args);
    var st := Report(e1.(pending := t));
    assert st == Intercept(host, e, s, ctx, args);
    assert CountAt(e1.slots, t.value) == CountAt(e.slots, t.value);
    CountsCompose(e, e1, st.engine, None, 0);
  }

  lemma VerificationCallUnmatched(host: Host, e: Engine, s: nat, ctx: ContextKey, args: seq<Value>)
    requires Valid(e) && s < |e.slots| && e.verifying
    requires Target(host, e, s, ctx, args).None?
    ensures var (slot, c) := Locate(e.slots[s], ctx);
            var st := Intercept(host, e, s, ctx, args);
            && CountsMoved(e, st.engine, None, 0)
            && st.engine.slots[s].contexts == slot.contexts
            && st.engine.slots[s].mocks == slot.mocks[c := Register(slot.mocks[c], args, 0)]
            && st.out == Ok(Num(0))
            && st.engine.expectations == P.AfterCheckCalls
            && !st.engine.verifying
            && st.engine.pending.None?
  {
    var (e1, c) := Enter(e, s, ctx);
    var st := Enroll(e1, s, c, args);
    assert st == Intercept(host, e, s, ctx, args);
    assert CountsMoved(e1, st.engine, None, 0);
    CountsCompose(e, e1, st.engine, None, 0);
  }

  /** The whole verification cycle: reading a cardinality, making the call
      to check, and verifying the reported count. The count is the stored
      one, no counter changes, and the engine is back in `Normal` whether
      or not the cardinality holds. */
  lemma VerificationCycle(host: Host, e: Engine, s: nat, ctx: ContextKey, args: seq<Value>, c: Cardinality)
    requires Valid(e) && s < |e.slots|
    requires e.expectations in {P.Normal, P.AfterSetCall, P.AfterGetCall}
    ensures var t := Target(host, e, s, ctx, args);
            var n := if t.Some? then CountAt(e.slots, t.value) else 0;
            var a := Acts(e, c);
            && a == Step(e.(verifying := true, expectations := P.AfterActs), Ok(c))
            && (var i := Intercept(host, a.engine, s, ctx, args);
                && i.out == Ok(Num(n))
                && i.engine.expectations == P.AfterCheckCalls
                && (var v := Verify(i.engine, c, n);
                    && v.engine.expectations == P.Normal
                    && !v.engine.verifying
                    && CountsMoved(e, v.engine, None, 0)
                    && (v.out.Ok? <==> Satisfied(c, n))))
  {
    var a := Acts(e, c);
    assert Target(host, a.engine, s, ctx, args) == Target(host, e, s, ctx, args);
    VerificationCall(host, a.engine, s, ctx, args);
  }

  /** `when()` after a registering call leaves that pattern's counter at 0
      and no other counter moved, so the registration is not counted. */
  lemma WhenUncountsRegistration(e: Engine)
    requires Valid(e) && e.expectations == P.AfterSetCall
    ensures var st := When(e);
            && st.out.Ok?
            && st.engine.whenTarget == e.pending
            && CountAt(st.engine.slots, e.pending.value) == 0
            && CountsMoved(e, st.engine, e.pending, -1)
  {
  }

  /** A return declaration is one-shot: a second `thenReturn`/`thenThrow`
      without a new `when()` always raises. */
  lemma SecondDeclareRaises(e: Engine, r1: Ret, r2: Ret)
    requires Valid(e)
    ensures Declare(Declare(e, r1).engine, r2).out.Err?
  {
  }

  /** `when()` followed by `thenReturn`/`thenThrow` programs the pattern the
      registering call created: its return becomes `r`, its counter 0, and
      the engine returns to `Normal`. */
  lemma WhenThenDeclare(e: Engine, r: Ret)
    requires Valid(e) && e.expectations == P.AfterSetCall
    ensures var w := When(e);
            var d := Declare(w.engine, r);
            && d.out.Ok?
            && d.engine.expectations == P.Normal
            && RetAt(d.engine.slots, e.pending.value) == r
            && CountAt(d.engine.slots, e.pending.value) == 0
  {
    var w := When(e);
    assert w.engine.whenTarget == e.pending;
  }
}
