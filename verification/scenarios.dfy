/** Whole usage sequences, from a fresh engine: the basic ways of
    programming and verifying a mock, and two misuses the protocol
    rejects. */
module Scenarios {

  import opened Wrappers
  import opened Values
  import opened Ledgers
  import opened Cardinalities
  import opened Mocking
  import opened EngineLemmas
  import opened Factory
  import P = Protocol

  /** Slot `f` has seen only calls without a receiver, recorded in `l`. */
  predicate Holds(e: Engine, f: nat, l: Ledger) {
    f < |e.slots| && e.slots[f] == Slot(true, [NoContext], [l])
  }

  /** The first call on a fresh slot registers its arguments. */
  lemma FirstCallRegisters(host: Host, e: Engine, f: nat, args: seq<Value>)
    requires Valid(e) && f < |e.slots| && e.slots[f] == FreshSlot && e.expectations == P.Normal
    requires |args| > 0 && !IsMarker(args[0])
    ensures var st := Intercept(host, e, f, NoContext, args);
            && st.out == Ok(Undefined)
            && st.engine.expectations == P.AfterSetCall
            && st.engine.pending == Some(Ptr(f, 0, 0))
            && Holds(st.engine, f, Ledger(None, [args], [Give(Undefined)], [1]))
  {
    var l := Ledger(None, [args], [Give(Undefined)], [1]);
    assert Register(EmptyLedger, args, 1) == l;
    assert [EmptyLedger][0 := l] == [l];
    assert [] + [NoContext] == [NoContext];
  }

  /** `when().thenReturn(v)` right after that call programs `v` and takes
      the registering call back out of the count. */
  lemma ProgramReturn(e: Engine, f: nat, args: seq<Value>, v: Value)
    requires Valid(e) && e.expectations == P.AfterSetCall && e.pending == Some(Ptr(f, 0, 0))
    requires Holds(e, f, Ledger(None, [args], [Give(Undefined)], [1]))
    ensures var st := ThenReturn(When(e).engine, v);
            && st.out == Ok(())
            && st.engine.expectations == P.Normal
            && Holds(st.engine, f, Ledger(None, [args], [Give(v)], [0]))
  {
    var l := Ledger(None, [args], [Give(Undefined)], [1]);
    var l1 := Ledger(None, [args], [Unassigned], [0]);
    var l2 := Ledger(None, [args], [Give(v)], [0]);
    assert [1][0 := 1 - 1] == [0] && [Give(Undefined)][0 := Unassigned] == [Unassigned];
    assert [l][0 := l1] == [l1];
    assert [0][0 := 0 + 0] == [0] && [Unassigned][0 := Give(v)] == [Give(v)];
    assert [l1][0 := l2] == [l2];
  }

  /** A call in recording mode whose arguments match the stored pattern
      `pat` gives back the programmed value and counts once more. */
  lemma RepeatCall(host: Host, e: Engine, f: nat, pat: seq<Value>, args: seq<Value>, v: Value, n: int)
    requires Valid(e) && e.expectations in {P.Normal, P.AfterGetCall}
    requires Holds(e, f, Ledger(None, [pat], [Give(v)], [n]))
    requires |args| > 0 && Matcher.Matches(host, pat, args) && !v.Fn?
    ensures var st := Intercept(host, e, f, NoContext, args);
            && st.out == Ok(v)
            && st.engine.expectations == P.AfterGetCall
            && Holds(st.engine, f, Ledger(None, [pat], [Give(v)], [n + 1]))
  {
    var l := Ledger(None, [pat], [Give(v)], [n]);
    var l' := Ledger(None, [pat], [Give(v)], [n + 1]);
    assert [n][0 := n + 1] == [n + 1];
    assert [l][0 := l'] == [l'];
  }

  /** A call in recording mode that matches no stored pattern becomes a
      second pattern, answered with `undefined`. */
  lemma MissRegisters(host: Host, e: Engine, f: nat, pat: seq<Value>, args: seq<Value>, v: Value, n: int)
    requires Valid(e) && e.expectations in {P.Normal, P.AfterGetCall}
    requires Holds(e, f, Ledger(None, [pat], [Give(v)], [n]))
    requires |args| > 0 && !IsMarker(args[0]) && !Matcher.Matches(host, pat, args)
    ensures var st := Intercept(host, e, f, NoContext, args);
            && st.out == Ok(Undefined)
            && st.engine.expectations == P.AfterSetCall
            && Holds(st.engine, f, Ledger(None, [pat, args], [Give(v), Give(Undefined)], [n, 1]))
  {
    var l := Ledger(None, [pat], [Give(v)], [n]);
    var l' := Ledger(None, [pat, args], [Give(v), Give(Undefined)], [n, 1]);
    assert Register(l, args, 1) == l';
    assert [l][0 := l'] == [l'];
  }

  /** `Acts`, a verification call and `verify` report the stored count. */
  lemma CheckCount(host: Host, e: Engine, f: nat, args: seq<Value>, v: Value, n: int, c: Cardinality)
    requires Valid(e) && e.expectations in {P.Normal, P.AfterGetCall}
    requires Holds(e, f, Ledger(None, [args], [Give(v)], [n]))
    requires |args| > 0 && Matcher.Matches(host, args, args)
    ensures var a := Acts(e, c);
            var i := Intercept(host, a.engine, f, NoContext, args);
            && i.out == Ok(Num(n))
            && (Verify(i.engine, c, n).out.Ok? <==> Satisfied(c, n))
  {
    VerificationCycle(host, e, f, NoContext, args, c);
  }

  /** The first half of the basic recipe: a call registers its
      arguments, and `when().thenReturn(v)` programs them, uncounted. */
  lemma RegisterThenProgram(host: Host, e: Engine, f: nat, args: seq<Value>, v: Value)
    requires Valid(e) && f < |e.slots| && e.slots[f] == FreshSlot && e.expectations == P.Normal
    requires |args| > 0 && !IsMarker(args[0])
    ensures var s1 := Intercept(host, e, f, NoContext, args);
            var s3 := ThenReturn(When(s1.engine).engine, v);
            && s1.out == Ok(Undefined)
            && s3.out == Ok(())
            && Valid(s3.engine) && s3.engine.expectations == P.Normal
            && Holds(s3.engine, f, Ledger(None, [args], [Give(v)], [0]))
  {
    FirstCallRegisters(host, e, f, args);
    ProgramReturn(Intercept(host, e, f, NoContext, args).engine, f, args, v);
  }

  /** The second half of the recipe: a matching call gives back `v`, then
      `Acts.once`, a verification call and `verify` find exactly one call. */
  lemma CallThenVerify(host: Host, e: Engine, f: nat, args: seq<Value>, v: Value)
    requires Valid(e) && e.expectations == P.Normal
    requires Holds(e, f, Ledger(None, [args], [Give(v)], [0]))
    requires |args| > 0 && Matcher.Matches(host, args, args) && !v.Fn?
    ensures var s4 := Intercept(host, e, f, NoContext, args);
            var s5 := Acts(s4.engine, Once);
            var s6 := Intercept(host, s5.engine, f, NoContext, args);
            && s4.out == Ok(v)
            && s6.out == Ok(Num(1))
            && Verify(s6.engine, Once, 1).out == Ok(())
  {
    RepeatCall(host, e, f, args, args, v, 0);
    var s4 := Intercept(host, e, f, NoContext, args);
    CheckCount(host, s4.engine, f, args, v, 1, Once);
  }

  /** Mock a function `f`; a call `f(args)` registers a pattern;
      `when().thenReturn(v)` programs it; one more `f(args)` gives back `v`;
      `Acts.once` and a verification call report 1, and `verify` passes:
      the registering call is not counted. */
  method ProgramThenVerify(host: Host, args: seq<Value>, v: Value)
    returns (first: Result<Value, Error>, later: Result<Value, Error>,
             reported: Result<Value, Error>, verdict: Result<(), Error>)
    requires |args| > 0 && !IsMarker(args[0]) && Matcher.PlainUpToMarker(args) && !v.Fn?
    ensures first == Ok(Undefined)
    ensures later == Ok(v)
    ensures reported == Ok(Num(1))
    ensures verdict == Ok(())
  {
    var e, h := Mock(host, Initial, Fn(UserFn(0)));
    FreshSlotsKeepValid(Initial, e, 1);
    var f := h.value.slot;
    RegisterThenProgram(host, e, f, args, v);
    var s1 := Intercept(host, e, f, NoContext, args);
    first := s1.out;
    var s3 := ThenReturn(When(s1.engine).engine, v);
    Matcher.SelfMatch(host, args);
    Matcher.MatchesIffCovers(host, args, args);
    CallThenVerify(host, s3.engine, f, args, v);
    var s4 := Intercept(host, s3.engine, f, NoContext, args);
    later := s4.out;
    var s6 := Intercept(host, Acts(s4.engine, Once).engine, f, NoContext, args);
    reported := s6.out;
    verdict := Verify(s6.engine, Once, 1).out;
  }

  /** Mock an object with function members `a` and `b`; never call `a`;
      `Acts.never` and a verification call `a()` report 0; `verify`
      passes. */
  method NeverCalledMember(host: Host, obj: nat, receiver: ContextKey) returns (reported: Result<Value, Error>, verdict: Result<(), Error>)
    requires host.ownProps(obj) == map["a" := true, "b" := true, "size" := false]
    ensures reported == Ok(Num(0))
    ensures verdict == Ok(())
  {
    var e, h := Mock(host, Initial, Obj(obj));
    FreshSlotsKeepValid(Initial, e, |h.value.members|);
    assert "a" in FunctionNames(host.ownProps(obj));
    var a := h.value.members["a"];
    var s1 := Acts(e, Never);
    var s2 := Intercept(host, s1.engine, a, receiver, []);
    reported := s2.out;
    var s3 := Verify(s2.engine, Never, 0);
    verdict := s3.out;
  }

  /** `(Match.anyInt, x)` accepts `(n, x)` and refuses `(n, y)` when `y`
      is not loosely equal to `x`. */
  lemma AnyIntPattern(host: Host, x: Value, y: Value, n: int)
    requires !x.Fn? && !IsMarker(x) && !LooseEq(y, x)
    ensures Matcher.Matches(host, [Fn(AnyInt), x], [Num(n), x])
    ensures !Matcher.Matches(host, [Fn(AnyInt), x], [Num(n), y])
  {
    var pat := [Fn(AnyInt), x];
    assert Matcher.MatchFrom(host, pat, [Num(n), x], 2);
    assert Matcher.MatchFrom(host, pat, [Num(n), x], 1);
    assert !Matcher.MatchFrom(host, pat, [Num(n), y], 1);
  }

  /** Against the programmed pattern `(Match.anyInt, x)`: `(n, x)` hits it,
      `(n, y)` becomes a second pattern. */
  lemma HitThenMiss(host: Host, e: Engine, f: nat, x: Value, y: Value, n: int, v: Value)
    requires Valid(e) && e.expectations == P.Normal
    requires Holds(e, f, Ledger(None, [[Fn(AnyInt), x]], [Give(v)], [0]))
    requires !x.Fn? && !IsMarker(x) && !LooseEq(y, x) && !v.Fn?
    ensures var s4 := Intercept(host, e, f, NoContext, [Num(n), x]);
            var s5 := Intercept(host, s4.engine, f, NoContext, [Num(n), y]);
            && s4.out == Ok(v) && s5.out == Ok(Undefined)
            && |s5.engine.slots[f].mocks[0].args| == 2
  {
    var pat := [Fn(AnyInt), x];
    AnyIntPattern(host, x, y, n);
    RepeatCall(host, e, f, pat, [Num(n), x], v, 0);
    var s4 := Intercept(host, e, f, NoContext, [Num(n), x]);
    MissRegisters(host, s4.engine, f, pat, [Num(n), y], v, 1);
  }

  /** A pattern `(Match.anyInt, x)` programmed to give back `v`: a call
      `(n, x)` matches it and gets `v`; a call `(n, y)` with `y` not loosely
      equal to `x` matches nothing and becomes a second pattern. */
  method PredicatePattern(host: Host, x: Value, y: Value, n: int, v: Value)
    returns (hit: Result<Value, Error>, miss: Result<Value, Error>, patterns: nat)
    requires !x.Fn? && !IsMarker(x) && !LooseEq(y, x) && !v.Fn?
    ensures hit == Ok(v)
    ensures miss == Ok(Undefined)
    ensures patterns == 2
  {
    var e, h := Mock(host, Initial, Fn(UserFn(0)));
    FreshSlotsKeepValid(Initial, e, 1);
    var f := h.value.slot;
    var pat := [Fn(AnyInt), x];
    RegisterThenProgram(host, e, f, pat, v);
    var s3 := ThenReturn(When(Intercept(host, e, f, NoContext, pat).engine).engine, v);
    HitThenMiss(host, s3.engine, f, x, y, n, v);
    var s4 := Intercept(host, s3.engine, f, NoContext, [Num(n), x]);
    hit := s4.out;
    var s5 := Intercept(host, s4.engine, f, NoContext, [Num(n), y]);
    miss := s5.out;
    patterns := |s5.engine.slots[f].mocks[0].args|;
  }

  /** `when()` with no preceding unmatched call, and `verify` with no
      preceding `Acts`, both raise the protocol error. */
  lemma MisuseIsRejected(c: Cardinality, n: int)
    ensures When(Initial).out == Err(Unexpected(P.Normal, P.When))
    ensures Verify(Initial, c, n).out == Err(Unexpected(P.Normal, P.Verify))
  {
  }
}
