/** Creating mocks: `Mock(obj)` type dispatch, `Mock.new(names)`, and the
    `andSave`/`teardown` registry of original references. */
module Factory {

  import opened Wrappers
  import opened Values
  import opened Ledgers
  import opened Mocking

  /** What `Mock` gives back: the replacement function of one new slot, or
      an object whose members are the replacement functions of new slots.
      Non-function members of the original are absent from the mock. */
  datatype MockHandle = MockedFunction(slot: nat) | MockedObject(members: map<string, nat>)

  function FunctionNames(props: map<string, bool>): set<string> {
    set n | n in props && props[n]
  }

  /** The slots of `e` are kept and new empty slots follow them. */
  ghost predicate AppendsFresh(e: Engine, e': Engine, added: nat) {
    && |e'.slots| == |e.slots| + added
    && e'.slots[..|e.slots|] == e.slots
    && (forall i | |e.slots| <= i < |e'.slots| :: e'.slots[i] == FreshSlot)
    && e' == e.(slots := e'.slots)
  }

  /** One fresh slot for each function member of an object with own
      properties `props` (name to "is a function"): distinct members get
      distinct slots, and no slot is shared with anything that existed. */
  method MockMembers(e: Engine, props: map<string, bool>) returns (e': Engine, members: map<string, nat>)
    ensures members.Keys == FunctionNames(props)
    ensures AppendsFresh(e, e', |members|)
    ensures forall n | n in members :: |e.slots| <= members[n] < |e'.slots|
    ensures forall n, m | n in members && m in members && n != m :: members[n] != members[m]
  {
    var todo := FunctionNames(props);
    e' := e;
    members := map[];
    while todo != {}
      invariant todo !! members.Keys
      invariant todo + members.Keys == FunctionNames(props)
      invariant AppendsFresh(e, e', |members|)
      invariant forall n | n in members :: |e.slots| <= members[n] < |e'.slots|
      invariant forall n, m | n in members && m in members && n != m :: members[n] != members[m]
      decreases |todo|
    {
      var n :| n in todo;
      AppendOneFresh(e, e', |members|);
      AddMember(members, n, |e.slots|, |e'.slots|, members[n := |e'.slots|]);
      members := members[n := |e'.slots|];
      e' := e'.(slots := e'.slots + [FreshSlot]);
      todo := todo - {n};
    }
  }

  lemma AppendOneFresh(e: Engine, e': Engine, added: nat)
    requires AppendsFresh(e, e', added)
    ensures AppendsFresh(e, e'.(slots := e'.slots + [FreshSlot]), added + 1)
  {
    var e'' := e'.(slots := e'.slots + [FreshSlot]);
    assert e''.slots[..|e.slots|] == e'.slots[..|e.slots|];
  }

  /** Giving member `n` the next slot `next` keeps the members' slots
      distinct and within `lo..next`. */
  lemma AddMember(members: map<string, nat>, n: string, lo: nat, next: nat, grown: map<string, nat>)
    requires n !in members && grown == members[n := next] && lo <= next
    requires forall m | m in members :: lo <= members[m] < next
    requires forall m, k | m in members && k in members && m != k :: members[m] != members[k]
    ensures |grown| == |members| + 1
    ensures forall m | m in grown :: lo <= grown[m] < next + 1
    ensures forall m, k | m in grown && k in grown && m != k :: grown[m] != grown[k]
  {
  }

  /** `Mock(obj)`: a function gets one fresh slot; a non-null object (the
      `Match.everything` marker is one, with no own properties) gets one
      fresh slot per own function member; anything else raises and leaves
      the engine as it was. */
  method Mock(host: Host, e: Engine, target: Value) returns (e': Engine, r: Result<MockHandle, Error>)
    ensures r.Ok? <==> (target.Fn? || target.Obj? || target.Everything?)
    ensures r.Err? ==> e' == e && r.error == UnsupportedType(target)
    ensures target.Fn? ==> AppendsFresh(e, e', 1) && r == Ok(MockedFunction(|e.slots|))
    ensures target.Obj? || target.Everything? ==>
              && r.Ok? && r.value.MockedObject?
              && r.value.members.Keys == FunctionNames(if target.Obj? then host.ownProps(target.ref) else map[])
              && AppendsFresh(e, e', |r.value.members|)
              && (forall n | n in r.value.members :: |e.slots| <= r.value.members[n] < |e'.slots|)
              && (forall n, m | n in r.value.members && m in r.value.members && n != m ::
                    r.value.members[n] != r.value.members[m])
    ensures Valid(e) ==> Valid(e')
  {
    match target
    case Fn(_) =>
      e' := e.(slots := e.slots + [FreshSlot]);
      r := Ok(MockedFunction(|e.slots|));
      if Valid(e) {
        FreshSlotsKeepValid(e, e', 1);
      }
    case Obj(ref) =>
      var members;
      e', members := MockMembers(e, host.ownProps(ref));
      r := Ok(MockedObject(members));
      if Valid(e) {
        FreshSlotsKeepValid(e, e', |members|);
      }
    case Everything =>
      var members;
      e', members := MockMembers(e, map[]);
      r := Ok(MockedObject(members));
      if Valid(e) {
        FreshSlotsKeepValid(e, e', |members|);
      }
    case _ =>
      e' := e;
      r := Err(UnsupportedType(target));
  }

  /** `Mock.new(names)`: mocks an object whose own properties are a no-op
      function for each name, so the mock has exactly one fresh slot per
      distinct name. */
  method MockNew(e: Engine, names: seq<string>) returns (e': Engine, members: map<string, nat>)
    ensures members.Keys == set n | n in names
    ensures AppendsFresh(e, e', |members|)
    ensures forall n | n in members :: |e.slots| <= members[n] < |e'.slots|
    ensures forall n, m | n in members && m in members && n != m :: members[n] != members[m]
    ensures Valid(e) ==> Valid(e')
  {
    var props := map n | n in names :: true;
    assert FunctionNames(props) == set n | n in names;
    e', members := MockMembers(e, props);
    if Valid(e) {
      FreshSlotsKeepValid(e, e', |members|);
    }
  }

  /** `Mock.andSave(obj, name)`: records `obj` under `name`, then mocks it
      exactly as `Mock(obj)` would; the record is made even when mocking
      then raises, and the protocol state is not touched. */
  method AndSave(host: Host, e: Engine, target: Value, name: string) returns (e': Engine, r: Result<MockHandle, Error>)
    ensures e'.saved == e.saved[name := target]
    ensures r.Ok? <==> (target.Fn? || target.Obj? || target.Everything?)
    ensures r.Err? ==> e' == e.(saved := e.saved[name := target]) && r.error == UnsupportedType(target)
    ensures target.Fn? ==>
              AppendsFresh(e.(saved := e.saved[name := target]), e', 1) && r == Ok(MockedFunction(|e.slots|))
    ensures target.Obj? || target.Everything? ==>
              && r.Ok? && r.value.MockedObject?
              && r.value.members.Keys == FunctionNames(if target.Obj? then host.ownProps(target.ref) else map[])
              && AppendsFresh(e.(saved := e.saved[name := target]), e', |r.value.members|)
              && (forall n | n in r.value.members :: |e.slots| <= r.value.members[n] < |e'.slots|)
              && (forall n, m | n in r.value.members && m in r.value.members && n != m ::
                    r.value.members[n] != r.value.members[m])
    ensures Valid(e) ==> Valid(e')
  {
    var e1 := e.(saved := e.saved[name := target]);
    e', r := Mock(host, e1, target);
  }

  /** `Mock.teardown(name)`: gives back the reference saved under `name`
      (`undefined` when there is none) and forgets it. */
  function Teardown(e: Engine, name: string): (st: Step<Value>)
    ensures st.engine == e.(saved := e.saved - {name})
    ensures st.out.Ok?
    ensures name in e.saved ==> st.out.value == e.saved[name]
    ensures name !in e.saved ==> st.out.value == Undefined
  {
    var v := if name in e.saved then e.saved[name] else Undefined;
    Step(e.(saved := e.saved - {name}), Ok(v))
  }

  /** Saving then tearing down gives back exactly the saved reference, and
      a second teardown gives back `undefined`. */
  lemma TeardownIsOneShot(e: Engine, target: Value, name: string)
    ensures var t1 := Teardown(e.(saved := e.saved[name := target]), name);
            var t2 := Teardown(t1.engine, name);
            t1.out == Ok(target) && t2.out == Ok(Undefined) && t2.engine.saved == e.saved - {name}
  {
  }

  /** Mocking keeps the engine invariant: existing slots are untouched and
      the new ones are empty. */
  lemma FreshSlotsKeepValid(e: Engine, e': Engine, added: nat)
    requires Valid(e) && AppendsFresh(e, e', added)
    ensures Valid(e')
  {
    forall s | 0 <= s < |e'.slots|
      ensures SlotOk(e'.slots[s])
    {
      if s < |e.slots| {
        assert e'.slots[s] == e'.slots[..|e.slots|][s];
      }
    }
    assert forall p | PtrOk(e.slots, p) :: PtrOk(e'.slots, p) && CountAt(e'.slots, p) == CountAt(e.slots, p)
    by {
      forall p | PtrOk(e.slots, p)
        ensures PtrOk(e'.slots, p) && CountAt(e'.slots, p) == CountAt(e.slots, p)
      {
        assert e'.slots[p.slot] == e'.slots[..|e.slots|][p.slot];
      }
    }
  }
}
