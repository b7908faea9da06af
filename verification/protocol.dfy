/** The protocol state machine: the action codes, the expectation table
    that lists which actions may come next, and the consistency check. */
module Protocol {

  datatype Action = GetCall | SetCall | When | Return | Verify | Acts | CheckCalls

  /** The expectation sets of the table; the engine holds exactly one. */
  datatype Expect = Normal | AfterSetCall | AfterGetCall | AfterWhen | AfterActs | AfterCheckCalls

  /** The actions legal in each expectation set, in the table's order. */
  function Allowed(x: Expect): seq<Action> {
    match x
    case AfterSetCall => [When, GetCall, SetCall, Acts]
    case AfterGetCall => [GetCall, SetCall, Acts]
    case AfterWhen => [Return]
    case AfterActs => [CheckCalls]
    case AfterCheckCalls => [Verify]
    case Normal => [GetCall, SetCall, Acts]
  }

  /** The consistency check: `a` is accepted iff the current set lists it. */
  predicate Permits(x: Expect, a: Action) {
    a in Allowed(x)
  }

  /** The same table read by column: the expectation sets in which each
      action may be taken. */
  function PermittedIn(a: Action): set<Expect> {
    match a
    case GetCall => {Normal, AfterSetCall, AfterGetCall}
    case SetCall => {Normal, AfterSetCall, AfterGetCall}
    case Acts => {Normal, AfterSetCall, AfterGetCall}
    case When => {AfterSetCall}
    case Return => {AfterWhen}
    case CheckCalls => {AfterActs}
    case Verify => {AfterCheckCalls}
  }

  /** The row view and the column view of the table agree. */
  lemma PermitsByColumn(x: Expect, a: Action)
    ensures Permits(x, a) <==> x in PermittedIn(a)
  {
  }

  /** Once a return declaration or a verification cycle has started, the
      grammar is deterministic: exactly one action is legal. */
  lemma CyclesAreDeterministic(x: Expect)
    requires x in {AfterWhen, AfterActs, AfterCheckCalls}
    ensures |Allowed(x)| == 1
    ensures forall b :: Permits(x, b) <==> b == Allowed(x)[0]
  {
  }

  /** `When` is legal in the state entered by a call that registered a new
      pattern and in no other, which is what makes a second `when()` fail. */
  lemma WhenOnlyAfterRegistration(x: Expect)
    ensures Permits(x, When) <==> x == AfterSetCall
  {
  }
}
