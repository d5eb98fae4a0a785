/** The pipeline's states, transition table and limits (core/fsm.py). */
module Fsm {
  import opened Wrappers
  import opened Names

  datatype State =
    | Idle | Planning | Pm | Architect | Writer | Review | Test | Qa | Fix
    | Success | Fail | Blocked

  const MAX_TOTAL_STEPS := 25
  const MAX_TOTAL_AGENT_CALLS := 40
  const MAX_REVIEW_FIX_LOOPS := 3
  const MAX_QA_FIX_LOOPS := 2
  const STATE_MAX_RETRY := 2

  function AllowedTransitions(current: State): set<State> {
    match current
    case Idle => {Planning}
    case Planning => {Pm, Blocked}
    case Pm => {Architect, Blocked}
    case Architect => {Writer, Blocked}
    case Writer => {Review, Blocked}
    case Review => {Test, Fix, Fail}
    case Test => {Qa, Fix, Fail}
    case Qa => {Success, Fix, Fail}
    case Fix => {Review, Fail}
    case Success => {}
    case Fail => {}
    case Blocked => {}
  }

  predicate CanTransition(current: State, next: State) {
    next in AllowedTransitions(current)
  }

  predicate IsTerminal(s: State) {
    s == Success || s == Fail || s == Blocked
  }

  /** The name a state is stored under. */
  function StateName(s: State): string {
    match s
    case Idle => "IDLE"
    case Planning => "PLANNING"
    case Pm => "PM"
    case Architect => "ARCHITECT"
    case Writer => "WRITER"
    case Review => "REVIEW"
    case Test => "TEST"
    case Qa => "QA"
    case Fix => "FIX"
    case Success => "SUCCESS"
    case Fail => "FAIL"
    case Blocked => "BLOCKED"
  }

  const ALL_STATES: seq<State> :=
    [Idle, Planning, Pm, Architect, Writer, Review, Test, Qa, Fix, Success, Fail, Blocked]

  /** `State(name)`, where it does not raise. */
  function ParseState(name: string): Option<State> {
    Lookup(name, ALL_STATES, StateName)
  }

  lemma AllStatesListed(s: State)
    ensures s in ALL_STATES
  {
    var k := match s
      case Idle => 0 case Planning => 1 case Pm => 2 case Architect => 3
      case Writer => 4 case Review => 5 case Test => 6 case Qa => 7
      case Fix => 8 case Success => 9 case Fail => 10 case Blocked => 11;
    assert ALL_STATES[k] == s;
  }

  lemma StateNamesDiffer(s: State, t: State)
    requires StateName(s) == StateName(t)
    ensures s == t
  {
    // Names of one length differ in one of their first two letters.
    assert StateName(s)[0] == StateName(t)[0] && StateName(s)[1] == StateName(t)[1];
  }

  /** A text names a state exactly when it is that state's own name. */
  lemma ParseStateInverts(name: string, s: State)
    ensures ParseState(name) == Some(s) <==> name == StateName(s)
  {
    LookupFinds(name, ALL_STATES, StateName);
    AllStatesListed(s);
    if name == StateName(s) {
      StateNamesDiffer(ParseState(name).value, s);
    }
  }
}
