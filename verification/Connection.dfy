/**
  One PostgreSQL session: its transaction status, its savepoint stack and the effects it has made so far. On top
  of it, the probe wrapper `safeQuery` and the transaction wrapper `withTransaction`.
*/
module Connection {

  datatype Status = Idle | InTransaction | Aborted

  /** A query with its outcome on a usable session: the rows and the effects, or an error and no effect. */
  datatype Operation = Operation(fails: bool, rows: seq<string>, error: string, effects: seq<string>) {
    function Effects(): seq<string> { if fails then [] else effects }
    function Outcome(): ProbeResult { if fails then Failed(error) else Rows(rows) }
  }

  datatype Statement = Begin | Commit | Rollback | Savepoint(name: string) | Release(name: string) | RollbackTo(name: string) | Run(op: Operation)
  datatype Reply = Done(rows: seq<string>) | Refused(error: string)
  datatype ProbeResult = Rows(rows: seq<string>) | Failed(error: string)

  datatype Mark = Mark(name: string, data: seq<string>)
  datatype Session = Session(status: Status, savepoints: seq<Mark>, working: seq<string>, durable: seq<string>)

  const ABORTED_MESSAGE := "current transaction is aborted, commands ignored until end of transaction block"

  /** The innermost savepoint of that name, or -1. */
  function Innermost(savepoints: seq<Mark>, name: string): (i: int)
    ensures -1 <= i < |savepoints|
    ensures i >= 0 ==> savepoints[i].name == name
    ensures forall k :: i < k < |savepoints| ==> savepoints[k].name != name
  {
    if savepoints == [] then -1
    else if savepoints[|savepoints| - 1].name == name then |savepoints| - 1
    else Innermost(savepoints[..|savepoints| - 1], name)
  }

  function OnBegin(s: Session): (Session, Reply) {
    match s.status
    case Idle => (Session(InTransaction, [], s.durable, s.durable), Done([]))
    case InTransaction => (s, Done([]))
    case Aborted => (s, Refused(ABORTED_MESSAGE))
  }

  /** COMMIT of an aborted transaction answers ROLLBACK, without an error. */
  function OnCommit(s: Session): (Session, Reply) {
    match s.status
    case Idle => (s, Done([]))
    case InTransaction => (Session(Idle, [], s.working, s.working), Done([]))
    case Aborted => (Session(Idle, [], s.durable, s.durable), Done([]))
  }

  function OnSavepoint(s: Session, name: string): (Session, Reply) {
    match s.status
    case Idle => (s, Refused("SAVEPOINT can only be used in transaction blocks"))
    case InTransaction => (s.(savepoints := s.savepoints + [Mark(name, s.working)]), Done([]))
    case Aborted => (s, Refused(ABORTED_MESSAGE))
  }

  /** RELEASE destroys the named savepoint and every later one. */
  function OnRelease(s: Session, name: string): (Session, Reply) {
    match s.status
    case Idle => (s, Refused("RELEASE SAVEPOINT can only be used in transaction blocks"))
    case InTransaction =>
      var i := Innermost(s.savepoints, name);
      if i < 0 then (s.(status := Aborted), Refused("savepoint does not exist"))
      else (s.(savepoints := s.savepoints[..i]), Done([]))
    case Aborted => (s, Refused(ABORTED_MESSAGE))
  }

  /** ROLLBACK TO revives an aborted transaction, destroys every later savepoint and keeps the named one. */
  function OnRollbackTo(s: Session, name: string): (Session, Reply) {
    if s.status == Idle then (s, Refused("ROLLBACK TO SAVEPOINT can only be used in transaction blocks"))
    else
      var i := Innermost(s.savepoints, name);
      if i < 0 then (s.(status := Aborted), Refused("savepoint does not exist"))
      else (s.(status := InTransaction, savepoints := s.savepoints[..i + 1], working := s.savepoints[i].data), Done([]))
  }

  function OnRun(s: Session, op: Operation): (Session, Reply) {
    match s.status
    case Idle =>
      if op.fails then (s, Refused(op.error))
      else (s.(working := s.durable + op.effects, durable := s.durable + op.effects), Done(op.rows))
    case InTransaction =>
      if op.fails then (s.(status := Aborted), Refused(op.error))
      else (s.(working := s.working + op.effects), Done(op.rows))
    case Aborted => (s, Refused(ABORTED_MESSAGE))
  }

  function Send(s: Session, statement: Statement): (Session, Reply) {
    match statement
    case Begin => OnBegin(s)
    case Commit => OnCommit(s)
    case Rollback => (Session(Idle, [], s.durable, s.durable), Done([]))
    case Savepoint(name) => OnSavepoint(s, name)
    case Release(name) => OnRelease(s, name)
    case RollbackTo(name) => OnRollbackTo(s, name)
    case Run(op) => OnRun(s, op)
  }

  /** The wrapper's statements one after another: savepoint, read, then release, or roll back and release. */
  function SafeQuery(s: Session, savepoint: string, op: Operation): (Session, ProbeResult) {
    var (s1, marked) := OnSavepoint(s, savepoint);
    var (s2, answer) := OnRun(s1, op);
    match answer
    case Done(rows) => (if marked.Done? then OnRelease(s2, savepoint).0 else s2, Rows(rows))
    case Refused(error) =>
      (if marked.Done? then OnRelease(OnRollbackTo(s2, savepoint).0, savepoint).0 else s2, Failed(error))
  }

  datatype Step =
    | Do(op: Operation)                       // a plain query: its error leaves the body
    | Probe(savepoint: string, op: Operation) // a safeQuery: its error stays in its result

  /** A transaction body, statement by statement; false when a plain query threw. */
  function Body(s: Session, steps: seq<Step>): (Session, bool)
    decreases |steps|
  {
    if steps == [] then (s, true)
    else match steps[0]
      case Do(op) =>
        var (s', answer) := OnRun(s, op);
        if answer.Refused? then (s', false) else Body(s', steps[1..])
      case Probe(savepoint, op) => Body(SafeQuery(s, savepoint, op).0, steps[1..])
  }

  function WithTransaction(s: Session, steps: seq<Step>): (Session, bool) {
    var (s', fine) := Body(OnBegin(s).0, steps);
    if fine then (OnCommit(s').0, true) else (Send(s', Rollback).0, false)
  }

  // ---------------------------------------------------------------- what a session refuses

  /** The savepoint a statement names, if it goes back to one. */
  predicate GoesBack(s: Session, statement: Statement) {
    statement.RollbackTo? && exists k :: 0 <= k < |s.savepoints| && s.savepoints[k].name == statement.name
  }

  /** An aborted transaction refuses every statement but the two that end it, which leave what was durable before, and going
      back to a savepoint it has, which makes it usable again; what it refuses changes nothing. */
  lemma AbortedRefuses(s: Session, statement: Statement)
    requires s.status == Aborted
    ensures
      var (after, reply) := Send(s, statement);
      && (reply.Done? <==> statement in {Commit, Rollback} || GoesBack(s, statement))
      && (statement in {Commit, Rollback} ==> after == Session(Idle, [], s.durable, s.durable))
      && (GoesBack(s, statement) ==> after.status == InTransaction && after.durable == s.durable)
      && (reply.Refused? ==> after == s)
  {
  }

  /** Without a transaction savepoints are refused, and a transaction begun twice is the one begun first. */
  lemma OutsideRefuses(s: Session, statement: Statement)
    ensures s.status == Idle && (statement.Savepoint? || statement.Release? || statement.RollbackTo?) ==>
      Send(s, statement).0 == s && Send(s, statement).1.Refused?
    ensures s.status == InTransaction && statement == Begin ==> Send(s, statement) == (s, Done([]))
    ensures s.status == Idle && statement in {Commit, Rollback} && s.savepoints == [] && s.working == s.durable ==>
      Send(s, statement) == (s, Done([]))
  {
  }

  // ---------------------------------------------------------------- what the wrappers promise

  /** The session after an operation that cannot disturb it: only its effects are added, where they belong. */
  function Undisturbed(s: Session, effects: seq<string>): Session {
    match s.status
    case Idle => if effects == [] then s else s.(working := s.durable + effects, durable := s.durable + effects)
    case InTransaction => s.(working := s.working + effects)
    case Aborted => s
  }

  /**
    Whatever happens to the read, status and savepoint stack come out as they went in, and unless the transaction
    was aborted before, the result is the statement's own.
  */
  lemma SafeQueryIsolates(s: Session, savepoint: string, op: Operation)
    requires s.status == Idle ==> s.working == s.durable
    ensures SafeQuery(s, savepoint, op) ==
            (Undisturbed(s, op.Effects()), if s.status == Aborted then Failed(ABORTED_MESSAGE) else op.Outcome())
  {
    if s.status == InTransaction {
      var pushed := s.savepoints + [Mark(savepoint, s.working)];
      assert Innermost(pushed, savepoint) == |s.savepoints|;
      assert pushed[..|s.savepoints|] == s.savepoints && pushed[..|s.savepoints| + 1] == pushed;
      assert s.working + [] == s.working;
    } else if s.status == Idle {
      assert s.durable + [] == s.durable;
    }
  }

  function ProbeAll(s: Session, savepoints: seq<string>, ops: seq<Operation>): (Session, seq<ProbeResult>)
    requires |savepoints| == |ops|
    decreases |ops|
  {
    if ops == [] then (s, [])
    else
      var (s1, r) := SafeQuery(s, savepoints[0], ops[0]);
      var (s2, rs) := ProbeAll(s1, savepoints[1..], ops[1..]);
      (s2, [r] + rs)
  }

  function AllEffects(ops: seq<Operation>): seq<string> {
    if ops == [] then [] else ops[0].Effects() + AllEffects(ops[1..])
  }

  function Outcomes(ops: seq<Operation>): (results: seq<ProbeResult>)
    ensures |results| == |ops| && forall i :: 0 <= i < |ops| ==> results[i] == ops[i].Outcome()
  {
    if ops == [] then [] else [ops[0].Outcome()] + Outcomes(ops[1..])
  }

  lemma ProbeStep(s: Session, savepoint: string, op: Operation) returns (s': Session)
    requires s.status == InTransaction
    ensures s' == s.(working := s.working + op.Effects()) && SafeQuery(s, savepoint, op) == (s', op.Outcome())
  {
    SafeQueryIsolates(s, savepoint, op);
    s' := Undisturbed(s, op.Effects());
  }

  /**
    From an open transaction any sequence of probes, whichever of them fail and whatever their savepoints are
    called, leaves the transaction usable and the stack unchanged, and each result is that of its own statement.
  */
  lemma {:induction false} ProbesInSequence(s: Session, savepoints: seq<string>, ops: seq<Operation>)
    requires s.status == InTransaction && |savepoints| == |ops|
    ensures ProbeAll(s, savepoints, ops).0 == s.(working := s.working + AllEffects(ops))
    ensures ProbeAll(s, savepoints, ops).1 == Outcomes(ops)
    decreases |ops|
  {
    if ops == [] {
      assert s.working + [] == s.working;
    } else {
      var s1 := ProbeUnfolds(s, savepoints, ops);
      ProbesInSequence(s1, savepoints[1..], ops[1..]);
      ConcatThree(s.working, ops[0].Effects(), AllEffects(ops[1..]));
    }
  }

  lemma ConcatThree(a: seq<string>, b: seq<string>, c: seq<string>)
    ensures (a + b) + c == a + (b + c)
  {
  }

  lemma ProbeUnfolds(s: Session, savepoints: seq<string>, ops: seq<Operation>) returns (s1: Session)
    requires s.status == InTransaction && |savepoints| == |ops| && ops != []
    ensures s1 == s.(working := s.working + ops[0].Effects())
    ensures ProbeAll(s, savepoints, ops).0 == ProbeAll(s1, savepoints[1..], ops[1..]).0
    ensures ProbeAll(s, savepoints, ops).1 == [ops[0].Outcome()] + ProbeAll(s1, savepoints[1..], ops[1..]).1
  {
    s1 := ProbeStep(s, savepoints[0], ops[0]);
  }

  /** Some plain query of the body fails. */
  predicate Throws(steps: seq<Step>) {
    steps != [] && ((steps[0].Do? && steps[0].op.fails) || Throws(steps[1..]))
  }

  function StepEffects(steps: seq<Step>): seq<string> {
    if steps == [] then [] else steps[0].op.Effects() + StepEffects(steps[1..])
  }

  lemma OneStep(s: Session, step: Step) returns (s': Session)
    requires s.status == InTransaction && !(step.Do? && step.op.fails)
    ensures s' == s.(working := s.working + step.op.Effects())
    ensures match step case Do(op) => OnRun(s, op) == (s', Done(op.rows)) case Probe(savepoint, op) => SafeQuery(s, savepoint, op).0 == s'
  {
    s' := s.(working := s.working + step.op.Effects());
    if step.Probe? { SafeQueryIsolates(s, step.savepoint, step.op); }
  }

  lemma {:induction false} BodyRuns(s: Session, steps: seq<Step>)
    requires s.status == InTransaction
    ensures Body(s, steps).0.durable == s.durable
    ensures Body(s, steps).1 <==> !Throws(steps)
    ensures !Throws(steps) ==> Body(s, steps).0 == s.(working := s.working + StepEffects(steps))
    decreases |steps|
  {
    if steps == [] {
      assert s.working + [] == s.working;
    } else if !(steps[0].Do? && steps[0].op.fails) {
      var s1 := OneStep(s, steps[0]);
      BodyRuns(s1, steps[1..]);
      assert Body(s, steps) == Body(s1, steps[1..]);
      assert s.working + steps[0].op.Effects() + StepEffects(steps[1..]) == s.working + StepEffects(steps);
    }
  }

  /**
    A transaction commits exactly when no plain query threw, and then everything that succeeded is durable, failed
    probes notwithstanding; otherwise nothing is. Either way the session goes back to the pool idle.
  */
  lemma TransactionIsAtomic(s: Session, steps: seq<Step>)
    requires s.status == Idle
    ensures var (s', fine) := WithTransaction(s, steps);
            var durable := if Throws(steps) then s.durable else s.durable + StepEffects(steps);
            (fine <==> !Throws(steps)) && s' == Session(Idle, [], durable, durable)
  {
    BodyRuns(OnBegin(s).0, steps);
  }

  lemma BodyUnfolds(s: Session, steps: seq<Step>)
    requires s.status == InTransaction && steps != []
    ensures var op := steps[0].op;
            Body(s, steps) == if steps[0].Do? && op.fails then (s.(status := Aborted), false)
                              else Body(Undisturbed(s, op.Effects()), steps[1..])
  {
    if !(steps[0].Do? && steps[0].op.fails) { var _ := OneStep(s, steps[0]); }
  }

  lemma BodyContinues(s: Session, steps: seq<Step>, i: nat)
    requires s.status == InTransaction && i < |steps|
    ensures var op := steps[i].op;
            Body(s, steps[i..]) == if steps[i].Do? && op.fails then (s.(status := Aborted), false)
                                   else Body(Undisturbed(s, op.Effects()), steps[i + 1..])
  {
    BodyUnfolds(s, steps[i..]);
    assert steps[i..][1..] == steps[i + 1..];
  }

  // ---------------------------------------------------------------- the client object

  class Client {
    var session: Session

    constructor ()
      ensures session == Session(Idle, [], [], [])
    {
      session := Session(Idle, [], [], []);
    }

    method Query(statement: Statement) returns (reply: Reply)
      modifies this
      ensures (session, reply) == Send(old(session), statement)
    {
      var (next, answer) := Send(session, statement);
      session, reply := next, answer;
    }

    method SafeQuery(savepoint: string, op: Operation) returns (result: ProbeResult)
      requires session.status == Idle ==> session.working == session.durable
      modifies this
      ensures session == Undisturbed(old(session), op.Effects())
      ensures result == if old(session).status == Aborted then Failed(ABORTED_MESSAGE) else op.Outcome()
    {
      SafeQueryIsolates(session, savepoint, op);
      var savepointActive := false;
      var marked := Query(Savepoint(savepoint));
      savepointActive := marked.Done?;
      var answer := Query(Run(op));
      match answer {
        case Done(rows) =>
          if savepointActive { var _ := Query(Release(savepoint)); }
          result := Rows(rows);
        case Refused(error) =>
          if savepointActive {
            var _ := Query(RollbackTo(savepoint));
            var _ := Query(Release(savepoint));
          }
          result := Failed(error);
      }
    }

    /** One statement of the body: a plain query, which throws when it fails, or a probe. */
    method Take(step: Step) returns (fine: bool)
      requires session.status == InTransaction
      modifies this
      ensures fine <==> !(step.Do? && step.op.fails)
      ensures session == if fine then Undisturbed(old(session), step.op.Effects()) else old(session).(status := Aborted)
    {
      fine := true;
      match step {
        case Do(op) =>
          var answer := Query(Run(op));
          fine := answer.Done?;
        case Probe(savepoint, op) =>
          var _ := SafeQuery(savepoint, op);
      }
    }

    method WithTransaction(steps: seq<Step>) returns (fine: bool)
      requires session.status == Idle
      modifies this
      ensures fine <==> !Throws(steps)
      ensures session.status == Idle && session.savepoints == [] && session.working == session.durable
      ensures session.durable == if fine then old(session).durable + StepEffects(steps) else old(session).durable
    {
      TransactionIsAtomic(session, steps);
      var _ := Query(Begin);
      ghost var whole := Body(session, steps);
      var i := 0;
      fine := true;
      while i < |steps| && fine
        invariant 0 <= i <= |steps|
        invariant fine ==> session.status == InTransaction && whole == Body(session, steps[i..])
        invariant !fine ==> whole == (session, false)
      {
        BodyContinues(session, steps, i);
        fine := Take(steps[i]);
        i := i + 1;
      }
      assert steps[|steps|..] == [];
      assert whole == (session, fine);
      if fine {
        var _ := Query(Commit);
      } else {
        var _ := Query(Rollback);
      }
    }
  }
}
