/**
  Probes started together on one client. The client's queue is first in, first out, and a call sends its next
  statement when the reply to its previous one arrives, so the calls advance in rounds: all savepoints, then all
  reads, then the releases.
*/
module ProbeFifo {
  import opened Connection

  datatype Call = Call(savepoint: string, op: Operation)

  /** What a call waits for; `result` is settled from the reply to its read on. */
  datatype Phase =
    | WaitSavepoint
    | WaitRead(active: bool)
    | WaitRelease(result: ProbeResult)
    | WaitRollback(result: ProbeResult)
    | WaitFinalRelease(result: ProbeResult)
    | Settled(result: ProbeResult)

  function Waiting(call: Call, phase: Phase): Statement
    requires !phase.Settled?
  {
    match phase
    case WaitSavepoint => Savepoint(call.savepoint)
    case WaitRead(_) => Run(call.op)
    case WaitRelease(_) => Release(call.savepoint)
    case WaitRollback(_) => RollbackTo(call.savepoint)
    case WaitFinalRelease(_) => Release(call.savepoint)
  }

  function Advance(phase: Phase, reply: Reply): Phase {
    match phase
    case WaitSavepoint => WaitRead(reply.Done?)
    case WaitRead(active) =>
      (match reply
       case Done(rows) => if active then WaitRelease(Rows(rows)) else Settled(Rows(rows))
       case Refused(error) => if active then WaitRollback(Failed(error)) else Settled(Failed(error)))
    case WaitRelease(result) => Settled(result)
    case WaitRollback(result) => WaitFinalRelease(result)
    case WaitFinalRelease(result) => Settled(result)
    case Settled(_) => phase
  }

  /** The session, the phase of each call, and the calls whose statements are queued. */
  datatype State = State(session: Session, phases: seq<Phase>, queue: seq<nat>)

  ghost predicate Coherent(st: State, calls: seq<Call>) {
    && |st.phases| == |calls|
    && (forall k :: 0 <= k < |st.queue| ==> st.queue[k] < |calls| && !st.phases[st.queue[k]].Settled?)
    && (forall k, m :: 0 <= k < m < |st.queue| ==> st.queue[k] != st.queue[m])
    && (forall i :: 0 <= i < |calls| && !st.phases[i].Settled? ==> i in st.queue)
  }

  /** The server answers the statement at the head; the call it belongs to queues its next one, if any. */
  function Serve(st: State, calls: seq<Call>): (next: State)
    requires |st.phases| == |calls| && st.queue != [] && st.queue[0] < |calls| && !st.phases[st.queue[0]].Settled?
    ensures |next.phases| == |calls|
  {
    var i := st.queue[0];
    var (session, reply) := Send(st.session, Waiting(calls[i], st.phases[i]));
    var phase := Advance(st.phases[i], reply);
    State(session, st.phases[i := phase], st.queue[1..] + if phase.Settled? then [] else [i])
  }

  function Rank(phase: Phase): nat {
    match phase
    case WaitSavepoint => 4
    case WaitRead(_) => 3
    case WaitRelease(_) => 1
    case WaitRollback(_) => 2
    case WaitFinalRelease(_) => 1
    case Settled(_) => 0
  }

  function TotalRank(phases: seq<Phase>): nat {
    if phases == [] then 0 else Rank(phases[0]) + TotalRank(phases[1..])
  }

  lemma {:induction false} RankDrops(phases: seq<Phase>, i: nat, phase: Phase)
    requires i < |phases| && Rank(phase) < Rank(phases[i])
    ensures TotalRank(phases[i := phase]) < TotalRank(phases)
  {
    if i == 0 {
      assert phases[0 := phase][1..] == phases[1..];
    } else {
      RankDrops(phases[1..], i - 1, phase);
      assert phases[i := phase][1..] == phases[1..][i - 1 := phase];
    }
  }

  /** The head of the queue changes phase, and queues again unless it has settled. */
  lemma MovedCoherent(st: State, next: State, calls: seq<Call>, phase: Phase)
    requires Coherent(st, calls) && st.queue != []
    requires next.phases == st.phases[st.queue[0] := phase]
    requires next.queue == st.queue[1..] + if phase.Settled? then [] else [st.queue[0]]
    ensures Coherent(next, calls)
  {
    var i := st.queue[0];
    assert st.queue == [i] + st.queue[1..];
    forall j | 0 <= j < |calls| && !next.phases[j].Settled? ensures j in next.queue {
      if j != i { assert j in st.queue; }
    }
  }

  lemma StepCoherent(st: State, calls: seq<Call>)
    requires Coherent(st, calls) && st.queue != []
    ensures Coherent(Serve(st, calls), calls)
    ensures TotalRank(Serve(st, calls).phases) < TotalRank(st.phases)
  {
    var i := st.queue[0];
    var next := Serve(st, calls);
    RankDrops(st.phases, i, next.phases[i]);
    MovedCoherent(st, next, calls, next.phases[i]);
  }

  /** Runs until every call has settled. */
  ghost function RunAll(st: State, calls: seq<Call>): State
    requires Coherent(st, calls)
    decreases TotalRank(st.phases)
  {
    if st.queue == [] then st
    else
      StepCoherent(st, calls);
      RunAll(Serve(st, calls), calls)
  }

  ghost predicate Follows(st: State, next: State, calls: seq<Call>) {
    && |st.phases| == |calls| && st.queue != [] && st.queue[0] < |calls| && !st.phases[st.queue[0]].Settled?
    && Serve(st, calls) == next
  }

  /** A run goes through every state of a trace of steps. */
  lemma {:induction false} AlongTrace(trace: seq<State>, calls: seq<Call>)
    requires trace != [] && Coherent(trace[0], calls)
    requires forall k :: 0 <= k < |trace| - 1 ==> Follows(trace[k], trace[k + 1], calls)
    ensures Coherent(trace[|trace| - 1], calls)
    ensures RunAll(trace[0], calls) == RunAll(trace[|trace| - 1], calls)
    decreases |trace|
  {
    if |trace| > 1 {
      assert Follows(trace[0], trace[0 + 1], calls);
      StepCoherent(trace[0], calls);
      forall k | 0 <= k < |trace| - 2 ensures Follows(trace[1..][k], trace[1..][k + 1], calls) {
        assert Follows(trace[k + 1], trace[k + 1 + 1], calls);
      }
      AlongTrace(trace[1..], calls);
    }
  }

  function UpTo(lo: nat, hi: nat): seq<nat>
    requires lo <= hi
  {
    seq(hi - lo, k requires 0 <= k => lo + k)
  }

  /** All calls queue their savepoints before the first reply arrives. */
  function Started(session: Session, calls: seq<Call>): State {
    State(session, seq(|calls|, _ => WaitSavepoint), UpTo(0, |calls|))
  }

  // ---------------------------------------------------------------- results

  /** The result of call `i`: its own, unless an earlier read failed. */
  function ResultOf(calls: seq<Call>, i: nat): ProbeResult
    requires i < |calls|
  {
    if FailsBefore(calls, i) then Failed(ABORTED_MESSAGE) else calls[i].op.Outcome()
  }

  predicate FailsBefore(calls: seq<Call>, i: nat)
    requires i <= |calls|
  {
    i > 0 && (calls[i - 1].op.fails || FailsBefore(calls, i - 1))
  }

  function Pushed(session: Session, calls: seq<Call>, k: nat): seq<Mark>
    requires k <= |calls|
  {
    if k == 0 then session.savepoints else Pushed(session, calls, k - 1) + [Mark(calls[k - 1].savepoint, session.working)]
  }

  function Made(session: Session, calls: seq<Call>, k: nat): seq<string>
    requires k <= |calls|
  {
    if k == 0 then session.working
    else Made(session, calls, k - 1) + if FailsBefore(calls, k - 1) then [] else calls[k - 1].op.Effects()
  }

  /** The queue in the middle of a round: the calls still to be served, then those already served. */
  function Rotated(n: nat, k: nat): seq<nat>
    requires k <= n
  {
    UpTo(k, n) + UpTo(0, k)
  }

  /** After `k` savepoints. */
  function Marked(session: Session, calls: seq<Call>, k: nat): State
    requires k <= |calls|
  {
    State(session.(savepoints := Pushed(session, calls, k)),
          seq(|calls|, i => if i < k then WaitRead(true) else WaitSavepoint),
          Rotated(|calls|, k))
  }

  function Answered(result: ProbeResult): Phase {
    if result.Rows? then WaitRelease(result) else WaitRollback(result)
  }

  /** After every savepoint and `k` reads. */
  function Read(session: Session, calls: seq<Call>, k: nat): State
    requires k <= |calls|
  {
    State(session.(savepoints := Pushed(session, calls, |calls|), working := Made(session, calls, k),
                   status := if FailsBefore(calls, k) then Aborted else InTransaction),
          seq(|calls|, i requires 0 <= i < |calls| => if i < k then Answered(ResultOf(calls, i)) else WaitRead(true)),
          Rotated(|calls|, k))
  }

  lemma RotateOne(n: nat, k: nat)
    requires k < n
    ensures Rotated(n, k)[0] == k && Rotated(n, k)[1..] + [k] == Rotated(n, k + 1)
  {
  }

  lemma MarkStep(session: Session, calls: seq<Call>, k: nat)
    requires session.status == InTransaction && k < |calls|
    ensures Follows(Marked(session, calls, k), Marked(session, calls, k + 1), calls)
  {
    RotateOne(|calls|, k);
    var st, next := Marked(session, calls, k), Marked(session, calls, k + 1);
    assert st.phases[k := WaitRead(true)] == next.phases;
  }

  lemma ReadStep(session: Session, calls: seq<Call>, k: nat)
    requires session.status == InTransaction && k < |calls|
    ensures Follows(Read(session, calls, k), Read(session, calls, k + 1), calls)
  {
    RotateOne(|calls|, k);
    var st, next := Read(session, calls, k), Read(session, calls, k + 1);
    assert st.phases[k := Answered(ResultOf(calls, k))] == next.phases;
    assert st.session.working + [] == st.session.working;
  }

  /** The result is fixed once the read has been answered. */
  ghost predicate Holds(st: State, results: seq<ProbeResult>) {
    |st.phases| == |results| && forall i :: 0 <= i < |results| ==>
      !st.phases[i].WaitSavepoint? && !st.phases[i].WaitRead? && st.phases[i].result == results[i]
  }

  function AllSettled(results: seq<ProbeResult>): seq<Phase> {
    seq(|results|, i requires 0 <= i < |results| => Settled(results[i]))
  }

  lemma {:induction false} ResultsStay(st: State, calls: seq<Call>, results: seq<ProbeResult>)
    requires Coherent(st, calls) && Holds(st, results)
    ensures RunAll(st, calls).phases == AllSettled(results)
    decreases TotalRank(st.phases)
  {
    if st.queue != [] {
      StepCoherent(st, calls);
      ResultsStay(Serve(st, calls), calls, results);
    } else {
      assert st.phases == AllSettled(results);
    }
  }

  lemma StartedCoherent(session: Session, calls: seq<Call>)
    ensures Coherent(Started(session, calls), calls)
  {
    forall i | 0 <= i < |calls| ensures i in Started(session, calls).queue {
      assert Started(session, calls).queue[i] == i;
    }
  }

  lemma RoundsMeet(session: Session, calls: seq<Call>)
    requires session.status == InTransaction
    ensures Started(session, calls) == Marked(session, calls, 0)
    ensures Marked(session, calls, |calls|) == Read(session, calls, 0)
  {
  }

  lemma {:induction false} MarkRound(session: Session, calls: seq<Call>)
    requires session.status == InTransaction && Coherent(Marked(session, calls, 0), calls)
    ensures Coherent(Marked(session, calls, |calls|), calls)
    ensures RunAll(Marked(session, calls, 0), calls) == RunAll(Marked(session, calls, |calls|), calls)
  {
    var n := |calls|;
    var trace := seq(n + 1, k requires 0 <= k <= n => Marked(session, calls, k));
    forall k | 0 <= k < n ensures Follows(trace[k], trace[k + 1], calls) { MarkStep(session, calls, k); }
    AlongTrace(trace, calls);
  }

  lemma {:induction false} ReadRound(session: Session, calls: seq<Call>)
    requires session.status == InTransaction && Coherent(Read(session, calls, 0), calls)
    ensures Coherent(Read(session, calls, |calls|), calls)
    ensures RunAll(Read(session, calls, 0), calls) == RunAll(Read(session, calls, |calls|), calls)
  {
    var trace := ReadTrace(session, calls);
    forall k | 0 <= k < |calls| ensures Follows(trace[k], trace[k + 1], calls) { ReadStep(session, calls, k); }
    AlongTrace(trace, calls);
  }

  ghost function ReadTrace(session: Session, calls: seq<Call>): (trace: seq<State>)
    ensures |trace| == |calls| + 1 && forall k :: 0 <= k <= |calls| ==> trace[k] == Read(session, calls, k)
  {
    seq(|calls| + 1, k requires 0 <= k <= |calls| => Read(session, calls, k))
  }

  lemma TwoRounds(session: Session, calls: seq<Call>)
    requires session.status == InTransaction
    ensures Coherent(Started(session, calls), calls) && Coherent(Read(session, calls, |calls|), calls)
    ensures RunAll(Started(session, calls), calls) == RunAll(Read(session, calls, |calls|), calls)
  {
    RoundsMeet(session, calls);
    StartedCoherent(session, calls);
    MarkRound(session, calls);
    ReadRound(session, calls);
  }

  /**
    For any calls started together on an open transaction, whatever their savepoints are called, every call settles,
    and call `i` gets its own answer exactly as long as no earlier read failed; after a failed read every later one
    answers that the transaction is aborted.
  */
  lemma FifoResults(session: Session, calls: seq<Call>)
    requires session.status == InTransaction
    ensures Coherent(Started(session, calls), calls)
    ensures RunAll(Started(session, calls), calls).phases == AllSettled(Results(calls))
  {
    TwoRounds(session, calls);
    ReadHolds(session, calls);
    ResultsStay(Read(session, calls, |calls|), calls, Results(calls));
  }

  function Results(calls: seq<Call>): seq<ProbeResult> {
    seq(|calls|, i requires 0 <= i < |calls| => ResultOf(calls, i))
  }

  lemma ReadHolds(session: Session, calls: seq<Call>)
    ensures Holds(Read(session, calls, |calls|), Results(calls))
  {
  }

  // ---------------------------------------------------------------- the session afterwards

  ghost predicate DistinctNames(session: Session, calls: seq<Call>) {
    && (forall i, j :: 0 <= i < j < |calls| ==> calls[i].savepoint != calls[j].savepoint)
    && (forall i, m :: 0 <= i < |calls| && 0 <= m < |session.savepoints| ==> calls[i].savepoint != session.savepoints[m].name)
  }

  /** After every read and `k` releases: the first destroys all the savepoints, the second finds none. */
  function Released(session: Session, calls: seq<Call>, k: nat): State
    requires k <= |calls|
  {
    State(session.(savepoints := if k == 0 then Pushed(session, calls, |calls|) else session.savepoints,
                   working := Made(session, calls, |calls|),
                   status := if k <= 1 then InTransaction else Aborted),
          seq(|calls|, i requires 0 <= i < |calls| => if i < k then Settled(ResultOf(calls, i)) else WaitRelease(ResultOf(calls, i))),
          UpTo(k, |calls|))
  }

  lemma {:induction false} NoneFails(calls: seq<Call>, k: nat)
    requires k <= |calls| && forall i :: 0 <= i < |calls| ==> !calls[i].op.fails
    ensures !FailsBefore(calls, k)
  {
    if k > 0 { NoneFails(calls, k - 1); }
  }

  lemma {:induction false} PushedMarks(session: Session, calls: seq<Call>, k: nat)
    requires k <= |calls|
    ensures |Pushed(session, calls, k)| == |session.savepoints| + k
    ensures Pushed(session, calls, k)[..|session.savepoints|] == session.savepoints
    ensures forall i :: 0 <= i < k ==> Pushed(session, calls, k)[|session.savepoints| + i].name == calls[i].savepoint
  {
    if k > 0 { PushedMarks(session, calls, k - 1); }
  }

  lemma InnermostIs(savepoints: seq<Mark>, name: string, i: nat)
    requires i < |savepoints| && savepoints[i].name == name && forall k :: i < k < |savepoints| ==>
      savepoints[k].name != name
    ensures Innermost(savepoints, name) == i
  {
  }

  lemma InnermostNone(savepoints: seq<Mark>, name: string)
    requires forall k :: 0 <= k < |savepoints| ==> savepoints[k].name != name
    ensures Innermost(savepoints, name) == -1
  {
  }

  lemma ReleaseStep(session: Session, calls: seq<Call>, k: nat)
    requires session.status == InTransaction && k < |calls| && DistinctNames(session, calls)
    ensures Follows(Released(session, calls, k), Released(session, calls, k + 1), calls)
  {
    var st, next := Released(session, calls, k), Released(session, calls, k + 1);
    assert st.queue[0] == k && st.queue[1..] + [] == next.queue;
    assert st.phases[k := Settled(ResultOf(calls, k))] == next.phases;
    if k == 0 {
      PushedMarks(session, calls, |calls|);
      var pushed := Pushed(session, calls, |calls|);
      forall m | |session.savepoints| < m < |pushed| ensures pushed[m].name != calls[0].savepoint {
        assert pushed[m].name == calls[m - |session.savepoints|].savepoint;
      }
      assert pushed[|session.savepoints| + 0].name == calls[0].savepoint;
      InnermostIs(pushed, calls[0].savepoint, |session.savepoints|);
    } else {
      InnermostNone(session.savepoints, calls[k].savepoint);
    }
  }

  lemma {:induction false} ReleaseRound(session: Session, calls: seq<Call>)
    requires session.status == InTransaction && DistinctNames(session, calls)
      && Coherent(Released(session, calls, 0), calls)
    ensures Coherent(Released(session, calls, |calls|), calls)
    ensures RunAll(Released(session, calls, 0), calls) == RunAll(Released(session, calls, |calls|), calls)
  {
    var n := |calls|;
    var trace := seq(n + 1, k requires 0 <= k <= n => Released(session, calls, k));
    forall k | 0 <= k < n ensures Follows(trace[k], trace[k + 1], calls) { ReleaseStep(session, calls, k); }
    AlongTrace(trace, calls);
  }

  lemma AllReleased(session: Session, calls: seq<Call>)
    requires Coherent(Released(session, calls, |calls|), calls)
    ensures RunAll(Released(session, calls, |calls|), calls) == Released(session, calls, |calls|)
  {
  }

  lemma ReadThenRelease(session: Session, calls: seq<Call>)
    requires session.status == InTransaction && forall i :: 0 <= i < |calls| ==> !calls[i].op.fails
    ensures Read(session, calls, |calls|) == Released(session, calls, 0)
  {
    var n := |calls|;
    forall k | 0 <= k <= n ensures !FailsBefore(calls, k) { NoneFails(calls, k); }
    assert Rotated(n, n) == UpTo(0, n);
    assert Read(session, calls, n).phases == Released(session, calls, 0).phases;
  }

  // ---------------------------------------------------------------- the session after a failed read

  /** The first read that fails, or the number of calls. */
  function FirstFailure(calls: seq<Call>, k: nat): (f: nat)
    requires k <= |calls|
    ensures f <= k && (f < k ==> calls[f].op.fails)
    ensures forall i :: 0 <= i < f ==> !calls[i].op.fails
  {
    if k == 0 then 0
    else
      var f := FirstFailure(calls, k - 1);
      if f == k - 1 && !calls[k - 1].op.fails then k else f
  }

  lemma {:induction false} FailsAfter(calls: seq<Call>, f: nat, k: nat)
    requires f <= |calls| && k <= |calls| && (forall i :: 0 <= i < f ==> !calls[i].op.fails)
      && (f < |calls| ==> calls[f].op.fails)
    ensures FailsBefore(calls, k) <==> f < k
  {
    if k > 0 { FailsAfter(calls, f, k - 1); }
  }

  /** `f` is the first read that fails. */
  predicate FailsFirst(calls: seq<Call>, f: nat) {
    f < |calls| && calls[f].op.fails && forall i :: 0 <= i < f ==> !calls[i].op.fails
  }

  /** In the third round, after `k` statements: the calls before `f` release in vain, `f` rolls back and revives the
      transaction, which takes the later savepoints away, and the next call's rollback aborts it again. */
  function Rolling(session: Session, calls: seq<Call>, f: nat, k: nat): State
    requires f < |calls| && k <= |calls|
  {
    State(if k <= f then Read(session, calls, |calls|).session
          else session.(savepoints := Pushed(session, calls, f + 1), status := if k == f + 1 then InTransaction else Aborted),
          seq(|calls|, i requires 0 <= i < |calls| =>
            if i >= k then Answered(ResultOf(calls, i)) else if i < f then Settled(ResultOf(calls, i)) else WaitFinalRelease(ResultOf(calls, i))),
          UpTo(k, |calls|) + UpTo(f, if k < f then f else k))
  }

  /** In the fourth round, after `k` releases: only the last call's, if it is `f`, finds a usable transaction. */
  function Closing(session: Session, calls: seq<Call>, f: nat, k: nat): State
    requires f + k <= |calls|
  {
    State(session.(savepoints := Pushed(session, calls, if f + k == |calls| && k == 1 then f else if f < |calls| then f + 1 else f),
                   status := if f + 1 == |calls| then InTransaction else Aborted),
          seq(|calls|, i requires 0 <= i < |calls| => if i < f + k then Settled(ResultOf(calls, i)) else WaitFinalRelease(ResultOf(calls, i))),
          UpTo(f + k, |calls|))
  }

  lemma AnsweredAround(calls: seq<Call>, f: nat, i: nat)
    requires FailsFirst(calls, f) && i < |calls|
    ensures Answered(ResultOf(calls, i)) == if i < f then WaitRelease(ResultOf(calls, i)) else WaitRollback(ResultOf(calls, i))
  {
    FailsAfter(calls, f, i);
  }

  lemma {:induction false} MarkData(session: Session, calls: seq<Call>, k: nat)
    requires k <= |calls|
    ensures |Pushed(session, calls, k)| == |session.savepoints| + k
    ensures forall m :: |session.savepoints| <= m < |session.savepoints| + k ==>
      Pushed(session, calls, k)[m].data == session.working
  {
    if k > 0 { MarkData(session, calls, k - 1); }
  }

  lemma {:induction false} PushedPrefix(session: Session, calls: seq<Call>, k: nat, m: nat)
    requires k <= m <= |calls|
    ensures |Pushed(session, calls, m)| == |session.savepoints| + m
    ensures Pushed(session, calls, m)[..|session.savepoints| + k] == Pushed(session, calls, k)
  {
    PushedMarks(session, calls, m);
    PushedMarks(session, calls, k);
    if k < m { PushedPrefix(session, calls, k, m - 1); }
  }

  /** Where a call's savepoint is, among the first `m`. */
  lemma InnermostOfCall(session: Session, calls: seq<Call>, i: nat, m: nat)
    requires DistinctNames(session, calls) && i < |calls| && m <= |calls|
    ensures Innermost(Pushed(session, calls, m), calls[i].savepoint) == if i < m then |session.savepoints| + i else -1
  {
    var pushed := Pushed(session, calls, m);
    var o := |session.savepoints|;
    PushedMarks(session, calls, m);
    forall k | 0 <= k < |pushed| ensures pushed[k].name == calls[i].savepoint <==> k == o + i {
      if k < o {
        assert pushed[..o][k] == session.savepoints[k];
      } else {
        assert pushed[o + (k - o)].name == calls[k - o].savepoint;
      }
    }
    if i < m { InnermostIs(pushed, calls[i].savepoint, o + i); } else { InnermostNone(pushed, calls[i].savepoint); }
  }

  lemma RolledBack(s: Session, name: string, i: nat)
    requires s.status != Idle && Innermost(s.savepoints, name) == i
    ensures OnRollbackTo(s, name).0 == s.(status := InTransaction, savepoints := s.savepoints[..i + 1], working := s.savepoints[i].data)
  {
  }

  /** The savepoint of a call once all are pushed, and what lies below it. */
  lemma MarkOfCall(session: Session, calls: seq<Call>, f: nat)
    requires DistinctNames(session, calls) && f < |calls|
    ensures
      var pushed, i := Pushed(session, calls, |calls|), |session.savepoints| + f;
      && i < |pushed| && Innermost(pushed, calls[f].savepoint) == i && pushed[i].data == session.working
      && pushed[..i + 1] == Pushed(session, calls, f + 1)
  {
    InnermostOfCall(session, calls, f, |calls|);
    MarkData(session, calls, |calls|);
    PushedPrefix(session, calls, f + 1, |calls|);
    assert |session.savepoints| + f + 1 == |session.savepoints| + (f + 1);
  }

  /** The rollback of the first failure: the transaction is usable again, as it was before the reads. */
  lemma {:induction false} Revived(session: Session, calls: seq<Call>, f: nat)
    requires session.status == InTransaction && DistinctNames(session, calls) && FailsFirst(calls, f)
    ensures OnRollbackTo(Read(session, calls, |calls|).session, calls[f].savepoint).0 == session.(savepoints := Pushed(session, calls, f + 1))
  {
    MarkOfCall(session, calls, f);
    RolledBack(Read(session, calls, |calls|).session, calls[f].savepoint, |session.savepoints| + f);
  }

  /** Any later rollback: its savepoint is gone. */
  lemma AbortedAgain(session: Session, calls: seq<Call>, f: nat, k: nat, st: Session)
    requires DistinctNames(session, calls) && f < k < |calls| && st.savepoints == Pushed(session, calls, f + 1)
      && st.status != Idle
    ensures OnRollbackTo(st, calls[k].savepoint).0 == st.(status := Aborted)
  {
    InnermostOfCall(session, calls, k, f + 1);
  }

  /** The session's answer to the third statement of call `k`. */
  lemma RollSession(session: Session, calls: seq<Call>, f: nat, k: nat)
    requires session.status == InTransaction && DistinctNames(session, calls) && FailsFirst(calls, f) && k < |calls|
    ensures
      var statement := if k < f then Release(calls[k].savepoint) else RollbackTo(calls[k].savepoint);
      Send(Rolling(session, calls, f, k).session, statement).0 == Rolling(session, calls, f, k + 1).session
  {
    var st := Rolling(session, calls, f, k).session;
    FailsAfter(calls, f, |calls|);
    if k < f {
      assert OnRelease(st, calls[k].savepoint).0 == st;
    } else if k == f {
      Revived(session, calls, f);
    } else {
      AbortedAgain(session, calls, f, k, st);
    }
  }

  lemma RollStep(session: Session, calls: seq<Call>, f: nat, k: nat)
    requires session.status == InTransaction && DistinctNames(session, calls) && FailsFirst(calls, f) && k < |calls|
    ensures Follows(Rolling(session, calls, f, k), Rolling(session, calls, f, k + 1), calls)
  {
    var st, next := Rolling(session, calls, f, k), Rolling(session, calls, f, k + 1);
    AnsweredAround(calls, f, k);
    RollSession(session, calls, f, k);
    RollQueue(session, calls, f, k);
    assert st.phases[k := next.phases[k]] == next.phases;
  }

  lemma RollQueue(session: Session, calls: seq<Call>, f: nat, k: nat)
    requires f < |calls| && k < |calls|
    ensures
      var st, next := Rolling(session, calls, f, k), Rolling(session, calls, f, k + 1);
      st.queue != [] && st.queue[0] == k && st.queue[1..] + (if k < f then [] else [k]) == next.queue
  {
    assert UpTo(k, |calls|)[1..] == UpTo(k + 1, |calls|);
    if k >= f { assert UpTo(f, k) + [k] == UpTo(f, k + 1); }
  }

  lemma {:induction false} RollRound(session: Session, calls: seq<Call>, f: nat)
    requires session.status == InTransaction && DistinctNames(session, calls) && FailsFirst(calls, f)
    requires Coherent(Rolling(session, calls, f, 0), calls)
    ensures Coherent(Rolling(session, calls, f, |calls|), calls)
    ensures RunAll(Rolling(session, calls, f, 0), calls) == RunAll(Rolling(session, calls, f, |calls|), calls)
  {
    var trace := RollTrace(session, calls, f);
    forall k | 0 <= k < |calls| ensures Follows(trace[k], trace[k + 1], calls) { RollStep(session, calls, f, k); }
    AlongTrace(trace, calls);
  }

  ghost function RollTrace(session: Session, calls: seq<Call>, f: nat): (trace: seq<State>)
    requires f < |calls|
    ensures |trace| == |calls| + 1 && forall k :: 0 <= k <= |calls| ==> trace[k] == Rolling(session, calls, f, k)
  {
    seq(|calls| + 1, k requires 0 <= k <= |calls| => Rolling(session, calls, f, k))
  }

  lemma CloseStep(session: Session, calls: seq<Call>, f: nat, k: nat)
    requires session.status == InTransaction && DistinctNames(session, calls) && FailsFirst(calls, f) && f + k < |calls|
    ensures Follows(Closing(session, calls, f, k), Closing(session, calls, f, k + 1), calls)
  {
    var st, next := Closing(session, calls, f, k), Closing(session, calls, f, k + 1);
    assert st.queue[0] == f + k && st.queue[1..] + [] == next.queue;
    assert st.phases[f + k := Settled(ResultOf(calls, f + k))] == next.phases;
    if f + 1 == |calls| {
      InnermostOfCall(session, calls, f, f + 1);
      PushedPrefix(session, calls, f, f + 1);
    }
  }

  lemma {:induction false} CloseRound(session: Session, calls: seq<Call>, f: nat)
    requires session.status == InTransaction && DistinctNames(session, calls) && FailsFirst(calls, f)
    requires Coherent(Closing(session, calls, f, 0), calls)
    ensures Coherent(Closing(session, calls, f, |calls| - f), calls)
    ensures RunAll(Closing(session, calls, f, 0), calls) == RunAll(Closing(session, calls, f, |calls| - f), calls)
  {
    var n := |calls| - f;
    var trace := CloseTrace(session, calls, f);
    forall k | 0 <= k < n ensures Follows(trace[k], trace[k + 1], calls) { CloseStep(session, calls, f, k); }
    AlongTrace(trace, calls);
  }

  ghost function CloseTrace(session: Session, calls: seq<Call>, f: nat): (trace: seq<State>)
    requires f < |calls|
    ensures |trace| == |calls| - f + 1 && forall k :: 0 <= k <= |calls| - f ==>
      trace[k] == Closing(session, calls, f, k)
  {
    seq(|calls| - f + 1, k requires 0 <= k <= |calls| - f => Closing(session, calls, f, k))
  }

  lemma RoundsMeetAgain(session: Session, calls: seq<Call>, f: nat)
    requires session.status == InTransaction && FailsFirst(calls, f)
    ensures Read(session, calls, |calls|) == Rolling(session, calls, f, 0)
    ensures Rolling(session, calls, f, |calls|) == Closing(session, calls, f, 0)
  {
    var n := |calls|;
    assert Rotated(n, n) == UpTo(0, n) && UpTo(0, n) + UpTo(f, f) == UpTo(0, n);
    assert Read(session, calls, n).phases == Rolling(session, calls, f, 0).phases;
    assert UpTo(n, n) + UpTo(f, n) == UpTo(f, n);
    assert Rolling(session, calls, f, n).phases == Closing(session, calls, f, 0).phases;
  }

  lemma RunOfSettled(st: State, calls: seq<Call>)
    requires Coherent(st, calls) && st.queue == []
    ensures RunAll(st, calls) == st
  {
  }

  /** What calls that ran together leave behind. */
  function SessionAfter(session: Session, calls: seq<Call>): Session {
    var n := |calls|;
    var f := FirstFailure(calls, n);
    if f == n then session.(working := Made(session, calls, n), status := if n <= 1 then InTransaction else Aborted)
    else session.(savepoints := Pushed(session, calls, if f == n - 1 then f else f + 1),
                  status := if f == n - 1 then InTransaction else Aborted)
  }

  lemma FailedRunLeaves(session: Session, calls: seq<Call>, f: nat)
    requires session.status == InTransaction && DistinctNames(session, calls) && FailsFirst(calls, f)
    ensures Coherent(Started(session, calls), calls)
    ensures RunAll(Started(session, calls), calls) == Closing(session, calls, f, |calls| - f)
  {
    TwoRounds(session, calls);
    RoundsMeetAgain(session, calls, f);
    RollRound(session, calls, f);
    CloseRound(session, calls, f);
    RunOfSettled(Closing(session, calls, f, |calls| - f), calls);
  }

  lemma FineRunLeaves(session: Session, calls: seq<Call>)
    requires session.status == InTransaction && DistinctNames(session, calls)
    requires forall i :: 0 <= i < |calls| ==> !calls[i].op.fails
    ensures Coherent(Started(session, calls), calls)
    ensures RunAll(Started(session, calls), calls) == Released(session, calls, |calls|)
  {
    TwoRounds(session, calls);
    ReadThenRelease(session, calls);
    ReleaseRound(session, calls);
    AllReleased(session, calls);
  }

  lemma FifoLeavesSession(session: Session, calls: seq<Call>)
    requires session.status == InTransaction && DistinctNames(session, calls)
    ensures Coherent(Started(session, calls), calls)
    ensures RunAll(Started(session, calls), calls).session == SessionAfter(session, calls)
  {
    var n := |calls|;
    var f := FirstFailure(calls, n);
    if f == n { FineRunLeaves(session, calls); } else { FailedRunLeaves(session, calls, f); }
  }

  /** The transaction survives calls that ran together in two cases only: there was at most one, or the last read was
      the first to fail. */
  predicate Survives(calls: seq<Call>) {
    |calls| <= 1 || (calls[|calls| - 1].op.fails && !FailsBefore(calls, |calls| - 1))
  }

  /**
    Whatever fails, calls that ran together leave the transaction usable exactly when `Survives` holds. When the last
    read is the first to fail, the savepoints of all the others stay behind; when an earlier one is, its own and those
    before it do; otherwise none does. COMMIT then makes durable what the session had worked before the calls, with the
    effects of the reads only if none failed; after an abort it silently makes nothing durable.
  */
  lemma FifoOutcome(session: Session, calls: seq<Call>)
    requires session.status == InTransaction && DistinctNames(session, calls)
    ensures Coherent(Started(session, calls), calls)
    ensures
      var after := RunAll(Started(session, calls), calls).session;
      var n, f := |calls|, FirstFailure(calls, |calls|);
      && after.status == (if Survives(calls) then InTransaction else Aborted)
      && |after.savepoints| == |session.savepoints| + Leaked(calls)
      && after.savepoints[..|session.savepoints|] == session.savepoints
      && (forall i :: 0 <= i < Leaked(calls) ==> after.savepoints[|session.savepoints| + i].name == calls[i].savepoint)
      && OnCommit(after).0.durable
        == (if !Survives(calls) then session.durable else if f == n then Made(session, calls, n) else session.working)
      && OnCommit(after).1 == Done([])
  {
    FifoLeavesSession(session, calls);
    AfterStatus(session, calls);
    AfterMarks(session, calls);
  }

  lemma AfterStatus(session: Session, calls: seq<Call>)
    requires session.status == InTransaction
    ensures SessionAfter(session, calls).status == if Survives(calls) then InTransaction else Aborted
    ensures SessionAfter(session, calls).durable == session.durable
    ensures Survives(calls) ==>
      SessionAfter(session, calls).working == if FirstFailure(calls, |calls|) == |calls| then Made(session, calls, |calls|) else session.working
  {
    if |calls| > 0 { FailsAfter(calls, FirstFailure(calls, |calls|), |calls| - 1); }
  }

  /** How many of the calls' savepoints stay behind. */
  function Leaked(calls: seq<Call>): (k: nat)
    ensures k <= |calls|
  {
    var n, f := |calls|, FirstFailure(calls, |calls|);
    if f == n then 0 else if f == n - 1 then n - 1 else f + 1
  }

  lemma AfterMarks(session: Session, calls: seq<Call>)
    ensures SessionAfter(session, calls).savepoints == Pushed(session, calls, Leaked(calls))
    ensures |SessionAfter(session, calls).savepoints| == |session.savepoints| + Leaked(calls)
    ensures SessionAfter(session, calls).savepoints[..|session.savepoints|] == session.savepoints
    ensures forall i :: 0 <= i < Leaked(calls) ==>
      SessionAfter(session, calls).savepoints[|session.savepoints| + i].name == calls[i].savepoint
  {
    PushedMarks(session, calls, Leaked(calls));
  }

  /** The smallest leak: of two calls the second read fails; the transaction goes on, and the first savepoint stays. */
  lemma LeakedSavepoint(session: Session, x: Call, y: Call)
    requires session == Session(InTransaction, [], [], []) && x.savepoint == "x" && y.savepoint == "y"
    requires !x.op.fails && y.op.fails
    ensures Coherent(Started(session, [x, y]), [x, y])
    ensures RunAll(Started(session, [x, y]), [x, y]).session == Session(InTransaction, [Mark("x", [])], [], [])
  {
    var calls := [x, y];
    assert "x"[0] != "y"[0];
    FifoLeavesSession(session, calls);
    assert FirstFailure(calls, 0) == 0;
    assert FirstFailure(calls, 1) == 1;
    assert Pushed(session, calls, 0) == [];
    assert Pushed(session, calls, 1) == [Mark("x", [])];
  }

  /** A single call on the queue is the sequential wrapper. */
  lemma OneCallIsSequential(session: Session, call: Call)
    requires session.status == InTransaction
    ensures Coherent(Started(session, [call]), [call])
    ensures RunAll(Started(session, [call]), [call]).phases == [Settled(SafeQuery(session, call.savepoint, call.op).1)]
  {
    FifoResults(session, [call]);
    SafeQueryIsolates(session, call.savepoint, call.op);
    assert ResultOf([call], 0) == call.op.Outcome();
  }
}
