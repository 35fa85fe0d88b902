/**
 * The bookkeeping of `Master` in dswizard/core/master.py, as functions on a
 * value of the shared state. Each function is one critical section (one
 * `with self.thread_cond` block): a pass of the `_optimize` loop, the
 * evaluation callback and the structure callback. The class in module Core
 * performs the same updates in place and is proved equal to these functions.
 */
module Scheduler {
  import opened Wrappers
  import opened Model

  /** After this many consecutive empty answers of the proposer the loop gives up. */
  const FailSafeLimit: int := 10

  /** An entry of `incomplete_structures`: (structure, remaining budget, running count). */
  datatype Entry = Entry(cs: Structure, remaining: int, running: int)

  /**
   * The state the three critical sections read and write: the table of
   * incomplete structures, the number of running structure jobs, the number of
   * results each structure holds, and the two locals of `_optimize` that
   * survive from one pass to the next: `fail_safe` and what the proposer has
   * yet to yield (the end of the sequence is its `StopIteration`).
   */
  datatype State = State(
    table: map<StructureId, Entry>,
    runningStructures: int,
    results: map<StructureId, nat>,
    failSafe: int,
    proposals: seq<Option<Structure>>)

  /** `len(cs.results)` of the structure with id `k`. */
  function Results(s: State, k: StructureId): nat
  {
    if k in s.results then s.results[k] else 0
  }

  /** The state of a fresh `Master` (empty table, no running structures). */
  function Init(): State
  {
    State(map[], 0, map[], 0, [])
  }

  /** How one pass of the `_optimize` loop ends. */
  datatype Outcome =
    | Submit(job: Job)              // the job built in this pass goes to the dispatcher
    | Idle                          // a materialised structure entered the table; nothing to submit
    | Wait                          // the proposer had nothing and structure jobs are running: `wait()`
    | Retry                         // the proposer had nothing twice: `fail_safe` grew, loop again
    | Stuck                         // `fail_safe` passed its limit: `_optimize` returns True
    | Exhausted                     // the proposer raised StopIteration: `_optimize` returns False
    | TimedOut(unsent: Option<Job>) // the clock fired: `finish_work()`, return True, the job is dropped
  {
    /** What `_optimize` returns after this pass, if it returns. */
    function Returns(): Option<bool>
    {
      match this
      case Stuck => Some(true)
      case TimedOut(_) => Some(true)
      case Exhausted => Some(false)
      case _ => None
    }
  }

  datatype StepResult = StepResult(state: State, outcome: Outcome)

  /**
   * The evaluation job for entry `e` of a structure holding `results` results.
   * In pre-sample mode the job carries the sampled configuration and no cache
   * keys (see EvaluationKeysAsWritten for the code as written); in lazy mode it
   * carries no configuration and the structure's cached keys.
   */
  function NewEvaluationJob(e: Entry, results: nat, preSample: bool, sampled: Config): (job: Job)
  {
    var id := e.cs.cid.WithConfig(results + e.running);
    if preSample then EvaluationJob(id, e.cs, Some(sampled), None)
    else EvaluationJob(id, e.cs, None, Some(e.cs.cfgKeys))
  }

  /** The clock test after the critical section: a built job is either submitted or dropped. */
  function CheckClock(s: State, job: Option<Job>, timedOut: bool): (r: StepResult)
  {
    if timedOut then StepResult(s, TimedOut(job))
    else StepResult(s, if job.Some? then Submit(job.value) else Idle)
  }

  /** Table non-empty: build an evaluation job for entry `pick` and charge it to the entry. */
  function Evaluate(s: State, preSample: bool, pick: StructureId, sampled: Config, timedOut: bool): StepResult
    requires pick in s.table
  {
    var e := s.table[pick];
    var job := NewEvaluationJob(e, Results(s, e.cs.cid), preSample, sampled);
    var table :=
      if e.remaining > 1 then s.table[pick := Entry(e.cs, e.remaining - 1, e.running + 1)]
      else s.table - {pick};
    CheckClock(s.(table := table), Some(job), timedOut)
  }

  /** What the one or two calls of `next(it)` in a pass produce. */
  datatype Draw =
    | Stop(rest: seq<Option<Structure>>)                // StopIteration
    | Block(rest: seq<Option<Structure>>)               // None while structure jobs run
    | Empty(rest: seq<Option<Structure>>)               // None, none running, and None again
    | Got(c: Structure, rest: seq<Option<Structure>>)   // a candidate

  /** Pull from the proposer as a pass with an empty table does. */
  function DrawFrom(proposals: seq<Option<Structure>>, runningStructures: int): Draw
  {
    if proposals == [] then Stop([])
    else if proposals[0].Some? then Got(proposals[0].value, proposals[1..])
    else if runningStructures > 0 then Block(proposals[1..])
    else if |proposals| == 1 then Stop([])
    else if proposals[1].Some? then Got(proposals[1].value, proposals[2..])
    else Empty(proposals[2..])
  }

  /** A candidate arrived: reset `fail_safe`; a proxy becomes a structure job, a materialised one a table entry. */
  function Accept(s: State, c: Structure, timedOut: bool): StepResult
  {
    var s1 := s.(failSafe := 0);
    if c.isProxy then
      CheckClock(s1.(runningStructures := s1.runningStructures + 1), Some(StructureJob(c)), timedOut)
    else
      CheckClock(s1.(table := s1.table[c.cid := Entry(c, Int(c.budget), 0)]), None, timedOut)
  }

  /** Table empty: ask the proposer. */
  function Propose(s: State, timedOut: bool): StepResult
  {
    match DrawFrom(s.proposals, s.runningStructures)
    case Stop(rest) => StepResult(s.(proposals := rest), Exhausted)
    case Block(rest) => StepResult(s.(proposals := rest), Wait)
    case Empty(rest) =>
      var fs := s.failSafe + 1;
      StepResult(s.(proposals := rest, failSafe := fs), if fs > FailSafeLimit then Stuck else Retry)
    case Got(c, rest) => Accept(s.(proposals := rest), c, timedOut)
  }

  /**
   * One pass of the `while True` loop of `_optimize`. `pick` is the key
   * `random.choice` returns, `sampled` what the configuration cache samples in
   * pre-sample mode and `timedOut` the answer of the wall-clock test.
   */
  function Step(s: State, preSample: bool, pick: StructureId, sampled: Config, timedOut: bool): StepResult
    requires s.table != map[] ==> pick in s.table
  {
    if s.table != map[] then Evaluate(s, preSample, pick, sampled, timedOut)
    else Propose(s, timedOut)
  }

  datatype Completion = Completion(state: State, logged: Job)

  /**
   * `_evaluation_callback`: a job without configuration gets the default one;
   * the structure gains a result; its running count drops if it is still in the table.
   * `logged` is the job as handed to the result logger and the cache.
   */
  function EvaluationDone(s: State, job: Job): Completion
    requires job.EvaluationJob?
  {
    var logged := if job.config.None? then job.(config := Some(DefaultConfig)) else job;
    var k := job.cs.cid;
    var results := s.results[k := Results(s, k) + 1];
    var table := if k in s.table then s.table[k := s.table[k].(running := s.table[k].running - 1)] else s.table;
    Completion(s.(table := table, results := results), logged)
  }

  /**
   * `_structure_callback`: a materialised structure enters the table with its
   * full budget and nothing running; an absent or proxy result is dropped.
   * Either way one structure job fewer is running.
   */
  function StructureDone(s: State, done: Option<Structure>): State
  {
    var s1 := s.(runningStructures := s.runningStructures - 1);
    if done.None? || done.value.isProxy then s1
    else s1.(table := s1.table[done.value.cid := Entry(done.value, Int(done.value.budget), 0)])
  }

  /** The start of `_optimize`: `fail_safe = 0` and the iterator of the freshly reset learner. */
  function Restart(s: State, proposals: seq<Option<Structure>>): (r: State)
    ensures r.table == s.table && r.runningStructures == s.runningStructures && r.results == s.results
    ensures r.failSafe == 0 && r.proposals == proposals
  {
    s.(failSafe := 0, proposals := proposals)
  }

  // ---------------------------------------------------------------------
  // What one critical section does, stated against the state it starts from.

  /**
   * With a non-empty table a pass builds an evaluation job for `pick` whose
   * configuration index is the structure's result count plus its running
   * count; the entry becomes (cs, n - 1, r + 1), so remaining plus running is
   * unchanged, or is deleted when n <= 1. No other entry, counter or the
   * proposer changes.
   */
  lemma EvaluationPass(s: State, preSample: bool, pick: StructureId, sampled: Config, timedOut: bool)
    requires pick in s.table
    ensures var r := Step(s, preSample, pick, sampled, timedOut);
            var e := s.table[pick];
            var job := NewEvaluationJob(e, Results(s, e.cs.cid), preSample, sampled);
            && r.outcome == (if timedOut then TimedOut(Some(job)) else Submit(job))
            && job.cid == e.cs.cid.WithConfig(Results(s, e.cs.cid) + e.running)
            && job.cs == e.cs
            && (e.remaining > 1 ==>
                  && pick in r.state.table
                  && r.state.table[pick].cs == e.cs
                  && r.state.table[pick].remaining == e.remaining - 1
                  && r.state.table[pick].remaining + r.state.table[pick].running == e.remaining + e.running)
            && (e.remaining <= 1 ==> pick !in r.state.table)
            && (forall k :: k != pick ==> (k in r.state.table <==> k in s.table))
            && (forall k :: k != pick && k in s.table ==> r.state.table[k] == s.table[k])
            && r.state.(table := s.table) == s
  {
  }

  /**
   * The job of pre-sample mode carries the sampled configuration; that of
   * lazy mode carries the structure's cached keys for the worker to resolve.
   * Either way the worker has something to evaluate.
   */
  lemma EvaluationJobResolvable(e: Entry, results: nat, preSample: bool, sampled: Config)
    ensures var job := NewEvaluationJob(e, results, preSample, sampled);
            && job.EvaluationJob?
            && (preSample ==> job.config == Some(sampled) && job.cfgKeys.None?)
            && (!preSample ==> job.config.None? && job.cfgKeys == Some(e.cs.cfgKeys))
            && (job.config.Some? || job.cfgKeys.Some?)
  {
  }

  /**
   * The proposer is consulted only when the table is empty, and a candidate
   * that arrives resets `fail_safe`: a proxy becomes a structure job and one
   * more running structure with the table untouched; a materialised structure
   * enters the table as (c, int(budget), 0) and no job is built.
   */
  lemma CandidatePass(s: State, preSample: bool, pick: StructureId, sampled: Config, timedOut: bool)
    requires s.table == map[]
    requires DrawFrom(s.proposals, s.runningStructures).Got?
    ensures var c := DrawFrom(s.proposals, s.runningStructures).c;
            var r := Step(s, preSample, pick, sampled, timedOut);
            && r.state.failSafe == 0
            && |r.state.proposals| < |s.proposals|
            && r.state.results == s.results
            && (c.isProxy ==>
                  && r.outcome == (if timedOut then TimedOut(Some(StructureJob(c))) else Submit(StructureJob(c)))
                  && r.state.runningStructures == s.runningStructures + 1
                  && r.state.table == s.table)
            && (!c.isProxy ==>
                  && r.outcome == (if timedOut then TimedOut(None) else Idle)
                  && r.state.runningStructures == s.runningStructures
                  && r.state.table == map[c.cid := Entry(c, Int(c.budget), 0)])
  {
  }

  /**
   * The proposer answers None. While structure jobs run the pass waits and
   * changes nothing but the proposer; with none running and a second None it
   * raises `fail_safe` by one and gives up exactly when that passes the limit.
   */
  lemma NotReadyPass(s: State, preSample: bool, pick: StructureId, sampled: Config, timedOut: bool)
    requires s.table == map[]
    requires s.proposals != [] && s.proposals[0].None?
    ensures var r := Step(s, preSample, pick, sampled, timedOut);
            && (s.runningStructures > 0 ==>
                  r.outcome == Wait && r.state == s.(proposals := s.proposals[1..]))
            && (s.runningStructures <= 0 && |s.proposals| >= 2 && s.proposals[1].None? ==>
                  && r.state == s.(proposals := s.proposals[2..], failSafe := s.failSafe + 1)
                  && (r.outcome == Stuck <==> s.failSafe + 1 > FailSafeLimit)
                  && (r.outcome != Stuck ==> r.outcome == Retry))
            && (s.runningStructures <= 0 && |s.proposals| == 1 ==> r.outcome == Exhausted)
  {
  }

  /** A pass that starts with `fail_safe` within its limit leaves it there unless it gives up. */
  lemma FailSafeBounded(s: State, preSample: bool, pick: StructureId, sampled: Config, timedOut: bool)
    requires s.table != map[] ==> pick in s.table
    requires 0 <= s.failSafe <= FailSafeLimit
    ensures var r := Step(s, preSample, pick, sampled, timedOut);
            && (r.outcome != Stuck ==> 0 <= r.state.failSafe <= FailSafeLimit)
            && (r.outcome == Stuck ==> r.state.failSafe == FailSafeLimit + 1)
            && (r.state.failSafe != s.failSafe ==> r.state.failSafe == 0 || r.state.failSafe == s.failSafe + 1)
  {
  }

  /**
   * The clock only decides whether the job built in a pass is sent: the
   * bookkeeping is the same whether or not it fired, and a pass whose check
   * fires submits nothing and returns True, carrying the job it built.
   */
  lemma ClockDecidesOnlySubmission(s: State, preSample: bool, pick: StructureId, sampled: Config)
    requires s.table != map[] ==> pick in s.table
    ensures var late := Step(s, preSample, pick, sampled, true);
            var early := Step(s, preSample, pick, sampled, false);
            && late.state == early.state
            && !late.outcome.Submit? && !late.outcome.Idle?
            && (forall j :: early.outcome == Submit(j) <==> late.outcome == TimedOut(Some(j)))
            && (early.outcome == Idle <==> late.outcome == TimedOut(None))
            && (late.outcome.TimedOut? ==> late.outcome.Returns() == Some(true))
            && (!early.outcome.Submit? && !early.outcome.Idle? ==> late.outcome == early.outcome)
  {
  }

  /**
   * A finished evaluation: the logged job has a configuration (the default one
   * if it came without), the structure holds one more result, and only its
   * running count drops, and only if it is still in the table.
   */
  lemma EvaluationCompletion(s: State, job: Job)
    requires job.EvaluationJob?
    ensures var d := EvaluationDone(s, job);
            var k := job.cs.cid;
            && d.logged.config.Some?
            && (job.config.Some? ==> d.logged == job)
            && (job.config.None? ==> d.logged == job.(config := Some(DefaultConfig)))
            && Results(d.state, k) == Results(s, k) + 1
            && (forall k' :: k' != k ==> Results(d.state, k') == Results(s, k'))
            && (k in s.table ==>
                  d.state.table == s.table[k := Entry(s.table[k].cs, s.table[k].remaining, s.table[k].running - 1)])
            && (k !in s.table ==> d.state.table == s.table)
            && d.state.(table := s.table, results := s.results) == s
  {
  }

  /**
   * A finished structure job: a materialised result enters the table with its
   * full budget and nothing running, an absent or proxy result leaves the
   * table as it was; the running structure count drops by exactly one.
   */
  lemma StructureCompletion(s: State, done: Option<Structure>)
    ensures var s' := StructureDone(s, done);
            && s'.runningStructures == s.runningStructures - 1
            && (done.None? || done.value.isProxy ==> s'.table == s.table)
            && (done.Some? && !done.value.isProxy ==>
                  s'.table == s.table[done.value.cid := Entry(done.value, Int(done.value.budget), 0)])
            && s'.(table := s.table, runningStructures := s.runningStructures) == s
  {
  }

  // ---------------------------------------------------------------------
  // The cache-key argument of EvaluationJob as the loop is written.

  /** The exception Python raises when a local is read before it is bound. */
  datatype LocalError = UnboundLocalError

  /**
   * `cfg_keys` as master.py:175-183 passes it to EvaluationJob. `bound` is
   * the binding of the local `cfg_keys` of `_optimize` when the pass starts
   * (None: never bound). Pre-sample mode binds only `cfg_key`, so it reads
   * `bound`; lazy mode binds `cfg_keys` to the structure's keys first.
   */
  function EvaluationKeysAsWritten(preSample: bool, bound: Option<seq<CfgKey>>, cs: Structure)
    : (r: Result<seq<CfgKey>, LocalError>)
  {
    if preSample then (if bound.Some? then Success(bound.value) else Failure(UnboundLocalError))
    else Success(cs.cfgKeys)
  }

  /** The binding of `cfg_keys` after evaluation passes for `css`, starting from `bound`. */
  function KeysBindingAfter(preSample: bool, bound: Option<seq<CfgKey>>, css: seq<Structure>): Option<seq<CfgKey>>
    decreases |css|
  {
    if css == [] then bound
    else KeysBindingAfter(preSample, if preSample then bound else Some(css[0].cfgKeys), css[1..])
  }

  /**
   * As written, pre-sample mode never binds `cfg_keys`: `_optimize` starts
   * with it unbound, so its first evaluation pass raises UnboundLocalError,
   * which ends `optimize()` (only KeyboardInterrupt is caught there). The
   * cases `i > 0` say that no later pass would bind it either; in the source
   * those passes are never reached.
   */
  lemma {:induction false} PreSampleEvaluationRaises(css: seq<Structure>, i: nat)
    requires i < |css|
    ensures KeysBindingAfter(true, None, css[..i]) == None
    ensures EvaluationKeysAsWritten(true, KeysBindingAfter(true, None, css[..i]), css[i]) == Failure(UnboundLocalError)
  {
    if i > 0 {
      PreSampleEvaluationRaises(css[1..], i - 1);
      assert css[..i][1..] == css[1..][..i - 1];
    }
  }

  /** In lazy mode the code as written and NewEvaluationJob pass the same keys. */
  lemma LazyKeysAgree(bound: Option<seq<CfgKey>>, e: Entry, results: nat, sampled: Config)
    ensures EvaluationKeysAsWritten(false, bound, e.cs) == Success(e.cs.cfgKeys)
    ensures NewEvaluationJob(e, results, false, sampled).cfgKeys == Some(e.cs.cfgKeys)
  {
  }

  /**
   * Nothing in the loop keeps a configuration id from being issued twice: if
   * the proposer yields a materialised structure whose id is already in use,
   * its entry starts again from `len(results) + 0`. Here structure `k` with
   * budget 2 issues `k/0` and `k/1`, leaving the table; `k/0` completes; the
   * proposer yields the same structure again; and the next pass issues `k/1`
   * a second time while the first `k/1` has not completed.
   */
  lemma ReenteredStructureReissuesId(k: StructureId, keys: seq<CfgKey>, preSample: bool, sampled: Config)
    ensures var cs := Structure(k, false, 2.0, keys);
            var s0 := State(map[k := Entry(cs, 2, 0)], 0, map[], 0, [Some(cs)]);
            var s1 := State(map[k := Entry(cs, 1, 1)], 0, map[], 0, [Some(cs)]);
            var s2 := State(map[], 0, map[], 0, [Some(cs)]);
            var s3 := State(map[], 0, map[k := 1], 0, [Some(cs)]);
            var s4 := State(map[k := Entry(cs, 2, 0)], 0, map[k := 1], 0, []);
            var s5 := State(map[k := Entry(cs, 1, 1)], 0, map[k := 1], 0, []);
            var first := NewEvaluationJob(Entry(cs, 2, 0), 0, preSample, sampled);
            var second := NewEvaluationJob(Entry(cs, 1, 1), 0, preSample, sampled);
            var again := NewEvaluationJob(Entry(cs, 2, 0), 1, preSample, sampled);
            && Step(s0, preSample, k, sampled, false) == StepResult(s1, Submit(first))
            && Step(s1, preSample, k, sampled, false) == StepResult(s2, Submit(second))
            && EvaluationDone(s2, first).state == s3
            && Step(s3, preSample, k, sampled, false) == StepResult(s4, Idle)
            && Step(s4, preSample, k, sampled, false) == StepResult(s5, Submit(again))
            && first.cid == k.WithConfig(0)
            && second.cid == again.cid == k.WithConfig(1)
  {
    var cs := Structure(k, false, 2.0, keys);
    assert Int(2.0) == 2;
    assert map[k := Entry(cs, 1, 1)] - {k} == map[];
  }
}
