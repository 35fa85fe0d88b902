/**
 * `Master` of dswizard/core/master.py as a class: the shared state of the
 * scheduler lives in fields that its methods update in place, one method per
 * critical section. Each method is proved to leave exactly the state (and
 * return exactly the outcome) the corresponding function of module Scheduler
 * prescribes, so the facts proved there hold of the class.
 */
module Core {
  import opened Wrappers
  import opened Model
  import opened Scheduler

  /** How one call of `_optimize` ends: it returns its timeout flag, or a KeyboardInterrupt escapes it. */
  datatype RepetitionEnd = Returned(timeout: bool) | Interrupted

  class Master {
    /** Sample configurations eagerly (pre-sample mode) or let the worker resolve cached keys (lazy mode). */
    const preSample: bool
    /** `self.incomplete_structures`. */
    var incompleteStructures: map<StructureId, Entry>
    /** `self.running_structures`. */
    var runningStructures: int
    /** `len(cs.results)` of every structure, by id. */
    var results: map<StructureId, nat>
    /** The `fail_safe` local of `_optimize`. */
    var failSafe: int
    /** What the iterator `it` of `_optimize` has yet to yield. */
    var proposals: seq<Option<Structure>>

    function Snapshot(): State
      reads this
    {
      State(incompleteStructures, runningStructures, results, failSafe, proposals)
    }

    /** The bookkeeping part of `__init__`: an empty table and no running structure jobs. */
    constructor (preSample: bool)
      ensures this.preSample == preSample
      ensures Snapshot() == Init()
    {
      this.preSample := preSample;
      incompleteStructures := map[];
      runningStructures := 0;
      results := map[];
      failSafe := 0;
      proposals := [];
    }

    /** Start of `_optimize`: `fail_safe = 0` and a fresh iterator from the reset bandit learner. */
    method StartRepetition(candidates: seq<Option<Structure>>)
      modifies this
      ensures Snapshot() == Restart(old(Snapshot()), candidates)
    {
      failSafe := 0;
      proposals := candidates;
    }

    /** `next(it)`: None stands for StopIteration. */
    method Next() returns (r: Option<Option<Structure>>)
      modifies this`proposals
      ensures old(proposals) == [] ==> r.None? && proposals == []
      ensures old(proposals) != [] ==> r == Some(old(proposals)[0]) && proposals == old(proposals)[1..]
    {
      if proposals == [] {
        r := None;
      } else {
        r := Some(proposals[0]);
        proposals := proposals[1..];
      }
    }

    /**
     * One pass of the `while True` loop of `_optimize`: the critical section
     * and the clock test after it. `pick` is what `random.choice` returns,
     * `sampled` what the cache samples, `timedOut` the clock's answer.
     */
    method Step(pick: StructureId, sampled: Config, timedOut: bool) returns (outcome: Outcome)
      requires incompleteStructures != map[] ==> pick in incompleteStructures
      modifies this
      ensures StepResult(Snapshot(), outcome) == Scheduler.Step(old(Snapshot()), preSample, pick, sampled, timedOut)
    {
      var job: Option<Job> := None;
      if incompleteStructures != map[] {
        var cid := pick;
        var candidate, nConfigs, running :=
          incompleteStructures[cid].cs, incompleteStructures[cid].remaining, incompleteStructures[cid].running;
        var configId := candidate.cid.WithConfig(Results(Snapshot(), candidate.cid) + running);
        var config: Option<Config>, cfgKeys: Option<seq<CfgKey>>;
        if preSample {
          config, cfgKeys := Some(sampled), None;
        } else {
          config, cfgKeys := None, Some(candidate.cfgKeys);
        }
        job := Some(EvaluationJob(configId, candidate, config, cfgKeys));
        if nConfigs > 1 {
          incompleteStructures := incompleteStructures[cid := Entry(candidate, nConfigs - 1, running + 1)];
        } else {
          incompleteStructures := incompleteStructures - {cid};
        }
      } else {
        var next := Next();
        if next.None? {
          return Exhausted;
        }
        var candidate := next.value;
        if candidate.None? {
          if runningStructures > 0 {
            return Wait;
          }
          next := Next();
          if next.None? {
            return Exhausted;
          }
          candidate := next.value;
          if candidate.None? {
            failSafe := failSafe + 1;
            if failSafe > FailSafeLimit {
              return Stuck;
            }
            return Retry;
          }
        }
        failSafe := 0;
        var c := candidate.value;
        if c.isProxy {
          job := Some(StructureJob(c));
          runningStructures := runningStructures + 1;
        } else {
          incompleteStructures := incompleteStructures[c.cid := Entry(c, Int(c.budget), 0)];
        }
      }
      if timedOut {
        return TimedOut(job);
      }
      outcome := if job.Some? then Submit(job.value) else Idle;
    }

    /** `_evaluation_callback`; returns the job as handed to the result logger and the cache. */
    method EvaluationCallback(job: Job) returns (logged: Job)
      requires job.EvaluationJob?
      modifies this
      ensures Completion(Snapshot(), logged) == EvaluationDone(old(Snapshot()), job)
    {
      logged := job;
      if logged.config.None? {
        logged := logged.(config := Some(DefaultConfig));
      }
      var k := job.cs.cid;
      results := results[k := Results(Snapshot(), k) + 1];
      if k in incompleteStructures {
        var e := incompleteStructures[k];
        incompleteStructures := incompleteStructures[k := Entry(e.cs, e.remaining, e.running - 1)];
      }
    }

    /** `_structure_callback` with the structure the worker returned (None if absent). */
    method StructureCallback(done: Option<Structure>)
      modifies this
      ensures Snapshot() == StructureDone(old(Snapshot()), done)
    {
      if done.Some? && !done.value.isProxy {
        var cs := done.value;
        incompleteStructures := incompleteStructures[cs.cid := Entry(cs, Int(cs.budget), 0)];
      }
      runningStructures := runningStructures - 1;
    }

    /**
     * The repetition loop of `optimize`. Each round calls `finish_work()` at
     * the top of the loop (a timed-out `_optimize` calls it once more, as the
     * outcome TimedOut of a pass), resets the bandit learner with the current
     * offset and runs `_optimize`, whose end is the next element of `ends`; a round that returns grows the
     * offset by the sum `added` gives for it (the lengths of the learner's
     * iterations). The loop stops after a round returns True, when an
     * interrupt escapes a round, or when `ends` has no more rounds.
     * `resets` are the offsets handed to `reset`, one per round started.
     */
    static method Optimize(ends: seq<RepetitionEnd>, added: seq<nat>)
      returns (resets: seq<int>, finishCalls: nat, repetitions: nat, timeout: bool, interrupted: bool)
      requires |added| == |ends|
      ensures |resets| <= |ends| && finishCalls == |resets|
      ensures |ends| > 0 ==> |resets| > 0 && resets[0] == 0
      ensures forall i :: 0 < i < |resets| ==> resets[i] == resets[i - 1] + added[i - 1]
      ensures forall i, j :: 0 <= i <= j < |resets| ==> resets[i] <= resets[j]
      ensures forall i :: 0 <= i < |resets| - 1 ==> ends[i] == Returned(false)
      ensures timeout <==> |resets| > 0 && ends[|resets| - 1] == Returned(true)
      ensures interrupted <==> |resets| > 0 && ends[|resets| - 1] == Interrupted
      ensures !timeout && !interrupted ==> |resets| == |ends|
      ensures repetitions == if interrupted then |resets| - 1 else |resets|
    {
      timeout, interrupted := false, false;
      repetitions := 0;
      var offset := 0;
      resets, finishCalls := [], 0;
      var i := 0;
      while !timeout && i < |ends|
        invariant 0 <= i <= |ends| && |resets| == i && finishCalls == i && repetitions == i
        invariant !interrupted
        invariant i > 0 ==> resets[0] == 0
        invariant i == 0 ==> offset == 0
        invariant i > 0 ==> offset == resets[i - 1] + added[i - 1]
        invariant forall j :: 0 < j < i ==> resets[j] == resets[j - 1] + added[j - 1]
        invariant forall j :: 0 <= j < i ==> resets[j] <= offset
        invariant forall j, k :: 0 <= j <= k < i ==> resets[j] <= resets[k]
        invariant forall j :: 0 <= j < i - 1 ==> ends[j] == Returned(false)
        invariant timeout <==> i > 0 && ends[i - 1] == Returned(true)
        invariant i > 0 ==> ends[i - 1].Returned?
      {
        finishCalls := finishCalls + 1;
        resets := resets + [offset];
        if ends[i].Interrupted? {
          interrupted := true;
          return;
        }
        timeout := ends[i].timeout;
        repetitions := repetitions + 1;
        offset := offset + added[i];
        i := i + 1;
      }
    }
  }
}
