/**
 * Runs of the scheduler: passes of the `_optimize` loop interleaved, in any
 * order the lock allows, with the completions of the jobs they submitted.
 * A ledger records what the critical sections themselves do not keep: the
 * configuration ids issued so far, how many evaluation and structure jobs
 * are still in flight and which jobs reached the dispatcher. The invariant
 * Inv ties the ledger to the shared state; from it follow the uniqueness of
 * configuration ids and the freezing of submissions once the clock fired.
 */
module Bookkeeping {
  import opened Wrappers
  import opened Model
  import opened Scheduler

  /** Where `optimize` is: between repetitions, inside `_optimize`, or done (it returned True). */
  datatype Phase = Between | Running | Finished

  datatype Ledger = Ledger(
    issued: seq<CandidateId>,          // ids of the evaluation jobs built, in order
    pending: map<StructureId, nat>,    // evaluation jobs built and not completed, per structure
    structureJobs: nat,                // structure jobs built and not completed
    submitted: seq<Job>,               // jobs handed to the dispatcher, in order
    phase: Phase)

  function EmptyLedger(): Ledger
  {
    Ledger([], map[], 0, [], Between)
  }

  function Pending(l: Ledger, k: StructureId): nat
  {
    if k in l.pending then l.pending[k] else 0
  }

  /** How many of `ids` belong to structure `k`. */
  function Count(ids: seq<CandidateId>, k: StructureId): nat
    decreases |ids|
  {
    if ids == [] then 0
    else Count(ids[..|ids| - 1], k) + (if ids[|ids| - 1].Base() == k then 1 else 0)
  }

  /** The configuration index of an id (-1 for a structure id). */
  function Index(id: CandidateId): int
  {
    if id.config.Some? then id.config.value else -1
  }

  /** What can happen while the lock is free. */
  datatype Event =
    | Begin(proposals: seq<Option<Structure>>)                  // a repetition starts: reset, new iterator, fail_safe = 0
    | Pass(pick: StructureId, sampled: Config, timedOut: bool)  // one pass of the `_optimize` loop
    | EvaluationFinished(job: Job)                             // `_evaluation_callback(job)`
    | StructureFinished(done: Option<Structure>)               // `_structure_callback` with the worker's result

  datatype World = World(state: State, ledger: Ledger)

  /**
   * When an event can occur. Passes happen only inside a repetition and a
   * repetition starts only after the previous one returned False. A
   * completion belongs to a job in flight. A materialised structure may
   * enter the table, for the first time or again, only while none of the
   * evaluations of its id is in flight: the loop itself does not ensure this
   * (see Scheduler.ReenteredStructureReissuesId).
   */
  predicate Enabled(w: World, e: Event)
  {
    var s, l := w.state, w.ledger;
    match e
    case Begin(_) => l.phase == Between
    case Pass(pick, _, _) =>
      && l.phase == Running
      && (s.table != map[] ==> pick in s.table)
      && (s.table == map[] ==>
            var d := DrawFrom(s.proposals, s.runningStructures);
            d.Got? && !d.c.isProxy ==> Pending(l, d.c.cid) == 0)
    case EvaluationFinished(job) => job.EvaluationJob? && Pending(l, job.cs.cid) > 0
    case StructureFinished(done) =>
      && l.structureJobs > 0
      && (done.Some? && !done.value.isProxy ==> Pending(l, done.value.cid) == 0)
  }

  /** The job a pass built, whether or not it was sent. */
  function Built(o: Outcome): Option<Job>
  {
    match o
    case Submit(j) => Some(j)
    case TimedOut(j) => j
    case _ => None
  }

  /** The ledger after a pass that ended with `o`. */
  function Record(l: Ledger, o: Outcome): Ledger
  {
    var l1 :=
      match Built(o)
      case Some(EvaluationJob(id, cs, _, _)) =>
        l.(issued := l.issued + [id], pending := l.pending[cs.cid := Pending(l, cs.cid) + 1])
      case Some(StructureJob(_)) => l.(structureJobs := l.structureJobs + 1)
      case None => l;
    var l2 := if o.Submit? then l1.(submitted := l1.submitted + [o.job]) else l1;
    match o.Returns()
    case Some(true) => l2.(phase := Finished)
    case Some(false) => l2.(phase := Between)
    case None => l2
  }

  function Apply(w: World, preSample: bool, e: Event): World
    requires Enabled(w, e)
  {
    var s, l := w.state, w.ledger;
    match e
    case Begin(ps) => World(Restart(s, ps), l.(phase := Running))
    case Pass(pick, sampled, timedOut) =>
      var r := Step(s, preSample, pick, sampled, timedOut);
      World(r.state, Record(l, r.outcome))
    case EvaluationFinished(job) =>
      World(EvaluationDone(s, job).state, l.(pending := l.pending[job.cs.cid := Pending(l, job.cs.cid) - 1]))
    case StructureFinished(done) =>
      World(StructureDone(s, done), l.(structureJobs := l.structureJobs - 1))
  }

  /** The world after `events`, or None if one of them was not enabled when it came. */
  function Exec(w: World, preSample: bool, events: seq<Event>): Option<World>
    decreases |events|
  {
    if events == [] then Some(w)
    else if !Enabled(w, events[0]) then None
    else Exec(Apply(w, preSample, events[0]), preSample, events[1..])
  }

  /** Every table key is the id of the structure it holds. */
  ghost predicate KeysMatch(s: State)
  {
    forall k :: k in s.table ==> s.table[k].cs.cid == k
  }

  /** An entry's running count is the number of its evaluations in flight. */
  ghost predicate RunningMatches(s: State, l: Ledger)
  {
    forall k :: k in s.table ==> s.table[k].running == Pending(l, k)
  }

  /** For every structure, results plus evaluations in flight is the number of ids issued to it. */
  ghost predicate Balanced(s: State, l: Ledger)
  {
    forall k: StructureId :: Results(s, k) + Pending(l, k) == Count(l.issued, k)
  }

  /** Every issued id names a configuration whose index is below its structure's issue count... */
  ghost predicate IndicesBelow(issued: seq<CandidateId>)
  {
    forall i :: 0 <= i < |issued| ==>
      issued[i].config.Some? && 0 <= Index(issued[i]) < Count(issued, issued[i].Base())
  }

  /** ...and, per structure, indices grow in issue order. */
  ghost predicate IndicesGrow(issued: seq<CandidateId>)
  {
    forall i, j :: 0 <= i < j < |issued| && issued[i].Base() == issued[j].Base() ==>
      Index(issued[i]) < Index(issued[j])
  }

  /**
   * The invariant: the parts above, the running-structures counter counts
   * structure jobs in flight, and inside a repetition `fail_safe` is within
   * its limit.
   */
  ghost predicate Inv(w: World)
  {
    var s, l := w.state, w.ledger;
    && KeysMatch(s)
    && RunningMatches(s, l)
    && Balanced(s, l)
    && IndicesBelow(l.issued)
    && IndicesGrow(l.issued)
    && s.runningStructures == l.structureJobs
    && (l.phase == Running ==> 0 <= s.failSafe <= FailSafeLimit)
  }

  lemma CountAppend(ids: seq<CandidateId>, x: CandidateId, k: StructureId)
    ensures Count(ids + [x], k) == Count(ids, k) + (if x.Base() == k then 1 else 0)
  {
    assert (ids + [x])[..|ids|] == ids;
  }

  /** Appending the id with the next index of its structure keeps the order facts of the issued ids. */
  lemma AppendNextIndex(issued: seq<CandidateId>, id: CandidateId)
    requires IndicesBelow(issued) && IndicesGrow(issued)
    requires id.config.Some? && Index(id) == Count(issued, id.Base())
    ensures IndicesBelow(issued + [id]) && IndicesGrow(issued + [id])
  {
    var issued' := issued + [id];
    forall k: StructureId
      ensures Count(issued', k) == Count(issued, k) + (if id.Base() == k then 1 else 0)
    {
      CountAppend(issued, id, k);
    }
    forall i | 0 <= i < |issued'|
      ensures issued'[i].config.Some? && 0 <= Index(issued'[i]) < Count(issued', issued'[i].Base())
    {
      if i < |issued| {
        assert issued'[i] == issued[i];
      }
    }
    forall i, j | 0 <= i < j < |issued'| && issued'[i].Base() == issued'[j].Base()
      ensures Index(issued'[i]) < Index(issued'[j])
    {
      if j == |issued| {
        assert issued'[i] == issued[i];
      } else {
        assert issued'[i] == issued[i] && issued'[j] == issued[j];
      }
    }
  }

  lemma InitInv()
    ensures Inv(World(Init(), EmptyLedger()))
  {
  }

  /** What a pass adds to the ledger, by the kind of job it built. */
  lemma RecordFacts(l: Ledger, o: Outcome)
    ensures var l' := Record(l, o);
            && (Built(o).Some? && Built(o).value.EvaluationJob? ==>
                  var j := Built(o).value;
                  && l'.issued == l.issued + [j.cid]
                  && l'.pending == l.pending[j.cs.cid := Pending(l, j.cs.cid) + 1]
                  && l'.structureJobs == l.structureJobs)
            && (Built(o).Some? && Built(o).value.StructureJob? ==>
                  l'.issued == l.issued && l'.pending == l.pending && l'.structureJobs == l.structureJobs + 1)
            && (Built(o).None? ==>
                  l'.issued == l.issued && l'.pending == l.pending && l'.structureJobs == l.structureJobs)
            && (o.Returns().None? ==> l'.phase == l.phase)
            && (o.Returns().Some? ==> l'.phase != Running)
  {
  }

  /** Issuing id k.WithConfig(n) and counting it in flight keeps the balance. */
  lemma IssueBalanced(s: State, s': State, l: Ledger, l': Ledger, id: CandidateId)
    requires Balanced(s, l)
    requires s'.results == s.results
    requires l'.issued == l.issued + [id]
    requires l'.pending == l.pending[id.Base() := Pending(l, id.Base()) + 1]
    ensures Balanced(s', l')
  {
    forall k: StructureId
      ensures Results(s', k) + Pending(l', k) == Count(l'.issued, k)
    {
      CountAppend(l.issued, id, k);
    }
  }

  /** After charging entry `pick` its running count still matches what is in flight. */
  lemma IssueRunning(s: State, s': State, l: Ledger, l': Ledger, pick: StructureId)
    requires RunningMatches(s, l) && pick in s.table
    requires l'.pending == l.pending[pick := Pending(l, pick) + 1]
    requires forall k :: k != pick ==> (k in s'.table <==> k in s.table)
    requires forall k :: k != pick && k in s.table ==> s'.table[k] == s.table[k]
    requires pick in s'.table ==> s'.table[pick].running == s.table[pick].running + 1
    ensures RunningMatches(s', l')
  {
  }

  /** The invariant after issuing id `id` of entry `pick`, stated on the fields the pass changes. */
  lemma IssueInv(s: State, l: Ledger, s': State, l': Ledger, pick: StructureId, id: CandidateId)
    requires Inv(World(s, l)) && pick in s.table
    requires id.config.Some? && id.Base() == pick && Index(id) == Results(s, pick) + s.table[pick].running
    requires s'.results == s.results && s'.runningStructures == s.runningStructures && s'.failSafe == s.failSafe
    requires forall k :: k != pick ==> (k in s'.table <==> k in s.table)
    requires forall k :: k != pick && k in s.table ==> s'.table[k] == s.table[k]
    requires pick in s'.table ==> s'.table[pick].cs == s.table[pick].cs
    requires pick in s'.table ==> s'.table[pick].running == s.table[pick].running + 1
    requires l'.issued == l.issued + [id]
    requires l'.pending == l.pending[pick := Pending(l, pick) + 1]
    requires l'.structureJobs == l.structureJobs
    requires l'.phase == Running ==> l.phase == Running
    ensures Inv(World(s', l'))
  {
    assert IndicesBelow(l'.issued) && IndicesGrow(l'.issued) by {
      assert Index(id) == Count(l.issued, pick);
      AppendNextIndex(l.issued, id);
    }
    IssueBalanced(s, s', l, l', id);
    IssueRunning(s, s', l, l', pick);
  }

  /** Issuing the evaluation job of entry `pick` keeps the invariant. */
  lemma IssueKeepsInv(w: World, preSample: bool, pick: StructureId, sampled: Config, timedOut: bool)
    requires Inv(w) && Enabled(w, Pass(pick, sampled, timedOut)) && w.state.table != map[]
    ensures Inv(Apply(w, preSample, Pass(pick, sampled, timedOut)))
  {
    var s, l := w.state, w.ledger;
    var e := s.table[pick];
    var r := Step(s, preSample, pick, sampled, timedOut);
    EvaluationPass(s, preSample, pick, sampled, timedOut);
    var job := NewEvaluationJob(e, Results(s, e.cs.cid), preSample, sampled);
    assert Built(r.outcome) == Some(job);
    assert e.cs.cid == pick && job.cid.Base() == pick && job.cs.cid == pick;
    var l' := Record(l, r.outcome);
    RecordFacts(l, r.outcome);
    IssueInv(s, l, r.state, l', pick, job.cid);
    assert Apply(w, preSample, Pass(pick, sampled, timedOut)) == World(r.state, l');
  }

  /** A pass with an empty table keeps the invariant: it issues no evaluation job. */
  lemma ProposeKeepsInv(w: World, preSample: bool, pick: StructureId, sampled: Config, timedOut: bool)
    requires Inv(w) && Enabled(w, Pass(pick, sampled, timedOut)) && w.state.table == map[]
    ensures Inv(Apply(w, preSample, Pass(pick, sampled, timedOut)))
  {
    var s := w.state;
    var r := Propose(s, timedOut);
    assert Apply(w, preSample, Pass(pick, sampled, timedOut)) == World(r.state, Record(w.ledger, r.outcome));
    var d := DrawFrom(s.proposals, s.runningStructures);
    if d.Empty? {
      EmptyDrawKeepsInv(w, timedOut);
    } else if d.Got? {
      CandidateKeepsInv(w, timedOut);
    } else {
      NoCandidateKeepsInv(w, timedOut);
    }
  }

  /** StopIteration, or None while structure jobs run: only the proposer and the phase change. */
  lemma NoCandidateKeepsInv(w: World, timedOut: bool)
    requires Inv(w) && w.state.table == map[]
    requires DrawFrom(w.state.proposals, w.state.runningStructures).Stop? ||
             DrawFrom(w.state.proposals, w.state.runningStructures).Block?
    ensures var r := Propose(w.state, timedOut);
            Inv(World(r.state, Record(w.ledger, r.outcome)))
  {
    var r := Propose(w.state, timedOut);
    assert r.state == w.state.(proposals := r.state.proposals);
    assert r.outcome == Exhausted || r.outcome == Wait;
  }

  /** Two answers None with nothing running: only `fail_safe` and the proposer change. */
  lemma EmptyDrawKeepsInv(w: World, timedOut: bool)
    requires Inv(w) && w.ledger.phase == Running && w.state.table == map[]
    requires DrawFrom(w.state.proposals, w.state.runningStructures).Empty?
    ensures var r := Propose(w.state, timedOut);
            Inv(World(r.state, Record(w.ledger, r.outcome)))
  {
    var s, l := w.state, w.ledger;
    var r := Propose(s, timedOut);
    assert r.state == s.(proposals := r.state.proposals, failSafe := s.failSafe + 1);
    var l' := Record(l, r.outcome);
    assert l'.issued == l.issued && l'.pending == l.pending && l'.structureJobs == l.structureJobs;
    assert l'.phase == Running ==> r.state.failSafe <= FailSafeLimit;
  }

  /** A candidate arrives: `fail_safe` is reset and a structure job or a fresh entry is added. */
  lemma CandidateKeepsInv(w: World, timedOut: bool)
    requires Inv(w) && w.state.table == map[]
    requires DrawFrom(w.state.proposals, w.state.runningStructures).Got?
    requires var c := DrawFrom(w.state.proposals, w.state.runningStructures).c;
             !c.isProxy ==> Pending(w.ledger, c.cid) == 0
    ensures var r := Propose(w.state, timedOut);
            Inv(World(r.state, Record(w.ledger, r.outcome)))
  {
    var s, l := w.state, w.ledger;
    var d := DrawFrom(s.proposals, s.runningStructures);
    var c := d.c;
    var r := Propose(s, timedOut);
    var l' := Record(l, r.outcome);
    var s1 := s.(proposals := d.rest, failSafe := 0);
    if c.isProxy {
      assert r.state == s1.(runningStructures := s.runningStructures + 1);
      assert l'.issued == l.issued && l'.pending == l.pending && l'.structureJobs == l.structureJobs + 1;
    } else {
      assert r.state == s1.(table := map[c.cid := Entry(c, Int(c.budget), 0)]);
      assert l'.issued == l.issued && l'.pending == l.pending && l'.structureJobs == l.structureJobs;
    }
  }

  lemma ApplyKeepsInv(w: World, preSample: bool, e: Event)
    requires Inv(w) && Enabled(w, e)
    ensures Inv(Apply(w, preSample, e))
  {
    match e
    case Begin(_) =>
    case Pass(pick, sampled, timedOut) =>
      if w.state.table != map[] {
        IssueKeepsInv(w, preSample, pick, sampled, timedOut);
      } else {
        ProposeKeepsInv(w, preSample, pick, sampled, timedOut);
      }
    case EvaluationFinished(job) =>
      EvaluationFinishedKeepsInv(w, preSample, job);
    case StructureFinished(done) =>
      StructureFinishedKeepsInv(w, preSample, done);
  }

  /** A completed evaluation keeps the invariant: one result more, one fewer in flight. */
  lemma EvaluationFinishedKeepsInv(w: World, preSample: bool, job: Job)
    requires Inv(w) && Enabled(w, EvaluationFinished(job))
    ensures Inv(Apply(w, preSample, EvaluationFinished(job)))
  {
    EvaluationCompletion(w.state, job);
  }

  /** A completed structure job keeps the invariant. */
  lemma StructureFinishedKeepsInv(w: World, preSample: bool, done: Option<Structure>)
    requires Inv(w) && Enabled(w, StructureFinished(done))
    ensures Inv(Apply(w, preSample, StructureFinished(done)))
  {
    StructureCompletion(w.state, done);
  }

  /** Every run that starts where the invariant holds keeps it. */
  lemma {:induction false} ExecKeepsInv(w: World, preSample: bool, events: seq<Event>)
    requires Inv(w) && Exec(w, preSample, events).Some?
    ensures Inv(Exec(w, preSample, events).value)
    decreases |events|
  {
    if events != [] {
      ApplyKeepsInv(w, preSample, events[0]);
      ExecKeepsInv(Apply(w, preSample, events[0]), preSample, events[1..]);
    }
  }

  /**
   * In every run of a fresh `Master`, however passes and completions
   * interleave, no configuration id is issued twice, and the indices issued
   * to one structure strictly increase.
   */
  lemma IssuedIdsUnique(preSample: bool, events: seq<Event>)
    requires Exec(World(Init(), EmptyLedger()), preSample, events).Some?
    ensures var issued := Exec(World(Init(), EmptyLedger()), preSample, events).value.ledger.issued;
            && (forall i, j :: 0 <= i < j < |issued| ==> issued[i] != issued[j])
            && (forall i, j :: 0 <= i < j < |issued| && issued[i].Base() == issued[j].Base() ==>
                  Index(issued[i]) < Index(issued[j]))
  {
    InitInv();
    ExecKeepsInv(World(Init(), EmptyLedger()), preSample, events);
    var issued := Exec(World(Init(), EmptyLedger()), preSample, events).value.ledger.issued;
    forall i, j | 0 <= i < j < |issued| ensures issued[i] != issued[j]
    {
      if issued[i].Base() == issued[j].Base() {
        assert Index(issued[i]) < Index(issued[j]);
      }
    }
  }

  /** After `optimize` is done (a pass returned True) no event submits a job. */
  lemma {:induction false} FinishedIsFinal(w: World, preSample: bool, events: seq<Event>)
    requires w.ledger.phase == Finished && Exec(w, preSample, events).Some?
    ensures Exec(w, preSample, events).value.ledger.submitted == w.ledger.submitted
    ensures Exec(w, preSample, events).value.ledger.phase == Finished
    decreases |events|
  {
    if events != [] {
      var w1 := Apply(w, preSample, events[0]);
      assert w1.ledger.submitted == w.ledger.submitted && w1.ledger.phase == Finished;
      FinishedIsFinal(w1, preSample, events[1..]);
    }
  }

  /**
   * Once the clock check of a pass fires, nothing is submitted again: not the
   * job that pass built, and nothing in any later event of the run.
   */
  lemma NothingSubmittedAfterTimeout(w: World, preSample: bool, pick: StructureId, sampled: Config,
                                     after: seq<Event>)
    requires Enabled(w, Pass(pick, sampled, true))
    requires Step(w.state, preSample, pick, sampled, true).outcome.TimedOut?
    requires Exec(Apply(w, preSample, Pass(pick, sampled, true)), preSample, after).Some?
    ensures Exec(Apply(w, preSample, Pass(pick, sampled, true)), preSample, after).value.ledger.submitted
            == w.ledger.submitted
  {
    FinishedIsFinal(Apply(w, preSample, Pass(pick, sampled, true)), preSample, after);
  }

  /**
   * remaining + running of an entry never grows: passes and completions only
   * move budget into the running count or retire it. The one exception is a
   * structure job re-materialising an id that is still in the table, which
   * replaces the entry.
   */
  lemma EntryBudgetNeverGrows(w: World, preSample: bool, e: Event, k: StructureId)
    requires Enabled(w, e)
    requires k in w.state.table && k in Apply(w, preSample, e).state.table
    requires !(e.StructureFinished? && e.done.Some? && !e.done.value.isProxy && e.done.value.cid == k)
    ensures var before, after := w.state.table[k], Apply(w, preSample, e).state.table[k];
            after.remaining + after.running <= before.remaining + before.running
  {
    if e.Pass? {
      var s := w.state;
      if e.pick == k {
        EvaluationPass(s, preSample, k, e.sampled, e.timedOut);
      } else {
        EvaluationPass(s, preSample, e.pick, e.sampled, e.timedOut);
      }
    }
  }

  /**
   * With nothing in the table, no structure job running and a proposer that
   * keeps answering None, each pass raises `fail_safe` by one and submits
   * nothing; the repetition gives up (returns True) exactly at the pass that
   * takes `fail_safe` past its limit, and not before.
   */
  lemma {:induction false} ConsecutiveEmptyPasses(w: World, preSample: bool, events: seq<Event>)
    requires w.state.table == map[] && w.state.runningStructures <= 0 && w.ledger.phase == Running
    requires 0 <= w.state.failSafe <= FailSafeLimit
    requires forall i :: 0 <= i < |events| ==> events[i].Pass?
    requires |events| <= FailSafeLimit + 1 - w.state.failSafe
    requires 2 * |events| <= |w.state.proposals|
    requires forall i :: 0 <= i < 2 * |events| ==> w.state.proposals[i].None?
    ensures Exec(w, preSample, events).Some?
    ensures var w' := Exec(w, preSample, events).value;
            && w'.state.failSafe == w.state.failSafe + |events|
            && w'.state.table == map[]
            && w'.state.proposals == w.state.proposals[2 * |events|..]
            && w'.ledger.submitted == w.ledger.submitted
            && (w'.ledger.phase == Finished <==> w.state.failSafe + |events| > FailSafeLimit)
            && (w'.ledger.phase != Finished ==> w'.ledger.phase == Running)
    decreases |events|
  {
    if events != [] {
      var s := w.state;
      assert DrawFrom(s.proposals, s.runningStructures) == Empty(s.proposals[2..]);
      var w1 := Apply(w, preSample, events[0]);
      assert w1.state == s.(proposals := s.proposals[2..], failSafe := s.failSafe + 1);
      assert w1.ledger.submitted == w.ledger.submitted;
      if |events| == 1 {
        assert events[1..] == [];
      } else {
        assert w1.ledger.phase == Running;
        forall i | 0 <= i < 2 * |events[1..]| ensures w1.state.proposals[i].None? {
          assert w1.state.proposals[i] == s.proposals[i + 2];
        }
        ConsecutiveEmptyPasses(w1, preSample, events[1..]);
        assert w1.state.proposals[2 * |events[1..]|..] == s.proposals[2 * |events|..];
      }
    }
  }

  /** The evaluation job of the scenarios below with configuration index `i`. */
  function ScenarioJob(cs: Structure, i: nat, preSample: bool, sampled: Config): Job
  {
    NewEvaluationJob(Entry(cs, 0, 0), i, preSample, sampled)
  }

  /**
   * One proxy structure with a budget of 3: the proxy becomes
   * one structure job, and its completion enters (cs, 3, 0) in the table.
   */
  lemma ProxyMaterialised(preSample: bool, k: StructureId, keys: seq<CfgKey>, sampled: Config)
    ensures var proxy := Structure(k, true, 3.0, keys);
            var cs := Structure(k, false, 3.0, keys);
            var events := [Begin([Some(proxy)]), Pass(k, sampled, false), StructureFinished(Some(cs))];
            Exec(World(Init(), EmptyLedger()), preSample, events) ==
              Some(World(State(map[k := Entry(cs, 3, 0)], 0, map[], 0, []),
                         Ledger([], map[], 0, [StructureJob(proxy)], Running)))
  {
    var proxy := Structure(k, true, 3.0, keys);
    var cs := Structure(k, false, 3.0, keys);
    var events := [Begin([Some(proxy)]), Pass(k, sampled, false), StructureFinished(Some(cs))];
    assert Int(3.0) == 3;
    var w0 := World(Init(), EmptyLedger());
    var w1 := Apply(w0, preSample, events[0]);
    assert w1 == World(State(map[], 0, map[], 0, [Some(proxy)]), Ledger([], map[], 0, [], Running));
    var w2 := Apply(w1, preSample, events[1]);
    assert w2 == World(State(map[], 1, map[], 0, []), Ledger([], map[], 1, [StructureJob(proxy)], Running));
    var w3 := Apply(w2, preSample, events[2]);
    assert w3 == World(State(map[k := Entry(cs, 3, 0)], 0, map[], 0, []),
                       Ledger([], map[], 0, [StructureJob(proxy)], Running));
    assert Exec(w2, preSample, events[2..]) == Some(w3);
    assert Exec(w1, preSample, events[1..]) == Some(w3);
  }

  /** Running two pieces of a run one after the other is running the whole. */
  lemma {:induction false} ExecConcat(w: World, preSample: bool, a: seq<Event>, b: seq<Event>)
    ensures Exec(w, preSample, a + b) ==
            match Exec(w, preSample, a)
            case None => None
            case Some(w') => Exec(w', preSample, b)
    decreases |a|
  {
    if a == [] {
      assert a + b == b;
    } else {
      assert (a + b)[0] == a[0] && (a + b)[1..] == a[1..] + b;
      if Enabled(w, a[0]) {
        ExecConcat(Apply(w, preSample, a[0]), preSample, a[1..], b);
      }
    }
  }

  /** A pass on a table holding only structure `k`, nothing running and the clock not fired. */
  lemma SolePass(w: World, preSample: bool, k: StructureId, sampled: Config)
    requires k in w.state.table && w.state.table == map[k := w.state.table[k]]
    requires w.state.table[k].running == 0 && w.state.table[k].cs.cid == k
    requires w.ledger.phase == Running
    ensures Enabled(w, Pass(k, sampled, false))
    ensures var e := w.state.table[k];
            var job := NewEvaluationJob(e, Results(w.state, k), preSample, sampled);
            Apply(w, preSample, Pass(k, sampled, false)) ==
              World(w.state.(table := if e.remaining > 1 then map[k := e.(running := 1, remaining := e.remaining - 1)] else map[]),
                    w.ledger.(issued := w.ledger.issued + [k.WithConfig(Results(w.state, k))],
                              pending := w.ledger.pending[k := Pending(w.ledger, k) + 1],
                              submitted := w.ledger.submitted + [job]))
  {
    EvaluationPass(w.state, preSample, k, sampled, false);
  }

  /** The completion of an evaluation job of `k` while `k` has one evaluation running. */
  lemma SoleFinish(w: World, preSample: bool, job: Job)
    requires job.EvaluationJob? && Pending(w.ledger, job.cs.cid) == 1
    ensures Enabled(w, EvaluationFinished(job))
    ensures var k := job.cs.cid;
            Apply(w, preSample, EvaluationFinished(job)) ==
              World(w.state.(table := if k in w.state.table then w.state.table[k := w.state.table[k].(running := w.state.table[k].running - 1)] else w.state.table,
                             results := w.state.results[k := Results(w.state, k) + 1]),
                    w.ledger.(pending := w.ledger.pending[k := 0]))
  {
  }

  lemma ExecPair(w: World, preSample: bool, a: Event, b: Event)
    requires Enabled(w, a) && Enabled(Apply(w, preSample, a), b)
    ensures Exec(w, preSample, [a, b]) == Some(Apply(Apply(w, preSample, a), preSample, b))
  {
    var w1 := Apply(w, preSample, a);
    assert [b][1..] == [];
    assert Exec(w1, preSample, [b]) == Exec(Apply(w1, preSample, b), preSample, []);
    assert [a, b][1..] == [b];
    assert Exec(w, preSample, [a, b]) == Exec(w1, preSample, [b]);
  }

  /**
   * One evaluation round on a table holding only structure `k` with nothing
   * running: the pass issues configuration `len(results)` and the
   * completion brings the running count back to 0 with one more result.
   */
  lemma EvaluationRound(w: World, preSample: bool, k: StructureId, sampled: Config)
    requires k in w.state.table && w.state.table == map[k := w.state.table[k]]
    requires w.state.table[k].running == 0 && w.state.table[k].cs.cid == k
    requires w.ledger.phase == Running && Pending(w.ledger, k) == 0
    ensures var e := w.state.table[k];
            var job := NewEvaluationJob(e, Results(w.state, k), preSample, sampled);
            Exec(w, preSample, [Pass(k, sampled, false), EvaluationFinished(job)]) ==
              Some(World(
                w.state.(table := if e.remaining > 1 then map[k := e.(remaining := e.remaining - 1)] else map[],
                         results := w.state.results[k := Results(w.state, k) + 1]),
                w.ledger.(issued := w.ledger.issued + [k.WithConfig(Results(w.state, k))],
                          pending := w.ledger.pending[k := 0],
                          submitted := w.ledger.submitted + [job])))
  {
    var e := w.state.table[k];
    var job := NewEvaluationJob(e, Results(w.state, k), preSample, sampled);
    SolePass(w, preSample, k, sampled);
    var w1 := Apply(w, preSample, Pass(k, sampled, false));
    SoleFinish(w1, preSample, job);
    var w2 := Apply(w1, preSample, EvaluationFinished(job));
    RoundWorld(w, w1, w2, k, job);
    ExecPair(w, preSample, Pass(k, sampled, false), EvaluationFinished(job));
  }

  /** The two updates of EvaluationRound, composed. */
  lemma RoundWorld(w: World, w1: World, w2: World, k: StructureId, job: Job)
    requires k in w.state.table && w.state.table == map[k := w.state.table[k]]
    requires job.cs.cid == k
    requires var e := w.state.table[k];
             w1 == World(w.state.(table := if e.remaining > 1 then map[k := e.(running := 1, remaining := e.remaining - 1)] else map[]),
                         w.ledger.(issued := w.ledger.issued + [k.WithConfig(Results(w.state, k))],
                                   pending := w.ledger.pending[k := Pending(w.ledger, k) + 1],
                                   submitted := w.ledger.submitted + [job]))
    requires w2 == World(w1.state.(table := if k in w1.state.table then w1.state.table[k := w1.state.table[k].(running := w1.state.table[k].running - 1)] else w1.state.table,
                                   results := w1.state.results[k := Results(w1.state, k) + 1]),
                         w1.ledger.(pending := w1.ledger.pending[k := 0]))
    ensures var e := w.state.table[k];
            w2 == World(w.state.(table := if e.remaining > 1 then map[k := e.(running := 0, remaining := e.remaining - 1)] else map[],
                                 results := w.state.results[k := Results(w.state, k) + 1]),
                        w.ledger.(issued := w.ledger.issued + [k.WithConfig(Results(w.state, k))],
                                  pending := w.ledger.pending[k := 0],
                                  submitted := w.ledger.submitted + [job]))
  {
    var e := w.state.table[k];
    assert w2.ledger.pending == w.ledger.pending[k := 0];
    assert w2.state.table == if e.remaining > 1 then map[k := e.(running := 0, remaining := e.remaining - 1)] else map[];
  }

  /** EvaluationRound on a world written out field by field. */
  lemma RoundFrom(preSample: bool, cs: Structure, n: int, results: map<StructureId, nat>, i: nat,
                  issued: seq<CandidateId>, pending: map<StructureId, nat>, before: seq<Job>, sampled: Config)
    requires i == if cs.cid in results then results[cs.cid] else 0
    requires cs.cid !in pending || pending[cs.cid] == 0
    ensures var k := cs.cid;
            var job := ScenarioJob(cs, i, preSample, sampled);
            Exec(World(State(map[k := Entry(cs, n, 0)], 0, results, 0, []), Ledger(issued, pending, 0, before, Running)),
                 preSample, [Pass(k, sampled, false), EvaluationFinished(job)]) ==
              Some(World(State(if n > 1 then map[k := Entry(cs, n - 1, 0)] else map[], 0, results[k := i + 1], 0, []),
                         Ledger(issued + [k.WithConfig(i)], pending[k := 0], 0, before + [job], Running)))
  {
    var k := cs.cid;
    var e := Entry(cs, n, 0);
    var w := World(State(map[k := e], 0, results, 0, []), Ledger(issued, pending, 0, before, Running));
    var job := ScenarioJob(cs, i, preSample, sampled);
    assert Results(w.state, k) == i && w.state.table[k] == e;
    assert NewEvaluationJob(e, i, preSample, sampled) == job;
    SolePass(w, preSample, k, sampled);
    var w1 := Apply(w, preSample, Pass(k, sampled, false));
    SoleFinish(w1, preSample, job);
    var w2 := Apply(w1, preSample, EvaluationFinished(job));
    RoundWorld(w, w1, w2, k, job);
    assert w2 == World(State(if n > 1 then map[k := Entry(cs, n - 1, 0)] else map[], 0, results[k := i + 1], 0, []),
                       Ledger(issued + [k.WithConfig(i)], pending[k := 0], 0, before + [job], Running));
    ExecPair(w, preSample, Pass(k, sampled, false), EvaluationFinished(job));
  }

  lemma AppendCons<T>(a: seq<T>, x: T, b: seq<T>)
    ensures a + [x] + b == a + ([x] + b)
  {
  }

  /** `n` evaluation rounds of `cs`, the first with configuration index `i`. */
  function Rounds(cs: Structure, i: nat, n: nat, preSample: bool, sampled: Config): seq<Event>
    decreases n
  {
    if n == 0 then []
    else [Pass(cs.cid, sampled, false), EvaluationFinished(ScenarioJob(cs, i, preSample, sampled))]
         + Rounds(cs, i + 1, n - 1, preSample, sampled)
  }

  /** The ids of configurations `i` to `i + n - 1` of `k`. */
  function Ids(k: StructureId, i: nat, n: nat): seq<CandidateId>
    decreases n
  {
    if n == 0 then [] else [k.WithConfig(i)] + Ids(k, i + 1, n - 1)
  }

  /** The jobs of configurations `i` to `i + n - 1` of `cs`. */
  function Jobs(cs: Structure, i: nat, n: nat, preSample: bool, sampled: Config): seq<Job>
    decreases n
  {
    if n == 0 then [] else [ScenarioJob(cs, i, preSample, sampled)] + Jobs(cs, i + 1, n - 1, preSample, sampled)
  }

  /** The first of `n` rounds leads to the world the remaining `n - 1` start from. */
  lemma FirstRound(preSample: bool, cs: Structure, n: nat, results: map<StructureId, nat>, i: nat,
                   issued: seq<CandidateId>, pending: map<StructureId, nat>, before: seq<Job>, sampled: Config)
    requires n >= 1
    requires i == if cs.cid in results then results[cs.cid] else 0
    requires cs.cid !in pending || pending[cs.cid] == 0
    ensures var k := cs.cid;
            Exec(World(State(map[k := Entry(cs, n, 0)], 0, results, 0, []), Ledger(issued, pending, 0, before, Running)),
                 preSample, Rounds(cs, i, n, preSample, sampled)) ==
              Exec(World(State(if n > 1 then map[k := Entry(cs, n - 1, 0)] else map[], 0, results[k := i + 1], 0, []),
                         Ledger(issued + [k.WithConfig(i)], pending[k := 0], 0,
                                before + [ScenarioJob(cs, i, preSample, sampled)], Running)),
                   preSample, Rounds(cs, i + 1, n - 1, preSample, sampled))
  {
    var k := cs.cid;
    var r := [Pass(k, sampled, false), EvaluationFinished(ScenarioJob(cs, i, preSample, sampled))];
    var w0 := World(State(map[k := Entry(cs, n, 0)], 0, results, 0, []), Ledger(issued, pending, 0, before, Running));
    RoundFrom(preSample, cs, n, results, i, issued, pending, before, sampled);
    ExecConcat(w0, preSample, r, Rounds(cs, i + 1, n - 1, preSample, sampled));
  }

  /** A single round: the budget of 1 is used up. */
  lemma LastRound(preSample: bool, cs: Structure, results: map<StructureId, nat>, i: nat,
                  issued: seq<CandidateId>, pending: map<StructureId, nat>, before: seq<Job>, sampled: Config)
    requires i == if cs.cid in results then results[cs.cid] else 0
    requires cs.cid !in pending || pending[cs.cid] == 0
    ensures var k := cs.cid;
            Exec(World(State(map[k := Entry(cs, 1, 0)], 0, results, 0, []), Ledger(issued, pending, 0, before, Running)),
                 preSample, Rounds(cs, i, 1, preSample, sampled)) ==
              Some(World(State(map[], 0, results[k := i + 1], 0, []),
                         Ledger(issued + Ids(k, i, 1), pending[k := 0], 0,
                                before + Jobs(cs, i, 1, preSample, sampled), Running)))
  {
    var k := cs.cid;
    var job := ScenarioJob(cs, i, preSample, sampled);
    RoundFrom(preSample, cs, 1, results, i, issued, pending, before, sampled);
    var r := [Pass(k, sampled, false), EvaluationFinished(job)];
    assert Rounds(cs, i + 1, 0, preSample, sampled) == [];
    assert Rounds(cs, i, 1, preSample, sampled) == r + [] == r;
    assert Ids(k, i + 1, 0) == [];
    assert Ids(k, i, 1) == [k.WithConfig(i)] + [] == [k.WithConfig(i)];
    assert Jobs(cs, i + 1, 0, preSample, sampled) == [];
    assert Jobs(cs, i, 1, preSample, sampled) == [job] + [] == [job];
  }

  /** The step of BudgetEvaluated: the first round followed by the remaining `n - 1`. */
  lemma LaterRounds(preSample: bool, cs: Structure, n: nat, results: map<StructureId, nat>, i: nat,
                    issued: seq<CandidateId>, pending: map<StructureId, nat>, before: seq<Job>, sampled: Config)
    requires n > 1
    requires i == if cs.cid in results then results[cs.cid] else 0
    requires cs.cid !in pending || pending[cs.cid] == 0
    requires var k := cs.cid;
             var job := ScenarioJob(cs, i, preSample, sampled);
             Exec(World(State(map[k := Entry(cs, n - 1, 0)], 0, results[k := i + 1], 0, []),
                        Ledger(issued + [k.WithConfig(i)], pending[k := 0], 0, before + [job], Running)),
                  preSample, Rounds(cs, i + 1, n - 1, preSample, sampled)) ==
               Some(World(State(map[], 0, results[k := i + 1][k := i + 1 + (n - 1)], 0, []),
                          Ledger(issued + [k.WithConfig(i)] + Ids(k, i + 1, n - 1), pending[k := 0][k := 0], 0,
                                 before + [job] + Jobs(cs, i + 1, n - 1, preSample, sampled), Running)))
    ensures var k := cs.cid;
            Exec(World(State(map[k := Entry(cs, n, 0)], 0, results, 0, []), Ledger(issued, pending, 0, before, Running)),
                 preSample, Rounds(cs, i, n, preSample, sampled)) ==
              Some(World(State(map[], 0, results[k := i + n], 0, []),
                         Ledger(issued + Ids(k, i, n), pending[k := 0], 0,
                                before + Jobs(cs, i, n, preSample, sampled), Running)))
  {
    var k := cs.cid;
    var job := ScenarioJob(cs, i, preSample, sampled);
    var w0 := World(State(map[k := Entry(cs, n, 0)], 0, results, 0, []), Ledger(issued, pending, 0, before, Running));
    var w1 := World(State(map[k := Entry(cs, n - 1, 0)], 0, results[k := i + 1], 0, []),
                    Ledger(issued + [k.WithConfig(i)], pending[k := 0], 0, before + [job], Running));
    var rest := Rounds(cs, i + 1, n - 1, preSample, sampled);
    assert Exec(w0, preSample, Rounds(cs, i, n, preSample, sampled)) == Exec(w1, preSample, rest) by {
      FirstRound(preSample, cs, n, results, i, issued, pending, before, sampled);
    }
    RemainingRoundsEnd(preSample, cs, n, results, i, issued, pending, before, sampled);
  }

  /** Where the remaining rounds end is where all `n` rounds end. */
  lemma RemainingRoundsEnd(preSample: bool, cs: Structure, n: nat, results: map<StructureId, nat>, i: nat,
                           issued: seq<CandidateId>, pending: map<StructureId, nat>, before: seq<Job>, sampled: Config)
    requires n > 1
    ensures var k := cs.cid;
            var job := ScenarioJob(cs, i, preSample, sampled);
            var i' := i + 1;
            World(State(map[], 0, results[k := i'][k := i' + (n - 1)], 0, []),
                  Ledger(issued + [k.WithConfig(i)] + Ids(k, i', n - 1), pending[k := 0][k := 0], 0,
                         before + [job] + Jobs(cs, i', n - 1, preSample, sampled), Running)) ==
            World(State(map[], 0, results[k := i + n], 0, []),
                  Ledger(issued + Ids(k, i, n), pending[k := 0], 0,
                         before + Jobs(cs, i, n, preSample, sampled), Running))
  {
    var k := cs.cid;
    var job := ScenarioJob(cs, i, preSample, sampled);
    assert results[k := i + 1][k := (i + 1) + (n - 1)] == results[k := i + n];
    assert pending[k := 0][k := 0] == pending[k := 0];
    AppendCons(issued, k.WithConfig(i), Ids(k, i + 1, n - 1));
    AppendCons(before, job, Jobs(cs, i + 1, n - 1, preSample, sampled));
  }

  /**
   * What follows ProxyMaterialised: a structure entered with a budget of `n`
   * and `i` results already logged, evaluated one configuration at a time, is
   * submitted exactly `n` times with configuration indices `i` .. `i + n - 1`;
   * then its entry is gone and it holds `i + n` results.
   */
  lemma {:induction false} BudgetEvaluated(preSample: bool, cs: Structure, n: nat, results: map<StructureId, nat>,
                                           i: nat, issued: seq<CandidateId>, pending: map<StructureId, nat>,
                                           before: seq<Job>, sampled: Config)
    requires n >= 1
    requires i == if cs.cid in results then results[cs.cid] else 0
    requires cs.cid !in pending || pending[cs.cid] == 0
    ensures var k := cs.cid;
            Exec(World(State(map[k := Entry(cs, n, 0)], 0, results, 0, []), Ledger(issued, pending, 0, before, Running)),
                 preSample, Rounds(cs, i, n, preSample, sampled)) ==
              Some(World(State(map[], 0, results[k := i + n], 0, []),
                         Ledger(issued + Ids(k, i, n), pending[k := 0], 0,
                                before + Jobs(cs, i, n, preSample, sampled), Running)))
    decreases n
  {
    if n == 1 {
      LastRound(preSample, cs, results, i, issued, pending, before, sampled);
    } else {
      var k := cs.cid;
      var job := ScenarioJob(cs, i, preSample, sampled);
      assert i + 1 == if k in results[k := i + 1] then results[k := i + 1][k] else 0;
      BudgetEvaluated(preSample, cs, n - 1, results[k := i + 1], i + 1, issued + [k.WithConfig(i)], pending[k := 0],
                      before + [job], sampled);
      LaterRounds(preSample, cs, n, results, i, issued, pending, before, sampled);
    }
  }

  /**
   * The proposer answers None while two structure jobs run: the pass waits
   * without touching `fail_safe`. Once both complete (one materialised, one
   * absent) the next pass evaluates the new entry, submitting its
   * configuration 0, and `fail_safe` is still as it was.
   */
  lemma WaitThenRetry(preSample: bool, k: StructureId, c: Structure, done: Structure, sampled: Config)
    requires c.isProxy && !done.isProxy && done.cid == k
    ensures var s0 := State(map[], 2, map[], 4, [None, Some(c)]);
            var w0 := World(s0, Ledger([], map[], 2, [], Running));
            Enabled(w0, Pass(k, sampled, false)) &&
            var w1 := Apply(w0, preSample, Pass(k, sampled, false));
            w1.state == s0.(proposals := [Some(c)]) && w1.ledger == w0.ledger &&
            var w2 := Apply(w1, preSample, StructureFinished(Some(done)));
            w2.state.runningStructures == 1 && k in w2.state.table &&
            var w3 := Apply(w2, preSample, StructureFinished(None));
            w3.state.table == w2.state.table && w3.state.runningStructures == 0 &&
            var w4 := Apply(w3, preSample, Pass(k, sampled, false));
            w4.state.failSafe == 4 && w4.ledger.submitted == [NewEvaluationJob(Entry(done, Int(done.budget), 0), 0, preSample, sampled)]
  {
  }
}
