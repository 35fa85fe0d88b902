# dswizard scheduler bookkeeping, in Dafny

This project models the scheduling core of dswizard, an AutoML system that searches
over machine-learning pipeline structures and their hyperparameter configurations.
The `Master` of `dswizard/core/master.py` keeps the following bookkeeping:

- a table of *incomplete structures*: structure id to (structure, remaining budget, running evaluations);
- a count of running *structure jobs*;
- the number of results each structure holds;
- the `fail_safe` counter of the optimisation loop.

Three critical sections update that state:

- one pass of the `_optimize` loop, which builds an evaluation job, builds a structure job, waits, retries, gives up or ends the repetition;
- the evaluation callback;
- the structure callback.

The outer `optimize` loop repeats `_optimize` until a repetition reports a timeout.
The project also models the pure helpers of `dswizard/util/util.py`:

- the OpenML task/dataset table;
- prefixed names;
- the split of a dotted class path in `get_type`;
- the metric-name check of `score`.

Modules:

- `Wrappers`: `Option` and `Result`.
- `Model`: the value types the scheduler handles, and Python's truncating `int()` of a float.
- `Scheduler`: each critical section as a function on a value `State`, with lemmas that state what one section does.
- `Core`: class `Master`, whose methods update their fields in place. The constructor, `StartRepetition`, `Step` and the two callbacks are each proved to produce exactly the state (and outcome) of the `Scheduler` function for that section. `Optimize`, the repetition loop of `optimize`, has its own contract.
- `Bookkeeping`: runs, meaning sequences of events that interleave passes with the completions of submitted jobs in any order the lock allows. A *ledger* records what was issued, what is in flight and what was submitted. An invariant over every run gives that configuration ids are unique and grow per structure. Separately, the phase of a run gives that nothing is submitted after the clock fires: once a pass returns True no further pass can happen.
- `Util`: the helpers of `util.py`.

Inputs that are not part of the shared state are parameters of the model:

- the key `random.choice` picks;
- what the configuration cache samples;
- the answer of the wall-clock test;
- the sequence of candidates the bandit learner's iterator yields, whose end stands for `StopIteration`;
- what a worker returns.

## Model

| member | source | states |
|---|---|---|
| `Model.Int` | dswizard/core/master.py:217 | `int(candidate.budget)` truncates toward zero. For a non-negative budget the result is its floor. For a negative one it is the ceiling, at most one above. |
| `Scheduler.EvaluationPass` | dswizard/core/master.py:169-189 | With a non-empty table, a pass builds an evaluation job for the picked entry (c, n, r). The job's configuration index is `len(c.results) + r`. The entry becomes (c, n-1, r+1) when n > 1, which keeps remaining + running unchanged, and is deleted when n <= 1. No other entry, counter or proposer position changes. The job is submitted, or returned unsent when the clock fired. |
| `Scheduler.EvaluationJobResolvable` | dswizard/core/master.py:174-184 | The corrected job of pre-sample mode carries the sampled configuration and no cache keys. A lazy-mode job carries no configuration and the structure's cached keys. Either way the job has a configuration or keys to resolve one from. |
| `Scheduler.CandidatePass` | dswizard/core/master.py:191-218 | The proposer is pulled only when the table is empty, and a real candidate resets `fail_safe` to 0. A proxy becomes one structure job and one more running structure, with the table unchanged. A materialised candidate enters the table as (c, int(budget), 0), and no job is built. |
| `Scheduler.NotReadyPass` | dswizard/core/master.py:194-209 | When the proposer answers None while structure jobs run, the pass waits and changes nothing else. With none running and a second None, `fail_safe` grows by one, and the pass gives up (returns True) exactly when `fail_safe` exceeds 10; otherwise it retries. A second pull that hits StopIteration ends the repetition. |
| `Scheduler.FailSafeBounded` | dswizard/core/master.py:163-210 | A pass that starts with `fail_safe` in 0..10 leaves it in 0..10 unless the pass gives up, and then it is 11. It only ever changes by a reset to 0 or a step of +1. |
| `Scheduler.ClockDecidesOnlySubmission` | dswizard/core/master.py:223-229 | The state after a pass is the same whether or not the clock fired. The job submitted when the clock has not fired is exactly the job returned unsent when it has. A fired clock makes `_optimize` return True. Passes that ended before the clock test (wait, retry, stuck, exhausted) are unaffected. |
| `Scheduler.EvaluationCompletion` | dswizard/core/master.py:269-288 | A finished evaluation is logged with a configuration: its own, or the default one if it had none. Its structure gains exactly one result and no other structure's count changes. Only that structure's running count drops by one, and only if it is still in the table; otherwise the table is untouched. |
| `Scheduler.StructureCompletion` | dswizard/core/master.py:295-307 | An absent or still-proxy result leaves the table unchanged. A materialised one sets `table[cid] = (cs, int(cs.budget), 0)`. Either way `running_structures` drops by exactly one and nothing else changes. |
| `Scheduler.PreSampleEvaluationRaises` | dswizard/core/master.py:175-183 | As written, pre-sample mode never binds `cfg_keys`, so the first evaluation pass of the run reads the unbound local and raises UnboundLocalError. The error leaves `_optimize` and then `optimize()`, whose `try` catches only KeyboardInterrupt (master.py:242, 250), so the run ends there. The case `i == 0` is the first pass. The cases `i > 0`, proved by a short induction that the binding stays None, only generalise the statement to passes that cannot happen. |
| `Scheduler.ReenteredStructureReissuesId` | dswizard/core/master.py:169-218 | The loop gives no protection against a repeated structure id. A structure with budget 2 issues `k/0` and `k/1` and leaves the table. After `k/0` completes, the proposer yields the same structure again and it re-enters as (cs, 2, 0). The next pass then issues `k/1` a second time while the first `k/1` is still in flight. |
| `Scheduler.LazyKeysAgree` | dswizard/core/master.py:179-183 | In lazy mode the code as written and the corrected job pass the same cache keys: the structure's own. |
| `Bookkeeping.InitInv` | dswizard/core/master.py:97-98 | A fresh `Master`, with an empty table and no running structures, satisfies the run invariant. |
| `Bookkeeping.ExecKeepsInv` | dswizard/core/master.py:165-312 | Every run of passes and completions, in any interleaving, keeps the invariant: (1) table keys are the ids of their structures; (2) each entry's running count is its evaluations in flight; (3) results plus evaluations in flight equal the ids issued per structure; (4) issued indices lie below their structure's issue count and grow; (5) `running_structures` equals the structure jobs in flight; (6) `fail_safe` stays in 0..10 inside a repetition. |
| `Bookkeeping.IssuedIdsUnique` | dswizard/core/master.py:174-288 | In every run of a fresh `Master`, no configuration id is issued twice, and the indices issued to one structure strictly increase. |
| `Bookkeeping.FinishedIsFinal` | dswizard/core/master.py:223-226 | Once `_optimize` has returned True, no later event submits a job, and the run stays finished. |
| `Bookkeeping.NothingSubmittedAfterTimeout` | dswizard/core/master.py:223-229 | The job built in the pass whose clock test fires is not submitted, and no later event of the run submits anything. |
| `Bookkeeping.EntryBudgetNeverGrows` | dswizard/core/master.py:186-189 | An entry's remaining + running never grows from one event to the next, except when a structure job re-materialises an id that is still in the table, which replaces the entry. |
| `Bookkeeping.ConsecutiveEmptyPasses` | dswizard/core/master.py:199-209 | With an empty table, no running structure jobs and a proposer that keeps answering None, each pass raises `fail_safe` by one and submits nothing. The repetition gives up exactly at the pass that takes `fail_safe` past 10, and not before. |
| `Bookkeeping.ProxyMaterialised` | dswizard/core/master.py:212-218 | Starting from a fresh `Master`, a repetition whose proposer yields one proxy with budget 3.0 submits exactly that proxy as a structure job. Its completion enters the materialised structure as (cs, 3, 0) in the table. |
| `Bookkeeping.EvaluationRound` | dswizard/core/master.py:174-288 | On a table holding only one structure with nothing running, one pass plus the completion of its job has three effects. It issues the id with index `len(results)`. It consumes one unit of budget, deleting the entry at the last unit. It adds one result and submits that one job. |
| `Bookkeeping.BudgetEvaluated` | dswizard/core/master.py:169-189 | A structure entered with budget n >= 1 and i results, evaluated one configuration at a time, is submitted exactly n times, with indices i .. i+n-1. Afterwards its entry is gone and it holds i + n results. |
| `Bookkeeping.WaitThenRetry` | dswizard/core/master.py:194-198 | A None while structure jobs run makes the pass wait without touching `fail_safe`. After both structure jobs complete (one materialised, one absent), the next pass evaluates the new entry and submits configuration 0, with `fail_safe` still as it was. |
| `Core.Master.constructor` | dswizard/core/master.py:97-98 | A new `Master` has an empty table and no running structure jobs. |
| `Core.Master.StartRepetition` | dswizard/core/master.py:163-164 | A repetition starts with `fail_safe = 0` and a fresh iterator, and nothing else changes (`Scheduler.Restart`, which the `Begin` event of `Bookkeeping` also uses). |
| `Core.Master.Next` | dswizard/core/master.py:193-200 | `next(it)` yields the head of what the iterator has left and advances past it, or reports StopIteration when nothing is left. |
| `Core.Master.Step` | dswizard/core/master.py:165-229 | The in-place pass leaves exactly the state, and returns exactly the outcome, that `Scheduler.Step` prescribes. |
| `Core.Master.EvaluationCallback` | dswizard/core/master.py:262-293 | The in-place callback leaves exactly the state, and logs exactly the job, that `Scheduler.EvaluationDone` prescribes. |
| `Core.Master.StructureCallback` | dswizard/core/master.py:295-312 | The in-place callback leaves exactly the state `Scheduler.StructureDone` prescribes. |
| `Core.Master.Optimize` | dswizard/core/master.py:239-251 | The loop calls `finish_work` once at the top of each round (master.py:244) and resets the learner; `finishCalls` counts these calls. A round that times out also calls it inside `_optimize` (master.py:225); that call is the `TimedOut` outcome of `Scheduler.CheckClock`, not counted here. The first offset is 0, and later offsets grow by each returned round's added length, so they never decrease. A new round starts only after one returned False. `timeout` holds iff the last round returned True, and `interrupted` iff a KeyboardInterrupt ended the last round. If a loop neither times out nor is interrupted, it runs every round. |
| `Util.DatasetOfTask` | dswizard/util/util.py:52-56 | The inverted table maps every task's dataset back to that task: no two tasks share a dataset. |
| `Util.OpenmlTaskRoundTrip` | dswizard/util/util.py:56-62 | With only a table task given, the result is its dataset, and looking that dataset up gives the task back. |
| `Util.OpenmlDatasetRoundTrip` | dswizard/util/util.py:56-62 | With only a table dataset given, the result is its task, and looking that task up gives the dataset back. |
| `Util.OpenmlErrors` | dswizard/util/util.py:58-62 | Passing neither id or both ids is a ValueError. With one id, the call fails exactly when that id is missing from its table. |
| `Util.PrefixedNameParts` | dswizard/util/util.py:91-95 | For every name, without a prefix the name is returned unchanged. With a prefix, the result is the prefix, then ':', then the name, whatever either contains. |
| `Util.PrefixedNameRoundTrip` | dswizard/util/util.py:91-95 | A prefix with no ':' is recovered, together with the name, by splitting at the first ':'. With no prefix, a name with no ':' reads back as unprefixed. |
| `Util.SplitLast` | dswizard/util/util.py:100 | The last piece of `split(c)` is the text after the last `c`, exactly what `rpartition(c)` leaves as its tail. |
| `Util.GetTypeSplit` | dswizard/util/util.py:98-100 | The class name is the text after the last '.' and contains no '.'. For a path containing a '.', module name + "." + class name is the path. Without a '.', the module name is "" and the class name is the whole path. |
| `Util.ScoreAcceptsValidMetrics` | dswizard/util/util.py:10-48 | `score` accepts exactly the six names of `valid_metrics` and raises ValueError for any other name. Every accepted score except logloss is negated. Each metric's name parses back to that metric. |

## Findings

| source | as written | input that shows it | evidently intended | confidence | as-written member | corrected member |
|---|---|---|---|---|---|---|
| dswizard/core/master.py:175-183 | Pre-sample mode binds `config, cfg_key`, but the job is built with `cfg_keys`, which only the lazy branch assigns. | `pre_sample=True` and any structure in the table: the first evaluation pass of `_optimize` reads an unbound local. | Every job can be evaluated: the pre-sample job carries its sampled configuration and no cache keys. | not executed; follows from Python's scoping of function locals | `Scheduler.PreSampleEvaluationRaises` (about `Scheduler.EvaluationKeysAsWritten`) | `Scheduler.NewEvaluationJob`, proved by `Scheduler.EvaluationJobResolvable` |

## Left out

- Threads and the condition variable are not modelled: `threading.Condition`, `wait()`, `notify_all()`, the dispatcher thread and the multiprocessing manager. In `Bookkeeping`, each `with self.thread_cond` block is one atomic event. A run may interleave these events in any order, subject to `Enabled`. `wait()` is the outcome `Wait`.
- Time, sleeping and randomness are not modelled. The clock test is a boolean input, `time.sleep(5)` has no effect, and `random.choice` is a key the caller picks from the table.
- These collaborators are not part of this model: the bandit learner and its iterator, `cfg_cache`, `structure_generator`, the result logger, `RunHistory`, the dispatcher, `CandidateId.with_config`, and the constructors of `EvaluationJob` and `StructureJob`. They appear as values (candidate sequences, sampled configurations, jobs as records). `finish_work()` and `submit_job()` are recorded as outcomes and ledger entries.
- `Core.Master.Optimize`: the offset increments (`sum(len(it.data) ...)`) and the ends of the rounds are inputs, because the learner that produces them is not part of this model.
- The `except Exception` paths of both callbacks are left out. They run when a foreign call raises, or when Python's own `int(job.cs.budget)` at master.py:305 raises for an infinite or NaN budget. In that case the `except` at master.py:310 skips line 306 and `running_structures` stays raised. The real-valued budget below keeps such budgets out of the model.
- A structure's results are kept as a count per structure id, not per `CandidateStructure` object (see the `Bookkeeping.IssuedIdsUnique` line below). The result values themselves go to foreign code.
- A structure's `budget` is modelled as a real, not a float, and is converted with Python's truncating `int()`. Rounding of floats is not modelled.
- `Bookkeeping.IssuedIdsUnique`: proved under the hypothesis, built into `Enabled`, that a materialised structure enters the table, for the first time or again, only while none of the evaluations of its id is in flight. Re-entry of a used id with nothing in flight is allowed, and successive halving may do that. master.py itself does not ensure the hypothesis: `Scheduler.ReenteredStructureReissuesId` shows `Step` issuing the same id twice when a structure returns while one of its evaluations runs. Whether the bandit learner keeps to it is not part of this model. The offset handed to `reset` (master.py:246, 249) only separates repetitions, not the structures within one. The model also counts results per structure id, while master.py:174 reads `len(candidate.results)` of the object in the table, filled by `job.cs.add_result` (master.py:280). So the proof assumes that a re-entered id is the same `CandidateStructure` object, whose `results` list carries over. A fresh object with a used id would start again at index 0, and it would re-issue `k/0` even with nothing in flight. `Enabled` also assumes that every completion belongs to a job in flight. In the source, both callbacks set `job.callback = None` (master.py:279, 304), so a second call through that pointer cannot reach the callback again. Whether the dispatcher checks the pointer is not part of this model. The one branch that leaves the pointer set is the absent-or-proxy branch of `_structure_callback` (master.py:298-300). A repeated call there would run line 306 again and lower `running_structures` twice.
- `Bookkeeping.ExecKeepsInv`: part (2) of the invariant, that an entry's running count equals its evaluations in flight, rests on the same hypothesis. A structure re-entered as (cs, n, 0) while its evaluations run would break it.
- `Bookkeeping.EntryBudgetNeverGrows`: excludes a structure job that re-materialises an id still in the table, because the source then overwrites the entry.
- `Util.PrefixedNameRoundTrip`: states the round trip only for a prefix without ':' (or, with no prefix, a name without ':'). With a ':' inside the prefix the split point is ambiguous. `Util.PrefixedNameParts` covers every prefix and name.
- `score`'s numeric values, `multiclass_roc_auc_score` and `logloss` are floating-point library calls. The model takes the metric's raw value as an input and models only the name check and the sign.
- `setup_logging` is file I/O, and the `importlib` and `getattr` half of `get_type` is a foreign call: both are left out.
- `dswizard/workers/sklearn_worker.py`, `hpbandster/optimizers/randomsearch.py`, `scripts/performance_table.py` and `dswizard/core/base_config_generator.py` are not part of this model. They are library-bound floating-point work, scripts, or an abstract wrapper.
- `__init__` and `shutdown` are not modelled, apart from the initial values of the table and the counter.
