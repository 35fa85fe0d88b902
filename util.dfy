/**
 * The pure helpers of dswizard/util/util.py: the OpenML task/dataset table,
 * prefixed names, the split of a dotted class path and the metric-name check
 * of `score`.
 */
module Util {
  import opened Wrappers

  /** The exceptions these helpers raise. */
  datatype Error = ValueError | KeyError(key: int)

  // ---------------------------------------------------------------------
  // openml_mapping

  /** The `tasks` literal of `openml_mapping`: task id to dataset id. */
  function Tasks(): map<int, int>
  {
    map[3 := 3, 12 := 12, 18 := 18, 31 := 31, 53 := 54, 3549 := 458, 3560 := 469, 3567 := 478,
        3896 := 1043, 3913 := 1063, 7592 := 1590, 9952 := 1489, 9961 := 1498, 9977 := 1486,
        9983 := 1471, 9986 := 1476, 10101 := 1464, 14965 := 1461, 146195 := 40668, 146212 := 40685,
        146606 := 23512, 146818 := 40981, 146821 := 40975, 146822 := 40984, 167119 := 41027,
        167120 := 23517, 168329 := 41169, 168330 := 41168, 168911 := 41143, 168912 := 41146]
  }

  /**
   * `datasets = dict(map(reversed, tasks.items()))`: dataset id to task id.
   * No two tasks share a dataset, so no pair of `tasks` is overridden.
   */
  function Datasets(): map<int, int>
  {
    map t | t in Tasks() :: Tasks()[t] := t
  }

  /** `openml_mapping(task, ds)`: exactly one of the two must be given, and be in the table. */
  function OpenmlMapping(task: Option<int>, ds: Option<int>): (r: Result<int, Error>)
  {
    if (task.None? && ds.None?) || (task.Some? && ds.Some?) then Failure(ValueError)
    else if task.Some? then
      (if task.value in Tasks() then Success(Tasks()[task.value]) else Failure(KeyError(task.value)))
    else
      (if ds.value in Datasets() then Success(Datasets()[ds.value]) else Failure(KeyError(ds.value)))
  }

  /** Looking a task up and then its dataset gives the task back. */
  lemma OpenmlTaskRoundTrip(t: int)
    requires t in Tasks()
    ensures OpenmlMapping(Some(t), None) == Success(Tasks()[t])
    ensures OpenmlMapping(None, Some(Tasks()[t])) == Success(t)
  {
    assert Tasks()[t] in Datasets();
  }

  /** `datasets` maps a task's dataset back to the task. */
  lemma DatasetOfTask(t: int)
    requires t in Tasks()
    ensures Tasks()[t] in Datasets() && Datasets()[Tasks()[t]] == t
  {
  }

  /** Looking a dataset up and then its task gives the dataset back. */
  lemma OpenmlDatasetRoundTrip(d: int)
    requires d in Datasets()
    ensures OpenmlMapping(None, Some(d)) == Success(Datasets()[d])
    ensures OpenmlMapping(Some(Datasets()[d]), None) == Success(d)
  {
    assert exists t :: t in Tasks() && Tasks()[t] == d;
    var t :| t in Tasks() && Tasks()[t] == d;
    DatasetOfTask(t);
  }

  /**
   * Neither or both ids given is a ValueError; an id that is not in the
   * table is a KeyError carrying it; nothing else fails.
   */
  lemma OpenmlErrors(task: Option<int>, ds: Option<int>)
    ensures OpenmlMapping(task, ds) == Failure(ValueError) <==> task.None? == ds.None?
    ensures task.Some? && ds.None? ==>
              (OpenmlMapping(task, ds).Failure? <==> task.value !in Tasks())
    ensures task.None? && ds.Some? ==>
              (OpenmlMapping(task, ds).Failure? <==> ds.value !in Datasets())
  {
  }

  // ---------------------------------------------------------------------
  // prefixed_name

  /** `prefixed_name(prefix, name)`. */
  function PrefixedName(prefix: Option<string>, name: string): string
  {
    if prefix.None? then name else prefix.value + ":" + name
  }

  /** The position of the first `c` in `s`, if any. */
  function FirstIndex(s: string, c: char): (r: Option<nat>)
    ensures r.None? <==> c !in s
    ensures r.Some? ==> r.value < |s| && s[r.value] == c && c !in s[..r.value]
    decreases |s|
  {
    if s == [] then None
    else if s[0] == c then Some(0)
    else match FirstIndex(s[1..], c)
      case None => None
      case Some(i) => assert s[..i + 1] == [s[0]] + s[1..][..i]; Some(i + 1)
  }

  /** Reads a prefixed name back: the text before the first ':' is the prefix. */
  function SplitPrefixed(s: string): (Option<string>, string)
  {
    match FirstIndex(s, ':')
    case None => (None, s)
    case Some(i) => (Some(s[..i]), s[i + 1..])
  }

  /**
   * Without a prefix every name is returned unchanged; with one, the result
   * is the prefix and ':' followed by the name, whatever either contains.
   */
  lemma PrefixedNameParts(prefix: Option<string>, name: string)
    ensures prefix.None? ==> PrefixedName(prefix, name) == name
    ensures prefix.Some? ==>
              var p := prefix.value;
              var s := PrefixedName(prefix, name);
              |s| == |p| + 1 + |name| && s[..|p|] == p && s[|p|] == ':' && s[|p| + 1..] == name
  {
  }

  /** A prefix without ':' is recovered from the prefixed name along with the name. */
  lemma PrefixedNameRoundTrip(prefix: Option<string>, name: string)
    requires prefix.Some? ==> ':' !in prefix.value
    requires prefix.None? ==> ':' !in name
    ensures SplitPrefixed(PrefixedName(prefix, name)) == (prefix, name)
  {
    if prefix.Some? {
      var p := prefix.value;
      var s := p + ":" + name;
      assert s[..|p|] == p && s[|p|] == ':' && s[|p| + 1..] == name;
      match FirstIndex(s, ':')
      case None =>
        assert false;
      case Some(i) =>
        assert i == |p|;
    }
  }

  // ---------------------------------------------------------------------
  // get_type: the split of a dotted path into module and class name

  /** The position of the last `c` in `s`, if any. */
  function LastIndex(s: string, c: char): (r: Option<nat>)
    ensures r.None? <==> c !in s
    ensures r.Some? ==> r.value < |s| && s[r.value] == c && c !in s[r.value + 1..]
    decreases |s|
  {
    if s == [] then None
    else if s[|s| - 1] == c then Some(|s| - 1)
    else
      var t := s[..|s| - 1];
      assert s == t + [s[|s| - 1]];
      var r := LastIndex(t, c);
      if r.Some? then assert s[r.value + 1..] == t[r.value + 1..] + [s[|s| - 1]]; r
      else r
  }

  /** `s.rpartition(c)`: before the last `c`, the separator, after it; ("", "", s) without one. */
  function RPartition(s: string, c: char): (string, string, string)
  {
    match LastIndex(s, c)
    case None => ("", "", s)
    case Some(i) => (s[..i], [c], s[i + 1..])
  }

  /** `s.split(c)`: the pieces between the occurrences of `c`. */
  function Split(s: string, c: char): (parts: seq<string>)
    ensures |parts| > 0
    decreases |s|
  {
    if s == [] then [""]
    else
      var init := Split(s[..|s| - 1], c);
      if s[|s| - 1] == c then init + [""]
      else init[..|init| - 1] + [init[|init| - 1] + [s[|s| - 1]]]
  }

  /** `clazz.rpartition(".")[0]`. */
  function ModuleName(clazz: string): string
  {
    RPartition(clazz, '.').0
  }

  /** `clazz.split(".")[-1]`. */
  function ClassName(clazz: string): string
  {
    var parts := Split(clazz, '.');
    parts[|parts| - 1]
  }

  /** The last piece of a split is what follows the last separator. */
  lemma {:induction false} SplitLast(s: string, c: char)
    ensures var parts := Split(s, c);
            parts[|parts| - 1] == RPartition(s, c).2
    decreases |s|
  {
    if s != [] && s[|s| - 1] != c {
      var t := s[..|s| - 1];
      SplitLast(t, c);
      match LastIndex(t, c)
      case None =>
      case Some(i) =>
        assert s[i + 1..] == t[i + 1..] + [s[|s| - 1]];
    }
  }

  /**
   * The class name is the text after the last '.', the module name the text
   * before it, and rejoined with '.' they give the path back; a name
   * without '.' has the empty module name and is its own class name.
   */
  lemma GetTypeSplit(clazz: string)
    ensures '.' !in ClassName(clazz)
    ensures '.' in clazz ==> ModuleName(clazz) + "." + ClassName(clazz) == clazz
    ensures '.' !in clazz ==> ModuleName(clazz) == "" && ClassName(clazz) == clazz
  {
    SplitLast(clazz, '.');
    match LastIndex(clazz, '.')
    case None =>
    case Some(i) =>
      assert clazz == clazz[..i] + "." + clazz[i + 1..];
  }

  // ---------------------------------------------------------------------
  // score: the metric name check

  /** `valid_metrics`. */
  const ValidMetrics: set<string> := {"accuracy", "precision", "recall", "f1", "logloss", "rocauc"}

  /** The six metrics `score` knows. */
  datatype Metric = Accuracy | Precision | Recall | F1 | LogLoss | RocAuc

  /** The `if`/`elif` chain of `score` on the metric name. */
  function ParseMetric(name: string): Result<Metric, Error>
  {
    if name == "accuracy" then Success(Accuracy)
    else if name == "precision" then Success(Precision)
    else if name == "recall" then Success(Recall)
    else if name == "f1" then Success(F1)
    else if name == "logloss" then Success(LogLoss)
    else if name == "rocauc" then Success(RocAuc)
    else Failure(ValueError)
  }

  /** The name `score` accepts for a metric. */
  function MetricName(m: Metric): string
  {
    match m
    case Accuracy => "accuracy"
    case Precision => "precision"
    case Recall => "recall"
    case F1 => "f1"
    case LogLoss => "logloss"
    case RocAuc => "rocauc"
  }

  /**
   * `score(y, y_pred, metric)`, where `raw` is what the chosen scikit-learn
   * metric returns: every metric but logloss is negated so that lower is better.
   */
  function Score(name: string, raw: real): Result<real, Error>
  {
    match ParseMetric(name)
    case Failure(e) => Failure(e)
    case Success(m) => Success(if name != "logloss" then -1.0 * raw else raw)
  }

  /**
   * `score` accepts exactly the names in `valid_metrics` and raises
   * ValueError for any other; every metric's name parses back to it.
   */
  lemma ScoreAcceptsValidMetrics(name: string, raw: real, m: Metric)
    ensures Score(name, raw).Success? <==> name in ValidMetrics
    ensures Score(name, raw).Failure? ==> Score(name, raw).error == ValueError
    ensures name in ValidMetrics ==> Score(name, raw).value == (if name == "logloss" then raw else -raw)
    ensures MetricName(m) in ValidMetrics && ParseMetric(MetricName(m)) == Success(m)
  {
  }
}
