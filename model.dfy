/**
 * The value types that the scheduler in dswizard/core/master.py handles.
 * They come from dswizard.core.model, whose code is not part of this model:
 * only the attributes the scheduler reads are kept.
 */
module Model {
  import opened Wrappers

  /**
   * A CandidateId: (iteration, structure, config). A structure is named by an
   * id without a configuration index; `WithConfig` names one configuration of it.
   */
  datatype CandidateId = CandidateId(iteration: int, structure: int, config: Option<int>)
  {
    /** `CandidateId.with_config`: the id of configuration `index` of this structure. */
    function WithConfig(index: int): CandidateId
    {
      CandidateId(iteration, structure, Some(index))
    }

    /** The id of the structure this id belongs to. */
    function Base(): StructureId
    {
      CandidateId(iteration, structure, None)
    }
  }

  /** The id of a structure: a CandidateId that names no configuration. */
  type StructureId = c: CandidateId | c.config.None? witness CandidateId(0, 0, None)

  /** An opaque key of the configuration cache. */
  type CfgKey = nat

  /** A configuration: one sampled by the cache, or the default configuration of an empty space. */
  datatype Config = Sampled(key: CfgKey) | DefaultConfig

  /**
   * A CandidateStructure as the scheduler sees it: its id, whether it is still a
   * proxy, its (floating-point) budget and the cached configuration keys it carries.
   */
  datatype Structure = Structure(cid: StructureId, isProxy: bool, budget: real, cfgKeys: seq<CfgKey>)

  /** The two kinds of job the scheduler submits to the dispatcher. */
  datatype Job =
    | EvaluationJob(cid: CandidateId, cs: Structure, config: Option<Config>, cfgKeys: Option<seq<CfgKey>>)
    | StructureJob(cs: Structure)

  /** Python's `int()` applied to a float: truncation toward zero. */
  function Int(x: real): (r: int)
    ensures 0.0 <= x ==> 0 <= r && r as real <= x < r as real + 1.0
    ensures x < 0.0 ==> r <= 0 && r as real - 1.0 < x <= r as real
  {
    if 0.0 <= x then x.Floor else -((-x).Floor)
  }
}
