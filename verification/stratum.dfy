/**
 * Values shared by both sides of the Stratum protocol: the parsed JSON object
 * (as the property tree presents it) and the job object.
 */
module Stratum {

  /**
   * A JSON object: its string-valued members by key and its object-valued
   * members by key. Converting between text and this value is done by the JSON
   * library and is not part of this model; a parser is passed where the source
   * parses text.
   */
  datatype Tree = Tree(values: map<string, string>, children: map<string, Tree>)

  /** `tree.get<std::string>(key, default)`: the member's value, or the default when absent. */
  function Get(t: Tree, key: string, default: string): (v: string)
    ensures key in t.values ==> v == t.values[key]
    ensures key !in t.values ==> v == default
  {
    if key in t.values then t.values[key] else default
  }

  /** Reading a member that may be absent: absent members read as the empty string. */
  function Field(t: Tree, key: string): (v: string)
    ensures key !in t.values ==> v == ""
    ensures key in t.values ==> v == t.values[key]
  {
    Get(t, key, "")
  }

  /**
   * A job as the protocol carries it: either the plain form (blob and target) or
   * the block-template form used between chained proxies.
   */
  datatype Job = Job(
    id: string,
    jobId: string,
    blob: string,
    target: string,
    blocktemplateBlob: string,
    difficulty: string,
    height: string,
    reservedOffset: string,
    clientNonceOffset: string,
    clientPoolOffset: string,
    targetDiff: string,
    targetDiffHex: string)
  {
    /** A job is a block template when it carries a block-template blob. */
    predicate IsBlockTemplate() {
      blocktemplateBlob != ""
    }
  }

  /** The keys of a plain job object. */
  const PlainJobKeys: set<string> := {"id", "job_id", "blob", "target"}

  /** The keys of a block-template job object. */
  const TemplateJobKeys: set<string> :=
    {"id", "job_id", "blocktemplate_blob", "difficulty", "height", "reserved_offset",
     "client_nonce_offset", "client_pool_offset", "target_diff"}
}
