/**
 * The records that flow through the memory system: short-term and
 * long-term memories, staging entries and judge verdicts.
 *
 * Time is an integer clock in seconds; 0 stands for Go's zero `time.Time`.
 * Scores are `real`.
 */
module Types {
  import opened Wrappers

  type Vector = seq<real>

  /** A dynamically typed metadata value (Go's `interface{}`). */
  datatype Value =
    | VStr(s: string)
    | VInt(n: int)
    | VReal(x: real)
    | VTime(t: int)
    | VBool(b: bool)
    | VStrs(items: seq<string>)
    | VOther

  /** Values Go's `!=` on `interface{}` can compare without a run-time panic. */
  predicate Comparable(v: Value)
  {
    !v.VStrs? && !v.VOther?
  }

  type Metadata = map<string, Value>

  const ShortTerm: string := "short_term"
  const LongTerm: string := "long_term"
  const EntityType: string := "entity"
  const StagingType: string := "staging"

  const CategoryFact: string := "fact"
  const CategoryPreference: string := "preference"
  const CategoryGoal: string := "goal"
  const CategoryNoise: string := "noise"

  /** A memory record (types.go `Record`); `embedding` is `None` for a nil slice. */
  datatype Record = Record(
    id: string,
    content: string,
    embedding: Option<Vector>,
    timestamp: int,
    metadata: Metadata,
    memType: string)

  datatype StagingStatus = Pending | Confirmed | Rejected

  /** A candidate memory waiting for promotion (types.go `StagingEntry`). */
  datatype StagingEntry = StagingEntry(
    id: string,
    content: string,
    embedding: Vector,
    userId: string,
    firstSeenAt: int,
    lastSeenAt: int,
    occurrenceCount: int,
    valueScore: real,
    confidenceScore: real,
    category: string,
    extractedTags: seq<string>,
    extractedEntities: map<string, string>,
    status: StagingStatus,
    confirmedBy: string,
    sessionIds: seq<string>)

  /** The LLM's verdict on one piece of content (types.go `JudgeResult`). */
  datatype JudgeResult = JudgeResult(
    valueScore: real,
    confidenceScore: real,
    category: string,
    reason: string,
    tags: seq<string>,
    entities: map<string, string>,
    shouldStage: bool,
    isCritical: bool)

  /** The metadata a long-term record carries (types.go `LTMMetadata`). */
  datatype LtmMetadata = LtmMetadata(
    userId: string,
    sessionId: string,
    createdAt: int,
    tags: seq<string>,
    entities: map<string, string>,
    category: string,
    lastAccessAt: int,
    accessCount: int,
    decayScore: real,
    sourceType: string,
    confidenceOrigin: real)

  /** The string stored under `key`, when there is one. */
  function MetaString(m: Metadata, key: string): (r: Option<string>)
    ensures r.Some? <==> key in m && m[key].VStr?
    ensures r.Some? ==> m[key] == VStr(r.value)
  {
    if key in m && m[key].VStr? then Some(m[key].s) else None
  }
}
