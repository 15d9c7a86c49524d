/**
 The plan as the journal and the executor see it, and the text rules shared by
 identifiers, provider states and error codes.
 */
module Domain {

  datatype Option<+T> = None | Some(value: T)

  datatype Result<+T, +E> = Ok(value: T) | Err(error: E)

  type OperationID = string
  type TargetID = string
  type PlanID = string
  type RunID = string

  const UINT32_LIMIT := 0x1_0000_0000

  /** The 32-bit unsigned counters of the journal: attempts and blocked attempts. */
  type Uint32 = x: int | 0 <= x < UINT32_LIMIT

  function Increment32(x: Uint32): Uint32 {
    (x + 1) % UINT32_LIMIT
  }

  function Subtract32(x: Uint32, y: Uint32): Uint32 {
    (x - y) % UINT32_LIMIT
  }

  /** Unset stands for the empty state string of a payload without a state. */
  datatype NormalizedState =
    | Unset
    | Planned
    | Ready
    | Running
    | Blocked
    | WaitingExternal
    | Published
    | Rejected
    | Failed
    | Cancelled

  datatype ProviderRef = ProviderRef(name: string, version: string)

  /** Raw JSON with the verdict of the JSON parser on it. */
  datatype JsonValue = JsonValue(raw: string, wellFormed: bool)

  datatype Target = Target(id: TargetID, provider: ProviderRef, configuration: JsonValue)

  /** A release: its ID and the names of its artifacts. */
  datatype Release = Release(id: string, artifacts: seq<string>)

  datatype Operation = Operation(
    id: OperationID,
    target: TargetID,
    provider: ProviderRef,
    kind: string,
    dependencies: seq<OperationID>,
    sideEffecting: bool)

  /** A plan that NewPlan accepted: its operations are indexed by their unique IDs. */
  datatype Plan = Plan(id: PlanID, targets: seq<TargetID>, operations: map<OperationID, Operation>)

  function Utf8Length(c: char): nat {
    if c < '\U{80}' then 1
    else if c < '\U{800}' then 2
    else if c < '\U{10000}' then 3
    else 4
  }

  function Utf8Bytes(text: string): nat {
    if text == "" then 0 else Utf8Length(text[0]) + Utf8Bytes(text[1..])
  }

  predicate IsControl(c: char) {
    c < '\U{20}' || '\U{7F}' <= c <= '\U{9F}'
  }

  predicate IsSpace(c: char) {
    || '\U{9}' <= c <= '\U{D}'
    || c in {'\U{20}', '\U{85}', '\U{A0}', '\U{1680}', '\U{2028}', '\U{2029}', '\U{202F}', '\U{205F}', '\U{3000}'}
    || '\U{2000}' <= c <= '\U{200A}'
  }

  /** Non-empty text: at most 256 bytes, no surrounding white space, no control characters. */
  predicate ValidText(text: string) {
    && text != ""
    && Utf8Bytes(text) <= 256
    && !IsSpace(text[0]) && !IsSpace(text[|text| - 1])
    && forall c | c in text :: !IsControl(c)
  }

  predicate ValidOptionalText(text: string) {
    text == "" || ValidText(text)
  }

  /** Identifiers obey the same rules as non-empty text. */
  predicate ValidIdentifier(text: string) {
    ValidText(text)
  }
}
