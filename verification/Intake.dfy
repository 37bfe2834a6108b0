/** `FactInput`: the validation an inbound payload passes before it reaches the database. */
module Intake {
  import opened Schema

  /** One field of the JSON payload, as received. */
  datatype Field<+T> = Absent | Null | IllTyped | Given(value: T)

  /** A payload as received. `refused` is what it carries besides: whether the database will refuse
      the row its values make, which validation does not foresee: a key too long for its index, a
      number its column cannot hold. */
  datatype Payload =
    | NotAnObject
    | Object(
        extraKeys: bool, kind: Field<string>, content: Field<string>, confidence: Field<real>,
        tags: Field<seq<string>>, source: Field<string>,
        sourceRef: Field<string>, dedupeKey: Field<string>, refused: bool)

  datatype FactInput = FactInput(
    kind: string, content: string, confidence: real, tags: seq<string>, source: string,
    sourceRef: Option<string>, dedupeKey: Option<string>, refused: bool)

  /** The value of a field that may be left out but not be null. */
  function OrDefault<T>(field: Field<T>, default: T): Option<T> {
    match field
    case Absent => Some(default)
    case Given(v) => Some(v)
    case _ => None
  }

  predicate NullableOk<T>(field: Field<T>) {
    !field.IllTyped?
  }

  function Nullable<T>(field: Field<T>): Option<T> {
    if field.Given? then Some(field.value) else None
  }

  /** `FactInput.model_validate`: `None` stands for a `ValidationError`. Whatever passes also
      passes the table's CHECK constraints. */
  function Validate(p: Payload): (r: Option<FactInput>)
    ensures r.Some? ==> r.value.kind in FACT_TYPES && r.value.source in FACT_SOURCES
    ensures r.Some? ==> 0.0 <= r.value.confidence <= 1.0 && r.value.content != ""
    ensures r.Some? ==> p.Object? && !p.extraKeys && p.content == Given(r.value.content)
  {
    if p.NotAnObject? || p.extraKeys || !p.kind.Given? || !p.content.Given? then None
    else if !NullableOk(p.sourceRef) || !NullableOk(p.dedupeKey) then None
    else
      match (OrDefault(p.confidence, 0.5), OrDefault(p.tags, ["account"]), OrDefault(p.source, "mcp_writeback"))
      case (Some(c), Some(t), Some(s)) =>
        if p.kind.value in FACT_TYPES && p.content.value != "" && 0.0 <= c <= 1.0 && s in FACT_SOURCES
        then
          Some(FactInput(p.kind.value, p.content.value, c, t, s, Nullable(p.sourceRef), Nullable(p.dedupeKey),
                         p.refused))
        else None
      case _ => None
  }

  /** A field that was given this value, or was left out and has it as its default. */
  predicate Takes<T(==)>(field: Field<T>, default: T, value: T) {
    field == Given(value) || (field == Absent && value == default)
  }

  /** A nullable field that holds this value; null and absent both mean none. */
  predicate TakesNullable<T(==)>(field: Field<T>, value: Option<T>) {
    if value.Some? then field == Given(value.value) else field == Absent || field == Null
  }

  predicate IsKind(kind: string) {
    || kind == "identity" || kind == "preference" || kind == "state" || kind == "episodic"
    || kind == "relationship" || kind == "style" || kind == "behavioral"
  }

  predicate IsSource(source: string) {
    || source == "import_chatgpt" || source == "import_claude" || source == "dump_prompt"
    || source == "mcp_writeback" || source == "save_session" || source == "refresh_diff"
    || source == "murray_app" || source == "murray_clip" || source == "user_manual"
  }

  /** Which payloads are accepted, and as what: for every payload, with absent, null and ill-typed
      fields and the defaults. */
  lemma ValidateIff(p: Payload, f: FactInput)
    ensures Validate(p) == Some(f) <==>
      && p.Object? && !p.extraKeys
      && p.kind == Given(f.kind) && IsKind(f.kind)
      && p.content == Given(f.content) && f.content != ""
      && Takes(p.confidence, 0.5, f.confidence) && 0.0 <= f.confidence <= 1.0
      && Takes(p.tags, ["account"], f.tags)
      && Takes(p.source, "mcp_writeback", f.source) && IsSource(f.source)
      && TakesNullable(p.sourceRef, f.sourceRef) && TakesNullable(p.dedupeKey, f.dedupeKey)
      && p.refused == f.refused
  {
  }

  // ---------------------------------------------------------------- values the database refuses

  /** Postgres has no text with a NUL character; a request that carries one is refused. */
  predicate StorableText(s: string) {
    '\0' !in s
  }

  /** Validation bounds neither the length of a key nor the range of a number and does not look for
      NUL characters, so an insert can still be refused for its values. */
  predicate Storable(f: FactInput) {
    && !f.refused
    && StorableText(f.content) && (forall t :: t in f.tags ==> StorableText(t))
    && (f.sourceRef.Some? ==> StorableText(f.sourceRef.value))
    && (f.dedupeKey.Some? ==> StorableText(f.dedupeKey.value))
  }

  /** An item that passes validation and that the database then refuses. */
  predicate Unstorable(p: Payload) {
    Validate(p).Some? && !Storable(Validate(p).value)
  }

  /** How many items come before the first that the database refuses. */
  function Clean(items: seq<Payload>): (n: nat)
    ensures n <= |items|
    ensures forall i :: 0 <= i < n ==> !Unstorable(items[i])
    ensures n < |items| ==> Unstorable(items[n])
  {
    if items == [] || Unstorable(items[0]) then 0 else 1 + Clean(items[1..])
  }

  /** The submitted part of a stored row. */
  function Submitted(row: Fact): FactInput {
    FactInput(row.kind, row.content, row.confidence, row.tags, row.source, row.sourceRef, row.dedupeKey, false)
  }
}
