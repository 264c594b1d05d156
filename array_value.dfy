/** The array value resource: its value rules (type check and deep copy on
    normalisation, wrapping of a bare array definition, string parsing) and
    its `@countItems` method. The deep freeze of the stored value is Dafny's
    value semantics: a `seq` cannot be changed by any holder. */
module ArrayValue {
  import opened Results
  import opened JsValues

  /** The resource type name under which array values are registered. */
  const ResourceType: string := "array"

  /** `$normalizeValue`: only an array is accepted; the stored value equals the
      input element by element and shares nothing mutable with it. */
  function NormalizeValue(value: JsValue): (r: Result<JsValue>)
    ensures r.Ok? <==> value.Arr?
    ensures r.Err? ==> r.error == InvalidValueType
    ensures r.Ok? ==> r.value.Arr? && r.value.items == value.items
  {
    if !value.Arr? then Err(InvalidValueType)
    else Ok(Arr(value.items))
  }

  /** Normalising an already normalised value returns it unchanged. */
  lemma NormalizeValueIdempotent(value: JsValue)
    requires NormalizeValue(value).Ok?
    ensures NormalizeValue(NormalizeValue(value).value) == NormalizeValue(value)
  {
  }

  /** An illustration, not an operation of the resource: the property the
      deep copy of `$normalizeValue` secures, shown with the caller holding a
      mutable array. Normalising a snapshot of it and then overwriting one of
      its elements leaves the stored value with the elements the array had
      when it was normalised. */
  method NormalizeThenOverwrite(caller: array<JsValue>, i: nat, x: JsValue) returns (stored: Result<JsValue>)
    requires i < caller.Length
    modifies caller
    ensures stored == Ok(Arr(old(caller[..])))
    ensures caller[..] == old(caller[..])[i := x]
  {
    stored := NormalizeValue(Arr(caller[..]));
    caller[i] := x;
  }

  /** `$normalize`: a bare array definition `d` becomes `{'@value': d}`; any other
      definition is handed on unchanged. The result is never a bare array. */
  function WrapDefinition(definition: JsValue): (r: JsValue)
    ensures !r.Arr?
    ensures definition.Arr? ==> r.Obj? && r.fields == [Field("@value", definition)]
    ensures !definition.Arr? ==> r == definition
  {
    if definition.Arr? then Obj([Field("@value", definition)]) else definition
  }

  /** `$normalize`, completed by the value resource's own normalisation
      `normalizeValueResource`, which is not part of this model. */
  function Normalize(definition: JsValue, normalizeValueResource: JsValue -> Result<JsValue>): (r: Result<JsValue>)
    ensures definition.Arr? ==> r == normalizeValueResource(Obj([Field("@value", definition)]))
    ensures !definition.Arr? ==> r == normalizeValueResource(definition)
  {
    normalizeValueResource(WrapDefinition(definition))
  }

  /** Wrapping twice is wrapping once, and the wrapped value sits under `@value`. */
  lemma WrapDefinitionStable(definition: JsValue)
    ensures WrapDefinition(WrapDefinition(definition)) == WrapDefinition(definition)
    ensures definition.Arr? ==> Get(WrapDefinition(definition).fields, "@value") == Some(definition)
  {
  }

  /** `$parseValue`: an empty or absent string parses to the empty array, any
      other string to the one-element array holding it. */
  function ParseValue(str: JsValue): (r: JsValue)
    ensures r.Arr? && |r.items| <= 1
    ensures r.items == [] <==> !Truthy(str)
    ensures Truthy(str) ==> r.items == [str]
  {
    if Truthy(str) then Arr([str]) else Arr([])
  }

  /** A parsed value is accepted by normalisation as it is. */
  lemma ParsedValueNormalizes(str: JsValue)
    ensures NormalizeValue(ParseValue(str)) == Ok(ParseValue(str))
  {
  }

  /** `@countItems` on the stored value (`None` when no value is stored): the
      result object `{result: n}` with `n` the number of items, 0 when absent. */
  function CountItems(stored: Option<seq<JsValue>>): (r: Fields)
    ensures Get(r, "result") == Some(Num(if stored.Some? then |stored.value| else 0))
    ensures KeySet(r) == {"result"}
  {
    [Field("result", Num(if stored.Some? then |stored.value| else 0))]
  }

  /** Counting the items of a value stored by normalisation gives the length of
      the input array; a value parsed from a string has at most one item. */
  lemma CountItemsOfStored(value: JsValue, str: JsValue)
    ensures NormalizeValue(value).Ok? ==>
      CountItems(Some(NormalizeValue(value).value.items)) == [Field("result", Num(|value.items|))]
    ensures CountItems(Some(ParseValue(str).items)) ==
      [Field("result", Num(if Truthy(str) then 1 else 0))]
  {
  }
}
