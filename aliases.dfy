/** Command-line aliases: validation of a single alias and of an alias list
    given as a string, an array or nothing. */
module Aliases {
  import opened Results
  import opened JsValues

  /** An alias; the constructor stores its argument as it is. */
  datatype Alias = Alias(value: JsValue)

  /** `Alias.create`: a falsy input is a missing alias, a truthy non-string is
      rejected, and a non-empty string becomes the alias. */
  function Create(alias: JsValue): (r: Result<Alias>)
    ensures r.Ok? <==> alias.Str? && alias.s != ""
    ensures !Truthy(alias) ==> r == Err(MissingAlias)
    ensures Truthy(alias) && !alias.Str? ==> r == Err(AliasNotString)
    ensures r.Ok? ==> r.value.value == alias
  {
    if !Truthy(alias) then Err(MissingAlias)
    else if !alias.Str? then Err(AliasNotString)
    else Ok(Alias(alias))
  }

  /** `toString()`: the stored value, from which the alias is rebuilt. */
  function ToString(a: Alias): (r: JsValue)
    ensures Alias(r) == a
  {
    a.value
  }

  /** A created alias prints as the string it was created from. */
  lemma ToStringRoundTrip(alias: JsValue)
    requires Create(alias).Ok?
    ensures ToString(Create(alias).value) == alias && alias.Str?
  {
  }

  /** `aliases.map(this.create, this)`: one alias per element, in order; the
      first element that `create` rejects aborts with its error. */
  function CreateEach(items: seq<JsValue>): (r: Result<seq<Alias>>)
    ensures r.Ok? <==> forall i :: 0 <= i < |items| ==> Create(items[i]).Ok?
    ensures r.Ok? ==> |r.value| == |items| && forall i :: 0 <= i < |items| ==> r.value[i] == Alias(items[i])
    ensures r.Err? ==> exists j :: 0 <= j < |items| && Create(items[j]) == Err(r.error) &&
                                   forall i :: 0 <= i < j ==> Create(items[i]).Ok?
  {
    if items == [] then Ok([])
    else match Create(items[0])
      case Err(e) => Err(e)
      case Ok(a) =>
        match CreateEach(items[1..])
        case Err(e) =>
          assert forall i :: 1 <= i < |items| ==> items[i] == items[1..][i - 1];
          Err(e)
        case Ok(rest) =>
          assert forall i :: 1 <= i < |items| ==> items[i] == items[1..][i - 1];
          Ok([a] + rest)
  }

  /** `Alias.createMany(aliases = [])`: `undefined` is the empty array, a string
      is a one-element array, an array is mapped by `create`, and anything else
      (a number, `null`, an object) is rejected. */
  function CreateMany(aliases: JsValue): (r: Result<seq<Alias>>)
    ensures aliases.Undefined? ==> r == Ok([])
    ensures aliases.Arr? ==> r == CreateEach(aliases.items)
    ensures !aliases.Undefined? && !aliases.Str? && !aliases.Arr? ==> r == Err(AliasesNotStringOrArray)
    ensures r.Ok? ==> forall i :: 0 <= i < |r.value| ==> r.value[i].value.Str? && r.value[i].value.s != ""
  {
    if aliases.Undefined? then CreateEach([])
    else if aliases.Str? then
      match Create(aliases)
      case Err(e) => Err(e)
      case Ok(a) => Ok([a])
    else if aliases.Arr? then CreateEach(aliases.items)
    else Err(AliasesNotStringOrArray)
  }

  /** No argument gives no alias; a string is the same as the one-element array
      holding it; and every other non-array input fails. */
  lemma CreateManyShapes(aliases: JsValue)
    ensures CreateMany(Undefined) == Ok([])
    ensures aliases.Str? ==> CreateMany(aliases) == CreateMany(Arr([aliases]))
    ensures aliases.Str? && aliases.s != "" ==> CreateMany(aliases) == Ok([Alias(aliases)])
    ensures !aliases.Undefined? && !aliases.Str? && !aliases.Arr? ==> CreateMany(aliases) == Err(AliasesNotStringOrArray)
  {
    if aliases.Str? {
      var items := [aliases];
      assert items[1..] == [];
      assert [Alias(aliases)] + [] == [Alias(aliases)];
    }
  }

  /** An array of aliases succeeds exactly when every element is a non-empty
      string, and then yields the aliases of the elements in order. */
  lemma CreateManyArray(items: seq<JsValue>)
    ensures CreateMany(Arr(items)).Ok? <==> forall i :: 0 <= i < |items| ==> items[i].Str? && items[i].s != ""
    ensures CreateMany(Arr(items)).Ok? ==>
      |CreateMany(Arr(items)).value| == |items| &&
      forall i :: 0 <= i < |items| ==> ToString(CreateMany(Arr(items)).value[i]) == items[i]
  {
  }
}
