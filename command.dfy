/** A command resource: a method resource with named options. It resolves the
    trailing options argument of a call against its declared options, assembles
    the arguments of the underlying function and serialises its option block
    back into a definition. */
module Command {
  import opened Results
  import opened JsValues

  /** A declared option, as created from one entry of the `$options` block.
      `definition` is everything about the option other than its name; only the
      collaborators below look inside it. */
  datatype OptionResource = OptionResource(name: string, definition: JsValue)

  /** The result of a positional normalisation: the normalised arguments and
      the arguments left for the caller to process. */
  datatype Normalized = Normalized(normalizedArguments: seq<JsValue>, remainingArguments: seq<JsValue>)

  /** The state of option resolution: the options not yet consumed and the
      normalised options collected so far. */
  datatype Resolution = Resolution(remaining: Fields, normalized: Fields)

  /** A call to the command's underlying function: positional arguments and the options object. */
  datatype Expression = Expression(arguments: seq<JsValue>, options: JsValue)

  // Collaborators of the command that are not part of this model.

  /** `Resource.$create(definition, {name, directory})` for one options entry. */
  type OptionFactory = (string, JsValue) -> Result<OptionResource>
  /** The method resource's own `_normalizeArguments(args, {parse})`. */
  type PositionalNormalizer = (seq<JsValue>, bool) -> Result<Normalized>
  /** `option.$match(remainingOptions)`: the matched key and its value, if any. */
  type Matcher = (OptionResource, Fields) -> Option<Field>
  /** `option.$instantiate(value, {parse}).$unwrap()`. */
  type Instantiator = (OptionResource, JsValue, bool) -> Result<JsValue>
  /** `option.$serialize({omitName: true})`. */
  type OptionSerializer = OptionResource -> JsValue

  /** A mutable JavaScript array of arguments, as `shift()` sees it. */
  class ArgumentList {
    var items: seq<JsValue>

    constructor (items: seq<JsValue>)
      ensures this.items == items
    {
      this.items := items;
    }

    /** `Array.prototype.shift`: removes and returns the first element, or
        `undefined` when the array is empty. */
    method Shift() returns (first: JsValue)
      modifies this
      ensures old(items) == [] ==> first == Undefined && items == []
      ensures old(items) != [] ==> first == old(items)[0] && items == old(items)[1..]
    {
      if items == [] {
        first := Undefined;
      } else {
        first := items[0];
        items := items[1..];
      }
    }
  }

  // ---------------------------------------------------------------------------
  // The `$options` setter

  /** What the setter leaves behind: the options created so far and the error,
      if one of the creations threw. */
  datatype OptionsBuild = OptionsBuild(built: seq<OptionResource>, failure: Option<Error>)

  /** Creating the options of the entries `entries` in order, stopping at the
      first creation that throws. */
  function BuildOptions(entries: Fields, create: OptionFactory): OptionsBuild
    decreases |entries|
  {
    if entries == [] then OptionsBuild([], None)
    else
      var prev := BuildOptions(entries[..|entries| - 1], create);
      var last := entries[|entries| - 1];
      if prev.failure.Some? then prev
      else match create(last.key, last.value)
        case Err(e) => OptionsBuild(prev.built, Some(e))
        case Ok(o) => OptionsBuild(prev.built + [o], None)
  }

  /** Without a failure, one option is created per entry, in entry order; with a
      failure, the options created are those of the entries before the first
      entry whose creation threw. */
  lemma {:induction false} BuildOptionsInOrder(entries: Fields, create: OptionFactory)
    ensures var b := BuildOptions(entries, create);
      b.failure.None? ==>
        |b.built| == |entries| &&
        forall i :: 0 <= i < |entries| ==> create(entries[i].key, entries[i].value) == Ok(b.built[i])
    ensures var b := BuildOptions(entries, create);
      b.failure.Some? ==>
        exists j :: 0 <= j < |entries| && |b.built| == j &&
          create(entries[j].key, entries[j].value) == Err(b.failure.value) &&
          forall i :: 0 <= i < j ==> create(entries[i].key, entries[i].value) == Ok(b.built[i])
    decreases |entries|
  {
    if entries != [] {
      var init := entries[..|entries| - 1];
      BuildOptionsInOrder(init, create);
      var prev := BuildOptions(init, create);
      if prev.failure.Some? {
        var j :| 0 <= j < |init| && |prev.built| == j &&
          create(init[j].key, init[j].value) == Err(prev.failure.value) &&
          forall i :: 0 <= i < j ==> create(init[i].key, init[i].value) == Ok(prev.built[i]);
        assert entries[j] == init[j];
        assert forall i :: 0 <= i < j ==> entries[i] == init[i];
      } else {
        assert forall i :: 0 <= i < |init| ==> entries[i] == init[i];
      }
    }
  }

  // ---------------------------------------------------------------------------
  // Option resolution, the loop of `_normalizeArguments`

  /** The key an option consumes from `remaining`, as a set of at most one key. */
  function MatchedKey(o: OptionResource, remaining: Fields, matcher: Matcher): set<string> {
    var m := matcher(o, remaining);
    if m.Some? then {m.value.key} else {}
  }

  /** Processing one declared option: its matched key is deleted from the
      remaining options, its value instantiated, and the result recorded under
      the option's declared name unless it is `undefined`. */
  function ResolveStep(o: OptionResource, s: Resolution, parse: bool, matcher: Matcher, instantiate: Instantiator): Result<Resolution> {
    var m := matcher(o, s.remaining);
    var remaining := if m.Some? then Delete(s.remaining, m.value.key) else s.remaining;
    var raw := if m.Some? then m.value.value else Undefined;
    match instantiate(o, raw, parse)
    case Err(e) => Err(e)
    case Ok(v) => Ok(Resolution(remaining, if v.Undefined? then s.normalized else Put(s.normalized, o.name, v)))
  }

  /** Resolving the declared options `options`, in declaration order, against
      the options object `given`. */
  function Resolve(options: seq<OptionResource>, given: Fields, parse: bool, matcher: Matcher, instantiate: Instantiator): Result<Resolution>
    decreases |options|
  {
    if options == [] then Ok(Resolution(given, []))
    else match Resolve(options[..|options| - 1], given, parse, matcher, instantiate)
      case Err(e) => Err(e)
      case Ok(s) => ResolveStep(options[|options| - 1], s, parse, matcher, instantiate)
  }

  /** The keys consumed while resolving `options` against `given`. */
  function Consumed(options: seq<OptionResource>, given: Fields, parse: bool, matcher: Matcher, instantiate: Instantiator): set<string>
    decreases |options|
  {
    if options == [] then {}
    else match Resolve(options[..|options| - 1], given, parse, matcher, instantiate)
      case Err(_) => {}
      case Ok(s) => Consumed(options[..|options| - 1], given, parse, matcher, instantiate) + MatchedKey(options[|options| - 1], s.remaining, matcher)
  }

  /** One option deletes at most one property of a well-formed remaining
      object, and only the key it matched. */
  lemma StepRemovesAtMostOne(o: OptionResource, s: Resolution, parse: bool, matcher: Matcher, instantiate: Instantiator)
    requires DistinctKeys(s.remaining)
    requires ResolveStep(o, s, parse, matcher, instantiate).Ok?
    ensures var s' := ResolveStep(o, s, parse, matcher, instantiate).value;
      && s'.remaining == Without(s.remaining, MatchedKey(o, s.remaining, matcher))
      && KeySet(s'.remaining) == KeySet(s.remaining) - MatchedKey(o, s.remaining, matcher)
      && |s.remaining| - 1 <= |s'.remaining| <= |s.remaining|
      && DistinctKeys(s'.remaining)
  {
    var m := matcher(o, s.remaining);
    if m.Some? {
      DeleteRemovesOne(s.remaining, m.value.key);
    } else {
      WithoutNothing(s.remaining);
    }
  }

  /** The options left after resolution are exactly the given options minus the
      consumed keys, in their original order; a well-formed object stays well formed. */
  lemma {:induction false} ResolveRemaining(options: seq<OptionResource>, given: Fields, parse: bool, matcher: Matcher, instantiate: Instantiator)
    requires Resolve(options, given, parse, matcher, instantiate).Ok?
    ensures Resolve(options, given, parse, matcher, instantiate).value.remaining == Without(given, Consumed(options, given, parse, matcher, instantiate))
    ensures DistinctKeys(given) ==> DistinctKeys(Resolve(options, given, parse, matcher, instantiate).value.remaining)
    decreases |options|
  {
    if options == [] {
      WithoutNothing(given);
    } else {
      var init := options[..|options| - 1];
      var o := options[|options| - 1];
      ResolveRemaining(init, given, parse, matcher, instantiate);
      var s := Resolve(init, given, parse, matcher, instantiate).value;
      WithoutWithout(given, Consumed(init, given, parse, matcher, instantiate), MatchedKey(o, s.remaining, matcher));
      if matcher(o, s.remaining).None? {
        WithoutNothing(s.remaining);
      }
    }
  }

  /** The names of the declared options. */
  function Names(options: seq<OptionResource>): set<string> {
    set i | 0 <= i < |options| :: options[i].name
  }

  /** The normalised options are keyed by declared option names only (never by
      an alias), hold no `undefined`, and have each name once. */
  lemma {:induction false} NormalizedKeysAreNames(options: seq<OptionResource>, given: Fields, parse: bool, matcher: Matcher, instantiate: Instantiator)
    requires Resolve(options, given, parse, matcher, instantiate).Ok?
    ensures var n := Resolve(options, given, parse, matcher, instantiate).value.normalized;
      KeySet(n) <= Names(options) && Defined(n) && DistinctKeys(n)
    decreases |options|
  {
    if options != [] {
      var init := options[..|options| - 1];
      NormalizedKeysAreNames(init, given, parse, matcher, instantiate);
      assert Names(init) <= Names(options) by {
        forall k | k in Names(init) ensures k in Names(options) {
          var i :| 0 <= i < |init| && init[i].name == k;
          assert options[i] == init[i];
        }
      }
      assert options[|options| - 1].name in Names(options);
    }
  }

  /** An error raised while resolving a prefix of the options aborts the whole resolution. */
  lemma {:induction false} ResolveErrorAborts(options: seq<OptionResource>, i: nat, given: Fields, parse: bool, matcher: Matcher, instantiate: Instantiator)
    requires i <= |options|
    requires Resolve(options[..i], given, parse, matcher, instantiate).Err?
    ensures Resolve(options, given, parse, matcher, instantiate) == Resolve(options[..i], given, parse, matcher, instantiate)
    decreases |options| - i
  {
    if i < |options| {
      assert options[..i + 1][..i] == options[..i];
      assert Resolve(options[..i + 1], given, parse, matcher, instantiate) == Resolve(options[..i], given, parse, matcher, instantiate);
      ResolveErrorAborts(options, i + 1, given, parse, matcher, instantiate);
    } else {
      assert options[..i] == options;
    }
  }

  /** Later options never remove a name recorded by an earlier one: every name
      recorded while resolving a prefix is still a key of the final result. */
  lemma {:induction false} ResolveKeepsNames(options: seq<OptionResource>, i: nat, given: Fields, parse: bool, matcher: Matcher, instantiate: Instantiator)
    requires i <= |options|
    requires Resolve(options, given, parse, matcher, instantiate).Ok?
    ensures Resolve(options[..i], given, parse, matcher, instantiate).Ok?
    ensures KeySet(Resolve(options[..i], given, parse, matcher, instantiate).value.normalized)
         <= KeySet(Resolve(options, given, parse, matcher, instantiate).value.normalized)
    decreases |options| - i
  {
    if i == |options| {
      assert options[..i] == options;
    } else {
      var init := options[..|options| - 1];
      assert init[..i] == options[..i];
      ResolveKeepsNames(init, i, given, parse, matcher, instantiate);
    }
  }

  /** An option whose value is not `undefined` is recorded under its own name. */
  lemma StepRecordsName(o: OptionResource, s: Resolution, parse: bool, matcher: Matcher, instantiate: Instantiator)
    requires ResolveStep(o, s, parse, matcher, instantiate).Ok?
    ensures var m := matcher(o, s.remaining);
      var raw := if m.Some? then m.value.value else Undefined;
      var v := instantiate(o, raw, parse).value;
      var n := ResolveStep(o, s, parse, matcher, instantiate).value.normalized;
      (!v.Undefined? ==> Get(n, o.name) == Some(v)) &&
      (v.Undefined? ==> n == s.normalized)
  {
  }

  /** Dropping the last of a list of distinctly named options leaves distinct
      names, none of which is the last option's. */
  lemma LastNameIsNew(options: seq<OptionResource>)
    requires options != [] && DistinctNames(options)
    ensures DistinctNames(options[..|options| - 1])
    ensures forall j :: 0 <= j < |options| - 1 ==> options[j].name != options[|options| - 1].name
  {
    var init := options[..|options| - 1];
    forall i, j | 0 <= i < j < |init| ensures init[i].name != init[j].name {
      assert init[i] == options[i] && init[j] == options[j];
    }
  }

  /** With distinct option names, the normalised object holds under each
      option's name exactly the value that option instantiated to, from what
      was left of the given options when its turn came; an option whose value
      is `undefined` leaves no entry at all. */
  lemma {:induction false} ResolveValue(options: seq<OptionResource>, i: nat, given: Fields, parse: bool, matcher: Matcher, instantiate: Instantiator)
    requires DistinctNames(options)
    requires i < |options|
    requires Resolve(options, given, parse, matcher, instantiate).Ok?
    ensures Resolve(options[..i], given, parse, matcher, instantiate).Ok?
    ensures var s := Resolve(options[..i], given, parse, matcher, instantiate).value;
      var m := matcher(options[i], s.remaining);
      var v := instantiate(options[i], if m.Some? then m.value.value else Undefined, parse);
      && v.Ok?
      && Get(Resolve(options, given, parse, matcher, instantiate).value.normalized, options[i].name)
           == (if v.value.Undefined? then None else Some(v.value))
    decreases |options|
  {
    var init := options[..|options| - 1];
    var o := options[|options| - 1];
    LastNameIsNew(options);
    if i == |options| - 1 {
      assert init == options[..i];
      NormalizedKeysAreNames(init, given, parse, matcher, instantiate);
      assert o.name !in Names(init);
    } else {
      assert init[..i] == options[..i];
      assert init[i] == options[i];
      ResolveValue(init, i, given, parse, matcher, instantiate);
      assert o.name != options[i].name;
    }
  }

  // ---------------------------------------------------------------------------
  // `_normalizeArguments`

  /** The options object taken from the front of the remaining arguments: an
      absent (or `undefined`) argument is the empty object, a plain object is
      used as it is, anything else is an error. */
  function OptionsArgument(remaining: seq<JsValue>): (r: Result<Fields>)
    ensures remaining == [] || remaining[0].Undefined? ==> r == Ok([])
    ensures remaining != [] && remaining[0].Obj? ==> r == Ok(remaining[0].fields)
    ensures remaining != [] && !remaining[0].Undefined? && !remaining[0].Obj? ==> r == Err(InvalidArgumentType)
  {
    var first := if remaining == [] then Undefined else remaining[0];
    if first.Undefined? then Ok([])
    else if !first.Obj? then Err(InvalidArgumentType)
    else Ok(first.fields)
  }

  /** What `_normalizeArguments` computes, given the command's declared options. */
  function Normalize(options: seq<OptionResource>, args: seq<JsValue>, parse: bool,
                     positional: PositionalNormalizer, matcher: Matcher, instantiate: Instantiator): Result<Normalized>
  {
    match positional(args, parse)
    case Err(e) => Err(e)
    case Ok(p) =>
      match OptionsArgument(p.remainingArguments)
      case Err(e) => Err(e)
      case Ok(given) =>
        match Resolve(options, given, parse, matcher, instantiate)
        case Err(e) => Err(e)
        case Ok(s) =>
          if s.remaining != [] then Err(InvalidCommandOption(s.remaining[0].key))
          else Ok(Normalized(p.normalizedArguments + [Obj(s.normalized)],
                             if p.remainingArguments == [] then [] else p.remainingArguments[1..]))
  }

  /** Normalisation succeeds exactly when the positional arguments normalise,
      the options argument is absent or a plain object, every option
      instantiates and every given key is consumed; the result is then the
      positional arguments with the normalised options object as one extra
      final argument, and what remains is the positional remainder without
      the options argument. */
  lemma NormalizeSucceeds(options: seq<OptionResource>, args: seq<JsValue>, parse: bool,
                          positional: PositionalNormalizer, matcher: Matcher, instantiate: Instantiator)
    ensures var r := Normalize(options, args, parse, positional, matcher, instantiate);
      r.Ok? <==>
        && positional(args, parse).Ok?
        && OptionsArgument(positional(args, parse).value.remainingArguments).Ok?
        && var given := OptionsArgument(positional(args, parse).value.remainingArguments).value;
           && Resolve(options, given, parse, matcher, instantiate).Ok?
           && Consumed(options, given, parse, matcher, instantiate) >= KeySet(given)
    ensures var r := Normalize(options, args, parse, positional, matcher, instantiate);
      r.Ok? ==>
        var p := positional(args, parse).value;
        var given := OptionsArgument(p.remainingArguments).value;
        var n := Resolve(options, given, parse, matcher, instantiate).value.normalized;
        && |r.value.normalizedArguments| == |p.normalizedArguments| + 1
        && r.value.normalizedArguments[..|p.normalizedArguments|] == p.normalizedArguments
        && r.value.normalizedArguments[|p.normalizedArguments|] == Obj(n)
        && KeySet(n) <= Names(options)
        && Defined(n)
        && r.value.remainingArguments == (if p.remainingArguments == [] then [] else p.remainingArguments[1..])
  {
    var r := Normalize(options, args, parse, positional, matcher, instantiate);
    if positional(args, parse).Ok? {
      var p := positional(args, parse).value;
      if OptionsArgument(p.remainingArguments).Ok? {
        var given := OptionsArgument(p.remainingArguments).value;
        if Resolve(options, given, parse, matcher, instantiate).Ok? {
          ResolveRemaining(options, given, parse, matcher, instantiate);
          NormalizedKeysAreNames(options, given, parse, matcher, instantiate);
          EmptyKeySet(Resolve(options, given, parse, matcher, instantiate).value.remaining);
        }
      }
    }
  }

  /** An object has no keys exactly when it has no properties. */
  lemma EmptyKeySet(d: Fields)
    ensures KeySet(d) == {} <==> d == []
  {
    if d != [] {
      assert d[0].key in KeySet(d);
    }
  }

  /** An options object with a key that no option consumes fails, naming the
      first such key in insertion order. */
  lemma NormalizeRejectsUnknown(options: seq<OptionResource>, args: seq<JsValue>, parse: bool,
                                positional: PositionalNormalizer, matcher: Matcher, instantiate: Instantiator)
    requires positional(args, parse).Ok?
    requires OptionsArgument(positional(args, parse).value.remainingArguments).Ok?
    requires var given := OptionsArgument(positional(args, parse).value.remainingArguments).value;
      Resolve(options, given, parse, matcher, instantiate).Ok? &&
      Without(given, Consumed(options, given, parse, matcher, instantiate)) != []
    ensures var given := OptionsArgument(positional(args, parse).value.remainingArguments).value;
      var left := Without(given, Consumed(options, given, parse, matcher, instantiate));
      && Normalize(options, args, parse, positional, matcher, instantiate) == Err(InvalidCommandOption(left[0].key))
      && left[0].key in KeySet(given)
      && left[0].key !in Consumed(options, given, parse, matcher, instantiate)
  {
    var given := OptionsArgument(positional(args, parse).value.remainingArguments).value;
    ResolveRemaining(options, given, parse, matcher, instantiate);
    var left := Without(given, Consumed(options, given, parse, matcher, instantiate));
    assert left[0].key in KeySet(left);
  }

  // ---------------------------------------------------------------------------
  // `$serialize`

  /** The entries of the serialised option block: each option whose
      serialisation is not `undefined`, under its declared name. */
  function SerializedOptions(options: seq<OptionResource>, serialize: OptionSerializer): Fields
    decreases |options|
  {
    if options == [] then []
    else
      var prev := SerializedOptions(options[..|options| - 1], serialize);
      var o := options[|options| - 1];
      if serialize(o).Undefined? then prev else Put(prev, o.name, serialize(o))
  }

  /** How many options serialise to something other than `undefined`. */
  function SerializableCount(options: seq<OptionResource>, serialize: OptionSerializer): nat
    decreases |options|
  {
    if options == [] then 0
    else SerializableCount(options[..|options| - 1], serialize) + (if serialize(options[|options| - 1]).Undefined? then 0 else 1)
  }

  /** The names of the options that serialise to something other than `undefined`. */
  function SerializableNames(options: seq<OptionResource>, serialize: OptionSerializer): set<string> {
    set i | 0 <= i < |options| && !serialize(options[i]).Undefined? :: options[i].name
  }

  /** The serialisable names of a sequence of options are those of its prefix
      plus the name of its last option when that one is serialisable. */
  lemma SerializableNamesStep(options: seq<OptionResource>, serialize: OptionSerializer)
    requires options != []
    ensures var o := options[|options| - 1];
      SerializableNames(options, serialize) ==
        SerializableNames(options[..|options| - 1], serialize) + (if serialize(o).Undefined? then {} else {o.name})
  {
    var init := options[..|options| - 1];
    var o := options[|options| - 1];
    forall k | k in SerializableNames(options, serialize)
      ensures k in SerializableNames(init, serialize) + (if serialize(o).Undefined? then {} else {o.name})
    {
      var i :| 0 <= i < |options| && !serialize(options[i]).Undefined? && options[i].name == k;
      if i < |init| { assert init[i] == options[i]; }
    }
    forall k | k in SerializableNames(init, serialize) ensures k in SerializableNames(options, serialize) {
      var i :| 0 <= i < |init| && !serialize(init[i]).Undefined? && init[i].name == k;
      assert options[i] == init[i];
    }
  }

  /** Options that serialise to `undefined` never appear in the block: its keys
      are exactly the names of the serialisable options, each once, and no
      value is `undefined`. */
  lemma {:induction false} SerializedOptionsKeys(options: seq<OptionResource>, serialize: OptionSerializer)
    ensures KeySet(SerializedOptions(options, serialize)) == SerializableNames(options, serialize)
    ensures Defined(SerializedOptions(options, serialize))
    ensures DistinctKeys(SerializedOptions(options, serialize))
    decreases |options|
  {
    if options != [] {
      SerializedOptionsKeys(options[..|options| - 1], serialize);
      SerializableNamesStep(options, serialize);
    }
  }

  /** The block is empty exactly when no option was counted, and has at most
      one entry per counted option. */
  lemma {:induction false} SerializedOptionsCount(options: seq<OptionResource>, serialize: OptionSerializer)
    ensures SerializedOptions(options, serialize) == [] <==> SerializableCount(options, serialize) == 0
    ensures |SerializedOptions(options, serialize)| <= SerializableCount(options, serialize)
    decreases |options|
  {
    if options != [] {
      SerializedOptionsCount(options[..|options| - 1], serialize);
    }
  }

  /** Option names are pairwise distinct. */
  predicate DistinctNames(options: seq<OptionResource>) {
    forall i, j :: 0 <= i < j < |options| ==> options[i].name != options[j].name
  }

  /** With distinct option names the count of `$serialize` is the number of
      entries of the block; with a repeated name it can exceed it. */
  lemma {:induction false} SerializedOptionsDistinct(options: seq<OptionResource>, serialize: OptionSerializer)
    requires DistinctNames(options)
    ensures |SerializedOptions(options, serialize)| == SerializableCount(options, serialize)
    decreases |options|
  {
    if options != [] {
      var init := options[..|options| - 1];
      var o := options[|options| - 1];
      LastNameIsNew(options);
      SerializedOptionsDistinct(init, serialize);
      SerializedOptionsKeys(init, serialize);
      assert o.name !in SerializableNames(init, serialize);
    }
  }

  /** With distinct option names, the block holds under each option's name
      exactly that option's serialisation, and nothing when it serialises to
      `undefined`. */
  lemma {:induction false} SerializedOptionsValue(options: seq<OptionResource>, serialize: OptionSerializer, i: nat)
    requires DistinctNames(options)
    requires i < |options|
    ensures Get(SerializedOptions(options, serialize), options[i].name)
              == (if serialize(options[i]).Undefined? then None else Some(serialize(options[i])))
    decreases |options|
  {
    var init := options[..|options| - 1];
    var o := options[|options| - 1];
    LastNameIsNew(options);
    if i == |options| - 1 {
      SerializedOptionsKeys(init, serialize);
      assert o.name !in SerializableNames(init, serialize);
    } else {
      assert init[i] == options[i];
      SerializedOptionsValue(init, serialize, i);
    }
  }

  /** What `$serialize` returns, given the method resource's own serialisation
      `parent` (`None` for `undefined`). */
  function SerializedDefinition(parent: Option<Fields>, options: seq<OptionResource>, serialize: OptionSerializer): JsValue {
    var base := if parent.Some? then parent.value else [];
    var count := SerializableCount(options, serialize);
    var block := Obj(SerializedOptions(options, serialize));
    var definition :=
      if count == 1 then Put(base, "$option", block)
      else if count > 1 then Put(base, "$options", block)
      else base;
    if definition == [] then Undefined else Obj(definition)
  }

  /** The option block is written under `$option` exactly when one option is
      serialisable, under `$options` exactly when more are, and not at all when
      none is; the rest of the definition is the parent's; an empty definition
      is `undefined`, never `{}`. */
  lemma SerializeOptionBlock(parent: Option<Fields>, options: seq<OptionResource>, serialize: OptionSerializer)
    ensures var r := SerializedDefinition(parent, options, serialize);
      var base := if parent.Some? then parent.value else [];
      var count := SerializableCount(options, serialize);
      var block := Obj(SerializedOptions(options, serialize));
      && r != Obj([])
      && (count == 0 ==> r == (if base == [] then Undefined else Obj(base)))
      && (count == 1 ==> r.Obj? && Get(r.fields, "$option") == Some(block) && Get(r.fields, "$options") == Get(base, "$options"))
      && (count > 1 ==> r.Obj? && Get(r.fields, "$options") == Some(block) && Get(r.fields, "$option") == Get(base, "$option"))
      && (r.Obj? ==> forall k :: k != "$option" && k != "$options" ==> Get(r.fields, k) == Get(base, k))
  {
    var base := if parent.Some? then parent.value else [];
    var count := SerializableCount(options, serialize);
    if count > 0 {
      var block := Obj(SerializedOptions(options, serialize));
      var k := if count == 1 then "$option" else "$options";
      var d := Put(base, k, block);
      assert k in KeySet(d);
      EmptyKeySet(d);
    }
  }

  // ---------------------------------------------------------------------------
  // `$invoke`

  /** The argument list `$invoke` applies the underlying function to: the
      positional arguments followed by the options object. */
  function InvokeArguments(e: Expression): (args: seq<JsValue>)
    ensures |args| == |e.arguments| + 1
    ensures args[..|e.arguments|] == e.arguments && args[|e.arguments|] == e.options
  {
    e.arguments + [e.options]
  }

  /** The shape normalisation produces and the shape `$invoke` assembles agree:
      a successfully normalised argument list ends in a plain options object,
      and splitting it into its positional arguments and that object and
      assembling them again gives back the same list. */
  lemma InvokeAfterNormalize(options: seq<OptionResource>, args: seq<JsValue>, parse: bool,
                             positional: PositionalNormalizer, matcher: Matcher, instantiate: Instantiator)
    requires Normalize(options, args, parse, positional, matcher, instantiate).Ok?
    ensures var n := Normalize(options, args, parse, positional, matcher, instantiate).value.normalizedArguments;
      |n| > 0 && n[|n| - 1].Obj? &&
      InvokeArguments(Expression(n[..|n| - 1], n[|n| - 1])) == n
  {
    var n := Normalize(options, args, parse, positional, matcher, instantiate).value.normalizedArguments;
    assert n[..|n| - 1] + [n[|n| - 1]] == n;
  }

  // ---------------------------------------------------------------------------
  // The command resource

  /** Leading arguments before the first plain object. */
  predicate NoPlainObject(s: seq<JsValue>) {
    forall i :: 0 <= i < |s| ==> !s[i].Obj?
  }

  /** A division of the arguments into the positional arguments in front and
      the rest, which is empty or starts with a plain object, is unique: it is
      the longest prefix without a plain object. */
  lemma ShiftSplitIsUnique(p1: seq<JsValue>, q1: seq<JsValue>, p2: seq<JsValue>, q2: seq<JsValue>)
    requires p1 + q1 == p2 + q2
    requires NoPlainObject(p1) && (q1 == [] || q1[0].Obj?)
    requires NoPlainObject(p2) && (q2 == [] || q2[0].Obj?)
    ensures p1 == p2 && q1 == q2
  {
    var s := p1 + q1;
    assert |p1| < |s| ==> s[|p1|].Obj?;
    assert |p2| < |s| ==> s[|p2|] == q2[0];
    assert forall k :: 0 <= k < |p1| ==> s[k] == p1[k];
    assert forall k :: 0 <= k < |p2| ==> s[k] == p2[k];
    assert |p1| == |p2|;
    assert p1 == s[..|p1|] && p2 == s[..|p2|];
    assert q1 == s[|p1|..] && q2 == s[|p2|..];
  }

  class CommandResource {
    /** The declared options, in declaration order (`_options`; the source's
        `undefined` is the empty sequence, which the setter never produces). */
    var options: seq<OptionResource>

    constructor ()
      ensures options == []
    {
      options := [];
    }

    /** The `$options` setter: the options are reset and then created from the
        entries of `definition` in order; a creation that throws stops the loop
        and leaves the options created so far. */
    method SetOptions(definition: Option<Fields>, create: OptionFactory) returns (failure: Option<Error>)
      modifies this
      ensures definition.None? ==> options == [] && failure.None?
      ensures definition.Some? ==> OptionsBuild(options, failure) == BuildOptions(definition.value, create)
    {
      options := [];
      failure := None;
      if definition.None? {
        return;
      }
      var entries := definition.value;
      var i := 0;
      while i < |entries|
        invariant 0 <= i <= |entries|
        invariant BuildOptions(entries[..i], create) == OptionsBuild(options, None)
      {
        assert entries[..i + 1][..i] == entries[..i];
        var created := create(entries[i].key, entries[i].value);
        if created.Err? {
          failure := Some(created.error);
          BuildStops(entries, i + 1, create);
          return;
        }
        options := options + [created.value];
        i := i + 1;
      }
      assert entries[..i] == entries;
    }

    /** `_normalizeArguments`: the positional parameters first, then the single
        options argument against the declared options. */
    method NormalizeArguments(args: seq<JsValue>, parse: bool, positional: PositionalNormalizer,
                              matcher: Matcher, instantiate: Instantiator) returns (r: Result<Normalized>)
      ensures r == Normalize(options, args, parse, positional, matcher, instantiate)
    {
      var p :- positional(args, parse);
      var remainingArguments := new ArgumentList(p.remainingArguments);
      var optionsArgument := remainingArguments.Shift();
      var given: Fields;
      if optionsArgument.Undefined? {
        given := [];
      } else if !optionsArgument.Obj? {
        return Err(InvalidArgumentType);
      } else {
        given := optionsArgument.fields;
      }
      var remainingOptions := given;
      var normalizedOptions: Fields := [];
      var i := 0;
      while i < |options|
        invariant 0 <= i <= |options|
        invariant Resolve(options[..i], given, parse, matcher, instantiate) == Ok(Resolution(remainingOptions, normalizedOptions))
      {
        assert options[..i + 1][..i] == options[..i];
        var option := options[i];
        var m := matcher(option, remainingOptions);
        if m.Some? {
          remainingOptions := Delete(remainingOptions, m.value.key);
        }
        var value := if m.Some? then m.value.value else Undefined;
        var normalizedValue := instantiate(option, value, parse);
        if normalizedValue.Err? {
          ResolveErrorAborts(options, i + 1, given, parse, matcher, instantiate);
          return Err(normalizedValue.error);
        }
        if !normalizedValue.value.Undefined? {
          normalizedOptions := Put(normalizedOptions, option.name, normalizedValue.value);
        }
        i := i + 1;
      }
      assert options[..i] == options;
      if remainingOptions != [] {
        return Err(InvalidCommandOption(remainingOptions[0].key));
      }
      r := Ok(Normalized(p.normalizedArguments + [Obj(normalizedOptions)], remainingArguments.items));
    }

    /** `_shiftLastArguments`: removes from `args` the arguments in front of the
        first plain object and returns them, in order. */
    method ShiftLastArguments(args: ArgumentList) returns (lastArguments: seq<JsValue>)
      modifies args
      ensures old(args.items) == lastArguments + args.items
      ensures NoPlainObject(lastArguments)
      ensures args.items == [] || args.items[0].Obj?
    {
      lastArguments := [];
      while args.items != []
        invariant old(args.items) == lastArguments + args.items
        invariant NoPlainObject(lastArguments)
        decreases |args.items|
      {
        if args.items[0].Obj? {
          break;
        }
        var first := args.Shift();
        lastArguments := lastArguments + [first];
      }
    }

    /** `$serialize`, given the method resource's own serialisation `parent`. */
    method Serialize(parent: Option<Fields>, serialize: OptionSerializer) returns (r: JsValue)
      ensures r == SerializedDefinition(parent, options, serialize)
    {
      var definition := if parent.Some? then parent.value else [];
      var serializedOptions: Fields := [];
      var count := 0;
      var i := 0;
      while i < |options|
        invariant 0 <= i <= |options|
        invariant serializedOptions == SerializedOptions(options[..i], serialize)
        invariant count == SerializableCount(options[..i], serialize)
      {
        assert options[..i + 1][..i] == options[..i];
        var serializedOption := serialize(options[i]);
        if !serializedOption.Undefined? {
          serializedOptions := Put(serializedOptions, options[i].name, serializedOption);
          count := count + 1;
        }
        i := i + 1;
      }
      assert options[..i] == options;
      if count == 1 {
        definition := Put(definition, "$option", Obj(serializedOptions));
      } else if count > 1 {
        definition := Put(definition, "$options", Obj(serializedOptions));
      }
      r := if definition == [] then Undefined else Obj(definition);
    }
  }

  /** A creation that throws at entry `i - 1` fixes the outcome of the setter. */
  lemma {:induction false} BuildStops(entries: Fields, i: nat, create: OptionFactory)
    requires 0 < i <= |entries|
    requires BuildOptions(entries[..i], create).failure.Some?
    ensures BuildOptions(entries, create) == BuildOptions(entries[..i], create)
    decreases |entries| - i
  {
    if i < |entries| {
      assert entries[..i + 1][..i] == entries[..i];
      BuildStops(entries, i + 1, create);
    } else {
      assert entries[..i] == entries;
    }
  }
}
