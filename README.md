# Resource core: command options, array values, aliases and groups

This project models, in Dafny, the normalise/validate/serialise layer of a
declarative resource-definition engine:

- **Command resources** (`command.dfy`, module `Command`). A command is a method
  resource with named options. The `$options` setter creates the declared options
  in entry order. `_normalizeArguments` first normalises the positional arguments.
  It then takes the single trailing options argument: an absent one stands for
  `{}`, and anything other than a plain object is rejected. It copies that object
  and resolves the declared options against the copy, in declaration order. Each
  option deletes the one key it matched. A key that is left over is reported as
  an unknown option, and otherwise the normalised options object is appended to
  the positional arguments. `_shiftLastArguments` splits off the arguments in
  front of the first plain object. `$invoke` assembles the argument list.
  `$serialize` writes the option block under `$option` (one option) or
  `$options` (several) and turns an empty definition into `undefined`.
- **Array values** (`array_value.dfy`, module `ArrayValue`): `$normalizeValue`
  (type check and deep copy), `$normalize` (wrapping of a bare array
  definition), `$parseValue` and `@countItems`.
- **Aliases** (`aliases.dfy`, module `Aliases`): `Alias.create`,
  `Alias.createMany` and `toString`.
- **Groups** (`groups.dfy`, module `Groups`): the choice of the group name,
  `extendContext`, and `Group.create`. That method builds the entity, then the
  executable facet with the same context, and merges the facet's fields onto the
  group with `Object.assign`.

Shared modules: `results.dfy` (`Results`: `Option`, `Result` and the error
kinds, each carrying the offending key where the source names one) and
`js_values.dfy` (`JsValues`: JavaScript values, plus plain objects as ordered
property lists with lookup, assignment `o[k] = v`, which replaces in place or
appends, and `delete o[k]`).

Stateful code is imperative Dafny. `CommandResource` is a class whose `options`
field the `$options` setter reassigns. Its `NormalizeArguments` and `Serialize`
are loops proved against the specification functions `Normalize`/`Resolve` and
`SerializedDefinition`. `ArgumentList` is the argument array that `shift()`
mutates. `Group` is the object that `Object.assign` updates in place. The array
and alias rules are pure functions.

The collaborators the source calls but does not define are passed in as
heap-free function parameters. Each is therefore deterministic in its
arguments, sees only the values it is given, and returns a result of the shape
its type fixes; nothing else about it is assumed. They are:
- `option.$match`, `option.$instantiate(...).$unwrap()` and `option.$serialize`;
- the method resource's own `_normalizeArguments`;
- `Resource.$create`, `ValueResource.$normalize`, `Entity.create` and
  `Executable.create`.

The method resource's own `$serialize` is not a parameter: `Serialize` is given
its result, `undefined` or a plain object.

Because Dafny values are immutable, the caller's options object and array
arguments cannot be changed by the model, which is what the source achieves
with its copy (`{...optionsArgument}`) and with `cloneDeep`/`deepFreeze`.

Two behaviours of the code are worth stating plainly, and the model keeps them:
- `extendContext` replaces the context's `group` key and keeps no chain of
  scope names, so a nested group's context names only the innermost group.
- `Alias.createMany` rejects a non-string, non-array input with its own message
  ("'aliases' property should be a string or an array", here
  `AliasesNotStringOrArray`). It is not a generic invalid-value-type error.

## Model

| member | source | states |
|---|---|---|
| `JsValues.Put` | core/src/primitives/command.js:54 | assignment `o[k] = v`: `k` then maps to `v`, every other key keeps its value, a new key is appended (the position of an existing key is stated by `JsValues.PutInPlace`), well-formedness is kept |
| `JsValues.PutInPlace` | core/src/primitives/command.js:54 | assignment to an existing key replaces that property where it stands: the result is the old object with only the position of the key's first occurrence changed (so `$option`/`$options` and `group` keep the place they had in the parent definition or base context) |
| `JsValues.DeleteRemovesOne` | core/src/primitives/command.js:50 | in a well-formed object `delete o[k]` removes exactly one property when `k` is present and none otherwise |
| `Command.ArgumentList.Shift` | core/src/primitives/command.js:36 | `shift()` returns the first argument and removes it, or returns `undefined` on an empty list and leaves it empty |
| `Command.BuildOptionsInOrder` | core/src/primitives/command.js:19-29 | without a failure one option is created per entry, in entry order; with a failure, the options created are exactly those of the entries before the first entry whose creation threw |
| `Command.CommandResource.SetOptions` | core/src/primitives/command.js:19-29 | the setter resets the options, leaves none for an absent definition, and otherwise leaves the options and failure given by `BuildOptions` |
| `Command.StepRemovesAtMostOne` | core/src/primitives/command.js:47-51 | one declared option removes at most one key from the remaining options, and only the key it matched |
| `Command.ResolveRemaining` | core/src/primitives/command.js:45-51 | after all options are processed, the remaining options are the given options minus the consumed keys, in their original order |
| `Command.NormalizedKeysAreNames` | core/src/primitives/command.js:52-55 | the normalised options are keyed only by declared option names (never by alias keys), hold no `undefined` and have each name once |
| `Command.ResolveValue` | core/src/primitives/command.js:47-56 | with distinct option names, the normalised object holds under each option's name exactly the value that option instantiated to, from the matched value in what was left of the given options at its turn (or `undefined` when nothing matched); an `undefined` value leaves no entry |
| `Command.StepRecordsName` | core/src/primitives/command.js:52-55 | an option whose instantiated value is not `undefined` is recorded under its own name; an `undefined` value records nothing |
| `Command.ResolveKeepsNames` | core/src/primitives/command.js:47-56 | options are processed in declaration order and a later option never drops a name recorded by an earlier one |
| `Command.ResolveErrorAborts` | core/src/primitives/command.js:52 | an option whose instantiation throws aborts the whole resolution with that error |
| `Command.OptionsArgument` | core/src/primitives/command.js:36-43 | an absent or `undefined` options argument is `{}`, a plain object is used as it is, any other value fails with `InvalidArgumentType` |
| `Command.NormalizeSucceeds` | core/src/primitives/command.js:31-66 | normalisation succeeds exactly when the positional arguments normalise, the options argument is valid, every option instantiates and every given key is consumed; the result is then the positional arguments with exactly one extra final element, the normalised options object, and the remaining arguments are the positional remainder without the options argument |
| `Command.NormalizeRejectsUnknown` | core/src/primitives/command.js:58-61 | a given key that no option consumed makes normalisation fail with `InvalidCommandOption` naming the first such key in insertion order |
| `Command.CommandResource.NormalizeArguments` | core/src/primitives/command.js:31-66 | the loop over the declared options computes exactly `Normalize`: positional normalisation, the options argument, option resolution in declaration order, the unknown-key check and the appended options object |
| `Command.ShiftSplitIsUnique` | core/src/primitives/command.js:68-76 | a split of the arguments into a prefix without a plain object and a rest that is empty or starts with one is unique, so it is the longest such prefix |
| `Command.CommandResource.ShiftLastArguments` | core/src/primitives/command.js:68-76 | the returned arguments followed by what is left in `args` are the old `args`; the returned ones hold no plain object and what is left is empty or starts with a plain object |
| `Command.InvokeArguments` | core/src/primitives/command.js:80 | the argument list of the underlying function is the positional arguments, in order, followed by the options object |
| `Command.InvokeAfterNormalize` | core/src/primitives/command.js:63-82 | a consistency check between two shapes, not a call path of the source: the argument list a successful normalisation produces ends in a plain options object, and splitting it into positional arguments and that object and assembling them as `$invoke` does gives back the same list |
| `Command.SerializedOptionsKeys` | core/src/primitives/command.js:95-101 | options that serialise to `undefined` never appear in the option block; its keys are exactly the names of the serialisable options, each once |
| `Command.SerializedOptionsCount` | core/src/primitives/command.js:94-101 | the option block is empty exactly when the count is 0, and has at most one entry per counted option |
| `Command.SerializedOptionsValue` | core/src/primitives/command.js:94-101 | with distinct option names, the option block holds under each option's name exactly that option's serialisation, and no entry when it serialises to `undefined` |
| `Command.SerializedOptionsDistinct` | core/src/primitives/command.js:94-101 | with distinct option names the count equals the number of entries in the option block |
| `Command.SerializeOptionBlock` | core/src/primitives/command.js:84-113 | `$option` is written exactly when one option is serialisable, `$options` exactly when more are, neither when none is; the other keys are the parent's; an empty definition becomes `undefined` |
| `Command.CommandResource.Serialize` | core/src/primitives/command.js:84-114 | the loop over the options computes exactly `SerializedDefinition` of the parent's serialisation and the declared options |
| `ArrayValue.NormalizeValue` | core/src/resource/array.js:17-24 | a non-array fails with `InvalidValueType`; an array is accepted and the stored value equals it element by element |
| `ArrayValue.NormalizeValueIdempotent` | core/src/resource/array.js:17-24 | normalising a stored value again returns it unchanged |
| `ArrayValue.NormalizeThenOverwrite` | core/src/resource/array.js:21-23 | an illustration of the value semantics that stand for the deep copy, not an operation of the resource: overwriting an element of the caller's array after normalisation leaves the stored value as the array was, and changes the caller's array only at that element |
| `ArrayValue.WrapDefinition` | core/src/resource/array.js:26-29 | a bare array definition `d` becomes `{'@value': d}`, any other definition is unchanged, and the result is never a bare array |
| `ArrayValue.Normalize` | core/src/resource/array.js:26-31 | the value resource's normalisation receives the wrapped definition for an array and the definition itself otherwise |
| `ArrayValue.WrapDefinitionStable` | core/src/resource/array.js:27-29 | wrapping twice is wrapping once; the wrapped array is found under `@value` |
| `ArrayValue.ParseValue` | core/src/resource/array.js:33-35 | an empty or absent string parses to `[]`, any other string `s` to `[s]`, so the result has at most one item |
| `ArrayValue.ParsedValueNormalizes` | core/src/resource/array.js:33-35 | a parsed value passes `$normalizeValue` unchanged |
| `ArrayValue.CountItems` | core/src/resource/array.js:37-41 | `@countItems` returns `{result: n}` with `n` the length of the stored value, 0 when absent |
| `ArrayValue.CountItemsOfStored` | core/src/resource/array.js:37-41 | the count of a normalised array is its input length; the count of a parsed string is 1 for a non-empty string and 0 otherwise |
| `Aliases.Create` | cli/src/alias.js:6-16 | a falsy input (including `""`) fails with `MissingAlias`, a truthy non-string with `AliasNotString`; otherwise the alias holds the input |
| `Aliases.ToString` | cli/src/alias.js:30-32 | the printed value is the one the alias stores: rebuilding an alias from it gives the same alias (for created aliases see `Aliases.ToStringRoundTrip`) |
| `Aliases.ToStringRoundTrip` | cli/src/alias.js:30-32 | `toString()` of a created alias is exactly the string it was created from |
| `Aliases.CreateEach` | cli/src/alias.js:23-25 | mapping `create` succeeds exactly when every element is accepted, then yields one alias per element in order; on failure the error is that of the first rejected element |
| `Aliases.CreateMany` | cli/src/alias.js:18-28 | `undefined` gives `[]`; an array is mapped element by element by `create` (see `Aliases.CreateEach`); any input that is neither a string nor an array fails with `AliasesNotStringOrArray`; every alias produced holds a non-empty string |
| `Aliases.CreateManyShapes` | cli/src/alias.js:18-28 | no argument gives `[]`; a string `s` is the same as `[s]`; any input that is neither a string nor an array fails with `AliasesNotStringOrArray` |
| `Aliases.CreateManyArray` | cli/src/alias.js:23-25 | an array succeeds exactly when every element is a non-empty string and then yields one alias per element, in order, with the element as its value |
| `Groups.GroupName` | cli/src/group.js:6 | the group's name is `definition.name` when truthy, otherwise `defaultName` |
| `Groups.ExtendContext` | cli/src/group.js:18-20 | `group` is set to the name and every other key of the base context keeps its value |
| `Groups.ExtendContextKeepsOthers` | cli/src/group.js:18-20 | apart from `group`, the extended context has the base's properties in the same order |
| `Groups.AssignAll` | cli/src/group.js:13 | after `Object.assign`, each key of the source has the source's value, overwriting any same-named field, and every other key of the target is unchanged |
| `Groups.Group.Assign` | cli/src/group.js:13 | the in-place loop over the source's properties leaves the group's properties equal to `AssignAll` of the old ones and the source |
| `Groups.Group.Create` | cli/src/group.js:5-16 | the entity and the executable receive the same extended context; the executable is created for the fresh group built from the entity and is given the entity's properties; the result is that group with the executable's fields assigned over the entity's; either failure aborts with that failure's error |

## Left out

- `packages/module/src/lib/api-gateway-handler.js`, `packages/module/src/lib/client-builder.js`, `packages/cli/src/lib/initializer.js` and `packages/easy-lambda/src/bin/deploy.js` are not part of this model. They are deployment, code-generation and package-manager I/O.
- The collaborators `option.$match`, `option.$instantiate`/`$unwrap`, `option.$serialize`, `MethodResource._normalizeArguments`, `Resource.$create`, `ValueResource.$normalize`, `Entity.create` and `Executable.create` are not defined in the modelled files. They are heap-free function parameters: each is deterministic in its arguments, cannot read the heap and returns a result of the shape its type fixes. Nothing else is assumed, so properties that depend on their internals are not stated. Examples are alias precedence inside `$match` and the uniqueness of option names.
- `Command.InvokeArguments`: `$invoke` also resolves the underlying function with `$getFunction({parseArguments: true})` and awaits it applied to the owner. Neither `$getFunction` nor that call is modelled, and nothing is assumed about them; only the argument assembly is.
- The constructor's `setProperty(this, definition, '$options', ['$option'])`, `addContextToErrors` and `formatCode` are runtime metaprogramming and message formatting. The setter is modelled as `SetOptions`, taking the selected options definition. Errors are tagged values carrying the offending key.
- The `$options` getter (`_getProperty('_options')`) may look the options up beyond the resource itself. The model reads the command's own `options` field.
- `_options === undefined` is represented as the empty sequence. The setter never leaves an empty array, so every use behaves the same.
- `Command.CommandResource.SetOptions`: it takes the options definition as the list of its entries. lodash `entries` on a non-object value (a string, a number) is not modelled.
- `Object.keys` lists integer-like keys first, in ascending order. Here plain objects keep pure insertion order, so "first remaining key" is the first in insertion order.
- Numbers are integers. `NaN` is therefore not among the falsy values, and floating point is not modelled.
- `async`/`await` is modelled as sequential code, and `deepFreeze`/`cloneDeep` as Dafny value semantics.
- `Executable.extend(Group)` is a prototype mixin and is not modelled.
- `ArrayValue.CountItems`: the stored value is taken to be absent or an array, the only values `$normalizeValue` stores. `.length` of other truthy values is not modelled.
- `Groups.ExtendContext`: the base context is taken to be a plain object, with an absent context passed as `{}`. Spreading a string or an array is not modelled.
- `Groups.Group.Create`: `Entity.create` is modelled as producing the entity's own properties, from which the group object is then allocated. The order "entity before executable" is expressed by the executable receiving that object. Being heap-free, `Executable.create` cannot read the group's fields through the reference, so it is also given the entity's properties as a value; it sees the entity through that value and the reference only, and it cannot change the group itself.
- `Command.CommandResource.Serialize`: the method resource's own `$serialize` is taken to return `undefined` or a plain object (`Option<Fields>`). Any other result is not modelled. It enters only through that result, the `parent` argument, and no function stands for it.
- `$RESOURCE_NATIVE_CHILDREN`, the declaration of `@countItems` as a method, is descriptive metadata and is not modelled. `ArrayValue.ResourceType` holds `$RESOURCE_TYPE`.
