/** Command-line groups: an entity that is also executable. A group is built
    as an entity first and then extended with the fields of an executable
    facet created with the same context. */
module Groups {
  import opened Results
  import opened JsValues

  /** The group's name: `definition.name` when truthy, otherwise `defaultName`. */
  function GroupName(definition: Fields, defaultName: JsValue): (name: JsValue)
    ensures Get(definition, "name").Some? && Truthy(Get(definition, "name").value) ==> name == Get(definition, "name").value
    ensures !(Get(definition, "name").Some? && Truthy(Get(definition, "name").value)) ==> name == defaultName
  {
    var own := Get(definition, "name");
    if own.Some? && Truthy(own.value) then own.value else defaultName
  }

  /** `extendContext(base, {name})`, that is `{...base, group: name}`. */
  function ExtendContext(base: Fields, name: JsValue): (r: Fields)
    ensures Get(r, "group") == Some(name)
    ensures forall k :: k != "group" ==> Get(r, k) == Get(base, k)
    ensures KeySet(r) == KeySet(base) + {"group"}
    ensures DistinctKeys(base) ==> DistinctKeys(r)
  {
    Put(base, "group", name)
  }

  /** Extending a context keeps every other key in its place and in its order. */
  lemma ExtendContextKeepsOthers(base: Fields, name: JsValue)
    ensures Without(ExtendContext(base, name), {"group"}) == Without(base, {"group"})
  {
    PutOtherKeys(base, "group", name);
  }

  /** Assigning `k` leaves the object without `k` as it was. */
  lemma {:induction false} PutOtherKeys(d: Fields, k: string, v: JsValue)
    ensures Without(Put(d, k, v), {k}) == Without(d, {k})
  {
    if d != [] && d[0].key != k {
      PutOtherKeys(d[1..], k, v);
    }
  }

  /** `Object.assign(target, source)`: each own property of `source`, in order,
      assigned onto `target`. */
  function AssignAll(target: Fields, source: Fields): (r: Fields)
    ensures KeySet(r) == KeySet(target) + KeySet(source)
    ensures forall k :: k !in KeySet(source) ==> Get(r, k) == Get(target, k)
    ensures DistinctKeys(source) ==> forall k :: k in KeySet(source) ==> Get(r, k) == Get(source, k)
    ensures DistinctKeys(target) ==> DistinctKeys(r)
    decreases |source|
  {
    if source == [] then target
    else AssignAll(Put(target, source[0].key, source[0].value), source[1..])
  }

  /** A group object: its own properties, which `Object.assign` updates in place. */
  class Group {
    var properties: Fields

    constructor (properties: Fields)
      ensures this.properties == properties
    {
      this.properties := properties;
    }

    /** `Object.assign(this, source)`. */
    method Assign(source: Fields)
      modifies this
      ensures properties == AssignAll(old(properties), source)
    {
      var i := 0;
      while i < |source|
        invariant 0 <= i <= |source|
        invariant AssignAll(properties, source[i..]) == AssignAll(old(properties), source)
      {
        assert source[i..][1..] == source[i + 1..];
        properties := Put(properties, source[i].key, source[i].value);
        i := i + 1;
      }
    }

    /** `Group.create`. `createEntity` stands for `Entity.create` (the entity's
        own properties) and `createExecutable` for `Executable.create`, which
        receives the group object just built together with its properties at
        that moment, so that the facet can depend on the entity it extends;
        neither is part of this model. Both receive the same extended context;
        a failure of either aborts and no group is returned. `built` is the
        group object, when the entity was built. */
    static method Create(definition: Fields, parent: JsValue, defaultName: JsValue, context: Fields,
                         createEntity: (Fields, JsValue, JsValue, Fields) -> Result<Fields>,
                         createExecutable: (Fields, Group, Fields, Fields) -> Result<Fields>)
      returns (r: Result<Group>, ghost built: Group?)
      ensures var ctx := ExtendContext(context, GroupName(definition, defaultName));
        createEntity(definition, parent, defaultName, ctx).Err? ==>
          r == Err(createEntity(definition, parent, defaultName, ctx).error)
      ensures var ctx := ExtendContext(context, GroupName(definition, defaultName));
        createEntity(definition, parent, defaultName, ctx).Ok? ==>
          var entity := createEntity(definition, parent, defaultName, ctx).value;
          && built != null && fresh(built)
          && var executable := createExecutable(definition, built, entity, ctx);
             && (executable.Err? ==> r == Err(executable.error))
             && (executable.Ok? ==>
                   && r == Ok(built)
                   && built.properties == AssignAll(entity, executable.value))
    {
      built := null;
      var name := GroupName(definition, defaultName);
      var ctx := ExtendContext(context, name);
      var entity := createEntity(definition, parent, defaultName, ctx);
      if entity.Err? {
        return Err(entity.error), built;
      }
      var group := new Group(entity.value);
      built := group;
      var executable := createExecutable(definition, group, group.properties, ctx);
      if executable.Err? {
        return Err(executable.error), built;
      }
      group.Assign(executable.value);
      r := Ok(group);
    }
  }
}
