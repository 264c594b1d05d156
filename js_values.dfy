/** JavaScript values as the resource core sees them, and the operations on
    plain objects that the core performs: property lookup, assignment
    (`o[k] = v`), deletion (`delete o[k]`) and own-key enumeration in
    insertion order. */
module JsValues {
  import opened Results

  /** A JavaScript value. `Obj` is a plain object (prototype `Object.prototype`);
      `Instance` stands for every other object (class instances, functions, dates),
      which `isPlainObject` rejects. Numbers are modelled as integers. */
  datatype JsValue =
    | Undefined
    | Null
    | Bool(b: bool)
    | Num(n: int)
    | Str(s: string)
    | Arr(items: seq<JsValue>)
    | Obj(fields: Fields)
    | Instance(className: string)

  /** One own property of a plain object. */
  datatype Field = Field(key: string, value: JsValue)

  /** The own properties of a plain object, in insertion order. */
  type Fields = seq<Field>

  /** JavaScript truthiness: `undefined`, `null`, `false`, `0` and `""` are falsy. */
  predicate Truthy(v: JsValue) {
    match v
    case Undefined => false
    case Null => false
    case Bool(b) => b
    case Num(n) => n != 0
    case Str(s) => s != ""
    case _ => true
  }

  /** The set of own keys of an object. */
  function KeySet(d: Fields): set<string> {
    if d == [] then {} else {d[0].key} + KeySet(d[1..])
  }

  /** A well-formed object has each key at most once. */
  predicate DistinctKeys(d: Fields) {
    d == [] || (d[0].key !in KeySet(d[1..]) && DistinctKeys(d[1..]))
  }

  /** No own property holds `undefined`. */
  predicate Defined(d: Fields) {
    forall f :: f in d ==> !f.value.Undefined?
  }

  /** Property lookup `o[k]`, `None` for a missing key. */
  function Get(d: Fields, k: string): (r: Option<JsValue>)
    ensures r.Some? <==> k in KeySet(d)
    ensures r.Some? ==> Field(k, r.value) in d
  {
    if d == [] then None
    else if d[0].key == k then Some(d[0].value)
    else Get(d[1..], k)
  }

  /** The object with every property whose key is in `ks` removed; the other
      properties keep their order. */
  function Without(d: Fields, ks: set<string>): (r: Fields)
    ensures KeySet(r) == KeySet(d) - ks
    ensures |r| <= |d|
    ensures forall f :: f in r ==> f in d
    ensures DistinctKeys(d) ==> DistinctKeys(r)
    ensures forall k :: k !in ks ==> Get(r, k) == Get(d, k)
  {
    if d == [] then []
    else if d[0].key in ks then Without(d[1..], ks)
    else [d[0]] + Without(d[1..], ks)
  }

  /** `delete o[k]`. */
  function Delete(d: Fields, k: string): Fields {
    Without(d, {k})
  }

  /** Assignment `o[k] = v`: an existing key keeps its position and takes the
      new value, a new key is appended. */
  function Put(d: Fields, k: string, v: JsValue): (r: Fields)
    ensures KeySet(r) == KeySet(d) + {k}
    ensures Get(r, k) == Some(v)
    ensures forall k' :: k' != k ==> Get(r, k') == Get(d, k')
    ensures forall f :: f in r ==> f in d || f == Field(k, v)
    ensures DistinctKeys(d) ==> DistinctKeys(r)
    ensures k in KeySet(d) ==> |r| == |d|
    ensures k !in KeySet(d) ==> r == d + [Field(k, v)]
  {
    if d == [] then [Field(k, v)]
    else if d[0].key == k then [Field(k, v)] + d[1..]
    else [d[0]] + Put(d[1..], k, v)
  }

  /** The position of the first property with key `k`. */
  function IndexOf(d: Fields, k: string): (i: nat)
    requires k in KeySet(d)
    ensures i < |d| && d[i].key == k
    ensures forall j :: 0 <= j < i ==> d[j].key != k
  {
    if d[0].key == k then 0 else 1 + IndexOf(d[1..], k)
  }

  /** Assigning to an existing key replaces that property where it stands: the
      object is the old one with only the position of `k` changed. */
  lemma {:induction false} PutInPlace(d: Fields, k: string, v: JsValue)
    requires k in KeySet(d)
    ensures Put(d, k, v) == d[IndexOf(d, k) := Field(k, v)]
  {
    if d[0].key == k {
      assert [Field(k, v)] + d[1..] == d[0 := Field(k, v)];
    } else {
      PutInPlace(d[1..], k, v);
      ConsUpdate(d, IndexOf(d[1..], k), Field(k, v));
    }
  }

  /** Updating the tail of a sequence at `i` is updating the sequence at `i + 1`. */
  lemma ConsUpdate(d: Fields, i: nat, f: Field)
    requires i + 1 < |d|
    ensures [d[0]] + d[1..][i := f] == d[i + 1 := f]
  {
  }

  /** Removing keys in two rounds is removing their union at once. */
  lemma {:induction false} WithoutWithout(d: Fields, a: set<string>, b: set<string>)
    ensures Without(Without(d, a), b) == Without(d, a + b)
  {
    if d != [] {
      WithoutWithout(d[1..], a, b);
    }
  }

  /** Removing no key leaves the object as it is. */
  lemma {:induction false} WithoutNothing(d: Fields)
    ensures Without(d, {}) == d
  {
    if d != [] {
      WithoutNothing(d[1..]);
    }
  }

  /** In a well-formed object `delete o[k]` removes exactly one property when
      `k` is an own key and none otherwise. */
  lemma {:induction false} DeleteRemovesOne(d: Fields, k: string)
    requires DistinctKeys(d)
    ensures k in KeySet(d) ==> |Delete(d, k)| == |d| - 1
    ensures k !in KeySet(d) ==> Delete(d, k) == d
  {
    if d != [] {
      DeleteRemovesOne(d[1..], k);
    }
  }
}
