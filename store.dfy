/**
 * Value-level vocabulary of the schema-driven property store: identifiers,
 * value kinds, property types, schemas, properties and their values, a
 * read-only snapshot of a model's schema registry, and the pure list
 * operations the properties container is specified with.
 */
module Store {

  /** Globally unique identifiers (System.Guid) are drawn from a counter. */
  type Guid = nat

  /** Identity of a delegate registered on one of the container's events. */
  type Handler = nat

  datatype Option<T> = None | Some(value: T)

  /** The exceptions the modelled code throws at its callers. */
  datatype Error = ArgumentNull | NullReference

  datatype Result<T> = Ok(value: T) | Err(error: Error)

  /** The value kinds of PropertyValueType used by the modelled code. */
  datatype ValueKind = SingleLineString | Decimal | JsonSerializableObject

  /** Scope a schema applies to; only the scope the facade uses is named. */
  datatype Scope = ThreatModelScope

  datatype PropertyType = PropertyType(
    id: Guid,
    name: string,
    schemaId: Guid,
    kind: ValueKind,
    visible: bool,
    description: string)

  datatype Schema = Schema(
    id: Guid,
    name: string,
    ns: string,
    appliesTo: Scope,
    autoApply: bool,
    priority: int,
    visible: bool,
    system: bool,
    types: seq<PropertyType>)

  /** One parameter of a residual risk estimator configuration. */
  datatype Parameter = Parameter(name: string, value: string)

  /**
   * What a JSON-serializable property can hold: a residual risk estimator
   * configuration, or an object of some other class.
   */
  datatype JsonObject = Configuration(parameters: seq<Parameter>) | OtherObject

  /** The payload of a property, one variant per value kind; None is C# null. */
  datatype Value =
    | Text(text: Option<string>)
    | Number(number: int)
    | Blob(obj: Option<JsonObject>)

  /** A property: a value bound by id to its property type. */
  datatype Property = Property(typeId: Guid, value: Value)

  predicate NoDuplicates<T(==)>(s: seq<T>) {
    forall i, j :: 0 <= i < j < |s| ==> s[i] != s[j]
  }

  /** How a property type is looked up: by its id, or by its name within a schema (IPropertySchema.GetPropertyType(name)). */
  datatype TypeKey = ById(id: Guid) | ByName(name: string)

  predicate Matches(t: PropertyType, key: TypeKey) {
    match key
    case ById(id) => t.id == id
    case ByName(name) => t.name == name
  }

  /** First property type in `ts` that the key selects. */
  function FirstType(ts: seq<PropertyType>, key: TypeKey): (r: Option<PropertyType>)
    ensures r.Some? ==> r.value in ts && Matches(r.value, key)
    ensures r.None? ==> forall j :: 0 <= j < |ts| ==> !Matches(ts[j], key)
  {
    if ts == [] then None
    else if Matches(ts[0], key) then Some(ts[0])
    else FirstType(ts[1..], key)
  }

  /**
   * A read-only view of the owning model: its schemas, and the value kinds
   * whose property class can be instantiated (the reflection lookup of the
   * associated property class succeeds for exactly these kinds).
   */
  datatype Registry = Registry(schemas: seq<Schema>, constructible: set<ValueKind>) {

    /** IThreatModel.GetSchema(id): the first schema with that id. */
    function SchemaById(id: Guid): (r: Option<Schema>)
      ensures r.Some? ==> r.value in schemas && r.value.id == id
      ensures r.None? ==> forall i :: 0 <= i < |schemas| ==> schemas[i].id != id
    {
      SchemaIn(schemas, id)
    }

    /** The property type with that id, in whichever schema defines it. */
    function TypeById(id: Guid): (r: Option<PropertyType>)
      ensures r.Some? ==> r.value.id == id
    {
      TypeIn(schemas, id)
    }

    /** The schema id of a property's type (`x.PropertyType?.SchemaId`). */
    function SchemaOfType(typeId: Guid): Option<Guid> {
      match TypeById(typeId)
      case None => None
      case Some(t) => Some(t.schemaId)
    }
  }

  function SchemaIn(ss: seq<Schema>, id: Guid): (r: Option<Schema>)
    ensures r.Some? ==> r.value in ss && r.value.id == id
    ensures r.None? ==> forall i :: 0 <= i < |ss| ==> ss[i].id != id
  {
    if ss == [] then None
    else if ss[0].id == id then Some(ss[0])
    else SchemaIn(ss[1..], id)
  }

  function TypeIn(ss: seq<Schema>, id: Guid): (r: Option<PropertyType>)
    ensures r.Some? ==> r.value.id == id
  {
    if ss == [] then None
    else match FirstType(ss[0].types, ById(id))
      case Some(t) => Some(t)
      case None => TypeIn(ss[1..], id)
  }

  /**
   * The value a freshly constructed property holds after `StringValue` is
   * set to `value`: text keeps the string; the other kinds start from their
   * default (their string parsing is not part of this model).
   */
  function InitialValue(kind: ValueKind, value: Option<string>): Value {
    match kind
    case SingleLineString => Text(value)
    case Decimal => Number(0)
    case JsonSerializableObject => Blob(None)
  }

  /** The property class instantiation: fails (None) when the kind has no associated class. */
  function NewProperty(reg: Registry, t: PropertyType, value: Option<string>): Option<Property> {
    if t.kind in reg.constructible then Some(Property(t.id, InitialValue(t.kind, value))) else None
  }

  // ---------------------------------------------------------------------
  // Queries over the ordered property list
  // ---------------------------------------------------------------------

  /** Index of the first property bound to type `id` (FirstOrDefault). */
  function FirstOfType(ps: seq<Property>, id: Guid): (r: Option<nat>)
    ensures r.Some? ==> r.value < |ps| && ps[r.value].typeId == id
    ensures r.Some? ==> forall j :: 0 <= j < r.value ==> ps[j].typeId != id
    ensures r.None? ==> forall j :: 0 <= j < |ps| ==> ps[j].typeId != id
  {
    if ps == [] then None
    else if ps[0].typeId == id then Some(0)
    else match FirstOfType(ps[1..], id)
      case None => None
      case Some(k) => Some(k + 1)
  }

  /** Whether some property is bound to type `id` (Any). */
  predicate HasType(ps: seq<Property>, id: Guid) {
    FirstOfType(ps, id).Some?
  }

  /** The properties bound to type `id`, in list order (Where). */
  function OfType(ps: seq<Property>, id: Guid): (r: seq<Property>)
    ensures forall x :: x in r <==> x in ps && x.typeId == id
    ensures |r| <= |ps|
  {
    if ps == [] then []
    else if ps[0].typeId == id then [ps[0]] + OfType(ps[1..], id)
    else OfType(ps[1..], id)
  }

  /** The properties NOT bound to type `id`, in list order. */
  function WithoutType(ps: seq<Property>, id: Guid): (r: seq<Property>)
    ensures forall x :: x in r <==> x in ps && x.typeId != id
    ensures forall j :: 0 <= j < |r| ==> r[j].typeId != id
    ensures |r| + |OfType(ps, id)| == |ps|
  {
    if ps == [] then []
    else if ps[0].typeId == id then WithoutType(ps[1..], id)
    else [ps[0]] + WithoutType(ps[1..], id)
  }

  /** The list after removing the first property bound to type `id`, if any. */
  function RemoveFirst(ps: seq<Property>, id: Guid): seq<Property> {
    match FirstOfType(ps, id)
    case None => ps
    case Some(k) => ps[..k] + ps[k + 1..]
  }

  /** List<T>.Remove(item): drop the first element equal to `p`. */
  function RemoveEqual(ps: seq<Property>, p: Property): (r: seq<Property>)
    ensures p in ps ==> |r| == |ps| - 1
    ensures p !in ps ==> r == ps
  {
    if ps == [] then []
    else if ps[0] == p then ps[1..]
    else [ps[0]] + RemoveEqual(ps[1..], p)
  }

  /** The list after removing the first `n` properties bound to type `id`. */
  function DropFirst(ps: seq<Property>, id: Guid, n: nat): seq<Property> {
    if ps == [] then []
    else if n > 0 && ps[0].typeId == id then DropFirst(ps[1..], id, n - 1)
    else [ps[0]] + DropFirst(ps[1..], id, n)
  }

  /**
   * The schema ids referenced by the properties whose type resolves, in
   * list order, with repetitions (Select(PropertyType).Where(non-null).Select(SchemaId)).
   */
  function SchemaRefs(reg: Registry, ps: seq<Property>): (r: seq<Guid>)
    ensures forall sid :: sid in r <==>
      exists i :: 0 <= i < |ps| && reg.SchemaOfType(ps[i].typeId) == Some(sid)
  {
    if ps == [] then []
    else
      var rest := SchemaRefs(reg, ps[1..]);
      assert forall i :: 0 < i < |ps| ==> ps[i] == ps[1..][i - 1];
      match reg.SchemaOfType(ps[0].typeId)
      case None => rest
      case Some(sid) => [sid] + rest
  }

  /** Enrollment: some property's type belongs to schema `sid`. */
  predicate Enrolled(reg: Registry, ps: seq<Property>, sid: Guid) {
    sid in SchemaRefs(reg, ps)
  }

  /** Distinct(): first occurrences only, in their original order. */
  function Distinct(xs: seq<Guid>): (r: seq<Guid>)
    ensures NoDuplicates(r)
    ensures forall x :: x in r <==> x in xs
  {
    if xs == [] then []
    else
      var d := Distinct(xs[..|xs| - 1]);
      assert xs == xs[..|xs| - 1] + [xs[|xs| - 1]];
      if xs[|xs| - 1] in d then d else d + [xs[|xs| - 1]]
  }

  /**
   * The property list after the container handles "type `t` was added to
   * schema `sid`": a default-valued property of `t` is appended exactly when
   * the container lacks `t`, is enrolled in the schema, and the property can
   * be constructed.
   */
  function AfterTypeAdded(reg: Registry, ps: seq<Property>, sid: Guid, t: PropertyType): seq<Property> {
    if !HasType(ps, t.id) && Enrolled(reg, ps, sid) && t.kind in reg.constructible
    then ps + [Property(t.id, InitialValue(t.kind, None))]
    else ps
  }

  /** The value variant that matches a value kind. */
  predicate OfKind(v: Value, kind: ValueKind) {
    match kind
    case SingleLineString => v.Text?
    case Decimal => v.Number?
    case JsonSerializableObject => v.Blob?
  }

  /** Every property bound to type `id` holds a value of `kind`. */
  predicate ValuesOfKind(ps: seq<Property>, id: Guid, kind: ValueKind) {
    forall k :: 0 <= k < |ps| && ps[k].typeId == id ==> OfKind(ps[k].value, kind)
  }

  // ---------------------------------------------------------------------
  // Lemmas
  // ---------------------------------------------------------------------

  /** HasType is exactly "some element is bound to the type". */
  lemma HasTypeIff(ps: seq<Property>, id: Guid)
    ensures HasType(ps, id) <==> exists i :: 0 <= i < |ps| && ps[i].typeId == id
  {
  }

  /** Some property is bound to `id` exactly when the matches are non-empty. */
  lemma {:induction false} HasTypeIffOfType(ps: seq<Property>, id: Guid)
    ensures HasType(ps, id) <==> |OfType(ps, id)| > 0
  {
    if ps != [] && ps[0].typeId != id {
      HasTypeIffOfType(ps[1..], id);
    }
  }

  /** The matches of a concatenation are the matches of each part, in order. */
  lemma {:induction false} OfTypeAppend(a: seq<Property>, b: seq<Property>, id: Guid)
    ensures OfType(a + b, id) == OfType(a, id) + OfType(b, id)
  {
    if a == [] {
      assert a + b == b;
    } else {
      var ab := a + b;
      assert ab[0] == a[0];
      assert ab[1..] == a[1..] + b;
      OfTypeAppend(a[1..], b, id);
    }
  }

  /** RemoveFirst, read one element at a time. */
  lemma RemoveFirstCons(ps: seq<Property>, id: Guid)
    requires ps != []
    ensures RemoveFirst(ps, id) == if ps[0].typeId == id then ps[1..] else [ps[0]] + RemoveFirst(ps[1..], id)
  {
  }

  /**
   * Removing the first property of type `id` removes exactly one match when
   * there is one, leaves the matches of every other type untouched, and
   * keeps all non-matching properties in their order.
   */
  lemma {:induction false} RemoveFirstEffect(ps: seq<Property>, id: Guid, other: Guid)
    requires other != id
    ensures |OfType(RemoveFirst(ps, id), id)| == |OfType(ps, id)| - (if HasType(ps, id) then 1 else 0)
    ensures OfType(RemoveFirst(ps, id), other) == OfType(ps, other)
    ensures WithoutType(RemoveFirst(ps, id), id) == WithoutType(ps, id)
  {
    if ps != [] {
      RemoveFirstCons(ps, id);
      if ps[0].typeId != id {
        var rest := RemoveFirst(ps[1..], id);
        RemoveFirstEffect(ps[1..], id, other);
        var r := [ps[0]] + rest;
        assert r[0] == ps[0] && r[1..] == rest;
      }
    }
  }

  /** Dropping no match leaves the list as it is. */
  lemma {:induction false} DropNone(ps: seq<Property>, id: Guid)
    ensures DropFirst(ps, id, 0) == ps
  {
    if ps != [] {
      DropNone(ps[1..], id);
    }
  }

  /** Dropping every match leaves exactly the non-matching properties. */
  lemma {:induction false} DropAll(ps: seq<Property>, id: Guid)
    ensures DropFirst(ps, id, |OfType(ps, id)|) == WithoutType(ps, id)
  {
    if ps != [] {
      DropAll(ps[1..], id);
    }
  }

  /**
   * One iteration of RemoveProperty(Guid): after the first `i` matches have
   * been dropped, the `i`-th match of the snapshot is still in the list and
   * List.Remove of it drops exactly the next match.
   */
  lemma {:induction false} DropStep(ps: seq<Property>, id: Guid, i: nat)
    requires i < |OfType(ps, id)|
    ensures OfType(ps, id)[i] in DropFirst(ps, id, i)
    ensures RemoveEqual(DropFirst(ps, id, i), OfType(ps, id)[i]) == DropFirst(ps, id, i + 1)
  {
    var rest := ps[1..];
    if ps[0].typeId == id {
      assert OfType(ps, id) == [ps[0]] + OfType(rest, id);
      if i > 0 {
        DropStep(rest, id, i - 1);
      } else {
        DropNone(rest, id);
        assert DropFirst(ps, id, 0) == [ps[0]] + rest;
      }
    } else {
      var p := OfType(rest, id)[i];
      assert p in OfType(rest, id);
      DropStep(rest, id, i);
      var d := [ps[0]] + DropFirst(rest, id, i);
      assert d[0] == ps[0] && d[1..] == DropFirst(rest, id, i);
    }
  }

  /** A second notification of the same added type changes nothing. */
  lemma AfterTypeAddedIdempotent(reg: Registry, ps: seq<Property>, sid: Guid, t: PropertyType)
    ensures AfterTypeAdded(reg, AfterTypeAdded(reg, ps, sid, t), sid, t) == AfterTypeAdded(reg, ps, sid, t)
  {
    var q := AfterTypeAdded(reg, ps, sid, t);
    if q != ps {
      assert q[|ps|].typeId == t.id;
      HasTypeIff(q, t.id);
    }
  }

  /**
   * When the auto-add fires, the container keeps every property it had, in
   * order, and ends with exactly one property of the new type.
   */
  lemma AfterTypeAddedGainsOne(reg: Registry, ps: seq<Property>, sid: Guid, t: PropertyType)
    requires !HasType(ps, t.id) && Enrolled(reg, ps, sid) && t.kind in reg.constructible
    ensures AfterTypeAdded(reg, ps, sid, t)[..|ps|] == ps
    ensures |OfType(AfterTypeAdded(reg, ps, sid, t), t.id)| == 1
  {
    var p := Property(t.id, InitialValue(t.kind, None));
    HasTypeIffOfType(ps, t.id);
    OfTypeAppend(ps, [p], t.id);
  }

  /** Distinct of a duplicate-free list is that list. */
  lemma {:induction false} DistinctOfDistinct(xs: seq<Guid>)
    requires NoDuplicates(xs)
    ensures Distinct(xs) == xs
  {
    if xs != [] {
      var init := xs[..|xs| - 1];
      DistinctOfDistinct(init);
      assert xs[|xs| - 1] !in init;
      assert xs == init + [xs[|xs| - 1]];
    }
  }

  /**
   * Distinct keeps first-occurrence order: the distinct ids of a prefix come
   * first, in the same order, among the distinct ids of the whole list.
   */
  lemma {:induction false} DistinctPrefix(xs: seq<Guid>, ys: seq<Guid>)
    ensures Distinct(xs) <= Distinct(xs + ys)
  {
    if ys == [] {
      assert xs + ys == xs;
    } else {
      var zs := ys[..|ys| - 1];
      DistinctPrefix(xs, zs);
      assert (xs + ys)[..|xs + ys| - 1] == xs + zs;
    }
  }

  /** Appending leaves the first property of a type where it was, unless the type was absent and is the one appended. */
  lemma {:induction false} FirstOfTypeAppend(ps: seq<Property>, p: Property, id: Guid)
    requires p.typeId != id || HasType(ps, id)
    ensures FirstOfType(ps + [p], id) == FirstOfType(ps, id)
  {
    if ps != [] && ps[0].typeId != id {
      assert (ps + [p])[1..] == ps[1..] + [p];
      FirstOfTypeAppend(ps[1..], p, id);
    }
  }

  /** Rewriting a property of another type leaves the first property of `id` where it was. */
  lemma {:induction false} FirstOfTypeUpdateOther(ps: seq<Property>, k: nat, q: Property, id: Guid)
    requires k < |ps| && ps[k].typeId != id && q.typeId != id
    ensures FirstOfType(ps[k := q], id) == FirstOfType(ps, id)
  {
    if k > 0 && ps[0].typeId != id {
      assert ps[k := q][1..] == ps[1..][k - 1 := q];
      FirstOfTypeUpdateOther(ps[1..], k - 1, q, id);
    }
  }

  /** Appending a property of a type the list lacks makes it the first of that type. */
  lemma {:induction false} FirstOfTypeAppendAbsent(ps: seq<Property>, p: Property)
    requires !HasType(ps, p.typeId)
    ensures FirstOfType(ps + [p], p.typeId) == Some(|ps|)
  {
    if ps != [] {
      assert (ps + [p])[1..] == ps[1..] + [p];
      FirstOfTypeAppendAbsent(ps[1..], p);
    }
  }

  /** Rewriting the first property of a type with one of the same type keeps it first. */
  lemma {:induction false} FirstOfTypeUpdate(ps: seq<Property>, k: nat, q: Property)
    requires FirstOfType(ps, q.typeId) == Some(k)
    ensures FirstOfType(ps[k := q], q.typeId) == Some(k)
  {
    if k > 0 {
      assert ps[k := q][1..] == ps[1..][k - 1 := q];
      FirstOfTypeUpdate(ps[1..], k - 1, q);
    }
  }
}
