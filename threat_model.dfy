/**
 * The owning threat model as far as the property store needs it: a schema
 * registry (get by name and namespace, get by id, add a schema, add a type
 * to a schema) and the model's own properties container, which is told when
 * a type is added to a schema it is attached to.
 */
module ThreatModels {
  import opened Store
  import opened PropertiesContainers

  /** Index of the first schema with the given name and namespace. */
  function FindSchema(ss: seq<Schema>, name: string, ns: string): (r: Option<nat>)
    ensures r.Some? ==> r.value < |ss| && ss[r.value].name == name && ss[r.value].ns == ns
    ensures r.Some? ==> forall i :: 0 <= i < r.value ==> !(ss[i].name == name && ss[i].ns == ns)
    ensures r.None? ==> forall i :: 0 <= i < |ss| ==> !(ss[i].name == name && ss[i].ns == ns)
  {
    if ss == [] then None
    else if ss[0].name == name && ss[0].ns == ns then Some(0)
    else match FindSchema(ss[1..], name, ns)
      case None => None
      case Some(k) => Some(k + 1)
  }

  /** Property type names are unique within a schema. */
  predicate NamesUnique(ts: seq<PropertyType>) {
    forall a, b :: 0 <= a < b < |ts| ==> ts[a].name != ts[b].name
  }

  /** Ids below `bound` have been handed out; types point back to their schema. */
  predicate SchemaWellFormed(s: Schema, bound: Guid) {
    && s.id < bound
    && NamesUnique(s.types)
    && forall j :: 0 <= j < |s.types| ==> s.types[j].id < bound && s.types[j].schemaId == s.id
  }

  class ThreatModel {
    var schemas: seq<Schema>
    /** The next fresh identifier. */
    var nextId: Guid
    /** Value kinds whose property class can be instantiated. */
    const constructible: set<ValueKind>
    /** The threat model's own properties. */
    const container: PropertiesContainer

    ghost predicate Valid()
      reads this, container
    {
      && container.Valid()
      && forall i :: 0 <= i < |schemas| ==> SchemaWellFormed(schemas[i], nextId)
    }

    constructor (constructible: set<ValueKind>)
      ensures Valid() && fresh(container)
      ensures schemas == [] && this.constructible == constructible
      ensures container.properties == [] && container.subscriptions == []
    {
      schemas := [];
      nextId := 0;
      this.constructible := constructible;
      container := new PropertiesContainer([]);
    }

    /** The registry view handed to the container. */
    function Snapshot(): Registry
      reads this
    {
      Registry(schemas, constructible)
    }

    /** GetSchema(name, namespace). */
    function GetSchema(name: string, ns: string): (r: Option<Schema>)
      reads this
      ensures r.Some? ==> r.value in schemas && r.value.name == name && r.value.ns == ns
      ensures r.None? ==> forall i :: 0 <= i < |schemas| ==> !(schemas[i].name == name && schemas[i].ns == ns)
    {
      match FindSchema(schemas, name, ns)
      case None => None
      case Some(k) => Some(schemas[k])
    }

    /** The type called `typeName` in the schema (name, namespace), if both exist. */
    function LookupType(name: string, ns: string, typeName: string): Option<PropertyType>
      reads this
    {
      match FindSchema(schemas, name, ns)
      case None => None
      case Some(k) => FirstType(schemas[k].types, ByName(typeName))
    }

    /** AddSchema, with the attributes the caller sets on the new schema given up front. */
    method AddSchema(name: string, ns: string, appliesTo: Scope, autoApply: bool, priority: int,
                     visible: bool, system: bool) returns (s: Schema)
      requires Valid()
      modifies this`schemas, this`nextId
      ensures Valid()
      ensures s == Schema(old(nextId), name, ns, appliesTo, autoApply, priority, visible, system, [])
      ensures schemas == old(schemas) + [s] && nextId == old(nextId) + 1
    {
      s := Schema(nextId, name, ns, appliesTo, autoApply, priority, visible, system, []);
      schemas := schemas + [s];
      nextId := nextId + 1;
    }

    /**
     * AddPropertyType on the schema at index `k`: the name must be new in
     * that schema; the type gets a fresh id and the schema's type-added event
     * reaches the model's container when it is attached to that schema.
     */
    method AddPropertyType(k: nat, name: string, kind: ValueKind, visible: bool, description: string)
      returns (t: PropertyType)
      requires Valid() && k < |schemas|
      requires FirstType(schemas[k].types, ByName(name)).None?
      modifies this`schemas, this`nextId, container`properties, container`dirty, container`addedEvents
      ensures Valid()
      ensures t == PropertyType(old(nextId), name, old(schemas[k].id), kind, visible, description)
      ensures nextId == old(nextId) + 1
      ensures schemas == old(schemas)[k := old(schemas[k]).(types := old(schemas[k].types) + [t])]
      ensures t.schemaId in old(container.subscriptions) ==>
        container.properties == AfterTypeAdded(Snapshot(), old(container.properties), t.schemaId, t)
      ensures t.schemaId !in old(container.subscriptions) ==> unchanged(container)
      ensures AppendsAnnounced(container)
    {
      var s := schemas[k];
      t := PropertyType(nextId, name, s.id, kind, visible, description);
      var s' := s.(types := s.types + [t]);
      schemas := schemas[k := s'];
      nextId := nextId + 1;
      forall i | 0 <= i < |schemas|
        ensures SchemaWellFormed(schemas[i], nextId)
      {
        if i == k {
          assert forall j :: 0 <= j < |s.types| ==> s.types[j].name != name;
        } else {
          assert SchemaWellFormed(old(schemas)[i], old(nextId));
        }
      }
      if s.id in container.subscriptions {
        container.OnPropertyTypeAdded(Some(Snapshot()), Some(s'), Some(t));
      }
    }
  }

  /** A schema appended under a new (name, namespace) is the one found under that key. */
  lemma {:induction false} FindSchemaAppend(ss: seq<Schema>, s: Schema)
    requires FindSchema(ss, s.name, s.ns).None?
    ensures FindSchema(ss + [s], s.name, s.ns) == Some(|ss|)
  {
    if ss != [] {
      assert (ss + [s])[1..] == ss[1..] + [s];
      FindSchemaAppend(ss[1..], s);
    }
  }

  /** Changing a schema's types does not change which schema a (name, namespace) finds. */
  lemma {:induction false} FindSchemaUpdate(ss: seq<Schema>, k: nat, ts: seq<PropertyType>, name: string, ns: string)
    requires k < |ss|
    ensures FindSchema(ss[k := ss[k].(types := ts)], name, ns) == FindSchema(ss, name, ns)
  {
    if ss != [] && k > 0 {
      assert ss[k := ss[k].(types := ts)][1..] == ss[1..][k - 1 := ss[1..][k - 1].(types := ts)];
      FindSchemaUpdate(ss[1..], k - 1, ts, name, ns);
    }
  }

  /** A type appended under one name leaves the lookup of every other name as it was. */
  lemma {:induction false} FirstTypeByNameAppendOther(ts: seq<PropertyType>, t: PropertyType, name: string)
    requires name != t.name
    ensures FirstType(ts + [t], ByName(name)) == FirstType(ts, ByName(name))
  {
    if ts != [] {
      assert (ts + [t])[1..] == ts[1..] + [t];
      FirstTypeByNameAppendOther(ts[1..], t, name);
    }
  }

  /** A type appended under a new name is the one found under that name. */
  lemma {:induction false} FirstTypeByNameAppend(ts: seq<PropertyType>, t: PropertyType)
    requires FirstType(ts, ByName(t.name)).None?
    ensures FirstType(ts + [t], ByName(t.name)) == Some(t)
  {
    if ts != [] {
      assert (ts + [t])[1..] == ts[1..] + [t];
      FirstTypeByNameAppend(ts[1..], t);
    }
  }
}
