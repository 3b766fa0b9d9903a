/**
 * The residual risk estimator configuration: one well-known schema holding
 * three well-known property types (the selected estimator's extension id,
 * the estimator parameters and the infinite cap), provisioned on first use,
 * with typed getters and setters over the threat model's own properties.
 */
module ResidualRiskEstimator {
  import opened Store
  import opened PropertiesContainers
  import opened ThreatModels

  const SchemaName: string := "Residual Risk Estimator Configuration"
  const SelectedEstimatorName: string := "Selected Estimator"
  const ParametersName: string := "Estimator Parameters"
  const InfiniteName: string := "Infinite Cap"
  const SelectedEstimatorDescription: string := "Extension Id of the Selected Residual Risk Estimator"
  const ParametersDescription: string := "Parameters of the Selected Residual Risk Estimator"
  const InfiniteDescription: string := "Infinite Cap for the selected Residual Risk Estimator"
  const SchemaPriority: int := 100
  /** The cap reported when no decimal property holds one. */
  const UnsetCap: int := -1

  // ---------------------------------------------------------------------
  // Final reads of the getters and effects of the setters on the list
  // ---------------------------------------------------------------------

  /** The stored extension id: the text of the first property of the type, if any. */
  function SelectedEstimatorOf(ps: seq<Property>, id: Guid): Option<string> {
    match FirstOfType(ps, id)
    case None => None
    case Some(k) => if ps[k].value.Text? then ps[k].value.text else None
  }

  /** The StringValue setter: a text value takes the string; other kinds' parsing is not modelled. */
  function WithStringValue(v: Value, s: Option<string>): Value {
    if v.Text? then Text(s) else v
  }

  /**
   * SelectedEstimator setter on the list: an absent property is added only
   * for a non-null id; a present one has its string overwritten, null included.
   */
  function WithSelectedEstimator(ps: seq<Property>, t: PropertyType, reg: Registry, value: Option<string>): seq<Property> {
    match FirstOfType(ps, t.id)
    case Some(k) => ps[k := Property(ps[k].typeId, WithStringValue(ps[k].value, value))]
    case None =>
      if value.None? then ps
      else match NewProperty(reg, t, value)
        case None => ps
        case Some(p) => ps + [p]
  }

  /** The configuration a parameter list is stored as (null stays null). */
  function ConfigurationOf(value: Option<seq<Parameter>>): Option<JsonObject> {
    match value
    case None => None
    case Some(ps) => Some(Configuration(ps))
  }

  /** Parameters getter: the parameters of the configuration held by the first property, if it holds one. */
  function ParametersOf(ps: seq<Property>, id: Guid): Option<seq<Parameter>> {
    match FirstOfType(ps, id)
    case None => None
    case Some(k) =>
      match ps[k].value
      case Blob(Some(Configuration(parameters))) => Some(parameters)
      case _ => None
  }

  /**
   * Parameters setter on the list: a JSON property present gets the new
   * configuration or null; otherwise a non-null list adds a property and
   * stores a configuration holding a copy of the list in it.
   */
  function WithParameters(ps: seq<Property>, t: PropertyType, reg: Registry, value: Option<seq<Parameter>>): seq<Property> {
    var first := FirstOfType(ps, t.id);
    if first.Some? && ps[first.value].value.Blob? then
      ps[first.value := Property(t.id, Blob(ConfigurationOf(value)))]
    else if value.None? then ps
    else match NewProperty(reg, t, None)
      case None => ps
      case Some(p) =>
        if p.value.Blob? then ps + [Property(p.typeId, Blob(ConfigurationOf(value)))] else ps + [p]
  }

  /** Infinite getter: the value of the first property when it is decimal, else the unset sentinel. */
  function InfiniteOf(ps: seq<Property>, id: Guid): int {
    var first := FirstOfType(ps, id);
    if first.Some? && ps[first.value].value.Number? then ps[first.value].value.number else UnsetCap
  }

  /** Infinite setter on the list: create the property if absent, then write the cap when it is decimal. */
  function WithInfinite(ps: seq<Property>, t: PropertyType, reg: Registry, cap: int): seq<Property> {
    match FirstOfType(ps, t.id)
    case Some(k) =>
      if ps[k].value.Number? then ps[k := Property(ps[k].typeId, Number(cap))] else ps
    case None =>
      match NewProperty(reg, t, None)
      case None => ps
      case Some(p) => if p.value.Number? then ps + [Property(p.typeId, Number(cap))] else ps + [p]
  }

  // ---------------------------------------------------------------------
  // Set-then-get lemmas
  // ---------------------------------------------------------------------

  /**
   * Reading the selected estimator after setting it gives the id that was
   * set, whenever a property is present or can be created; a null id with
   * no property creates nothing; a present property is kept.
   */
  lemma SelectedEstimatorRoundTrip(ps: seq<Property>, t: PropertyType, reg: Registry, value: Option<string>)
    requires t.kind == SingleLineString && ValuesOfKind(ps, t.id, SingleLineString)
    requires value.Some? && !HasType(ps, t.id) ==> SingleLineString in reg.constructible
    ensures SelectedEstimatorOf(WithSelectedEstimator(ps, t, reg, value), t.id) == value
    ensures ValuesOfKind(WithSelectedEstimator(ps, t, reg, value), t.id, SingleLineString)
    ensures !HasType(ps, t.id) && value.None? ==> WithSelectedEstimator(ps, t, reg, value) == ps
    ensures HasType(ps, t.id) ==> |WithSelectedEstimator(ps, t, reg, value)| == |ps|
    ensures HasType(ps, t.id) ==> FirstOfType(WithSelectedEstimator(ps, t, reg, value), t.id) == FirstOfType(ps, t.id)
  {
    var r := WithSelectedEstimator(ps, t, reg, value);
    match FirstOfType(ps, t.id)
    case None =>
      if value.Some? {
        FirstOfTypeAppendAbsent(ps, Property(t.id, Text(value)));
      }
    case Some(k) =>
      FirstOfTypeUpdate(ps, k, Property(t.id, Text(value)));
  }

  /**
   * Reading the parameters after setting them gives the list that was set
   * (null included) whenever a property is present or can be created; a
   * null list with no property creates nothing; a present property is kept.
   */
  lemma ParametersRoundTrip(ps: seq<Property>, t: PropertyType, reg: Registry, value: Option<seq<Parameter>>)
    requires t.kind == JsonSerializableObject && ValuesOfKind(ps, t.id, JsonSerializableObject)
    requires value.Some? && !HasType(ps, t.id) ==> JsonSerializableObject in reg.constructible
    ensures ParametersOf(WithParameters(ps, t, reg, value), t.id) == value
    ensures ValuesOfKind(WithParameters(ps, t, reg, value), t.id, JsonSerializableObject)
    ensures !HasType(ps, t.id) && value.None? ==> WithParameters(ps, t, reg, value) == ps
    ensures HasType(ps, t.id) ==> |WithParameters(ps, t, reg, value)| == |ps|
    ensures HasType(ps, t.id) ==> FirstOfType(WithParameters(ps, t, reg, value), t.id) == FirstOfType(ps, t.id)
  {
    match FirstOfType(ps, t.id)
    case None =>
      if value.Some? {
        FirstOfTypeAppendAbsent(ps, Property(t.id, Blob(ConfigurationOf(value))));
      }
    case Some(k) =>
      FirstOfTypeUpdate(ps, k, Property(t.id, Blob(ConfigurationOf(value))));
  }

  /**
   * Reading the cap after setting it gives the cap that was set whenever a
   * property is present or can be created; with no property the getter
   * reports the unset sentinel.
   */
  lemma InfiniteRoundTrip(ps: seq<Property>, t: PropertyType, reg: Registry, cap: int)
    requires t.kind == Decimal && ValuesOfKind(ps, t.id, Decimal)
    requires !HasType(ps, t.id) ==> Decimal in reg.constructible
    ensures InfiniteOf(WithInfinite(ps, t, reg, cap), t.id) == cap
    ensures ValuesOfKind(WithInfinite(ps, t, reg, cap), t.id, Decimal)
    ensures !HasType(ps, t.id) ==> InfiniteOf(ps, t.id) == UnsetCap
    ensures HasType(ps, t.id) ==> FirstOfType(WithInfinite(ps, t, reg, cap), t.id) == FirstOfType(ps, t.id)
  {
    match FirstOfType(ps, t.id)
    case None =>
      FirstOfTypeAppendAbsent(ps, Property(t.id, Number(cap)));
    case Some(k) =>
      FirstOfTypeUpdate(ps, k, Property(t.id, Number(cap)));
  }

  /** Writing the cap leaves the value of every other type's first property, such as the selected estimator, as it was. */
  lemma InfiniteWriteKeepsSelected(ps: seq<Property>, t: PropertyType, reg: Registry, cap: int, id: Guid)
    requires id != t.id
    ensures SelectedEstimatorOf(WithInfinite(ps, t, reg, cap), id) == SelectedEstimatorOf(ps, id)
  {
    match FirstOfType(ps, t.id)
    case Some(k) =>
      if ps[k].value.Number? {
        FirstOfTypeUpdateOther(ps, k, Property(ps[k].typeId, Number(cap)), id);
      }
    case None =>
      match NewProperty(reg, t, None)
      case None =>
      case Some(p) =>
        FirstOfTypeAppend(ps, if p.value.Number? then Property(p.typeId, Number(cap)) else p, id);
  }

  /** The auto-added property of another type leaves the selected estimator as it was. */
  lemma AutoAddKeepsSelected(reg: Registry, ps: seq<Property>, sid: Guid, t: PropertyType, id: Guid)
    requires id != t.id
    ensures SelectedEstimatorOf(AfterTypeAdded(reg, ps, sid, t), id) == SelectedEstimatorOf(ps, id)
  {
    if AfterTypeAdded(reg, ps, sid, t) != ps {
      FirstOfTypeAppend(ps, Property(t.id, InitialValue(t.kind, None)), id);
    }
  }

  /**
   * A container that holds a property of the configuration schema and is
   * attached to it (a selected estimator does both) is told when "Infinite
   * Cap" is created on a read: it gains a decimal property holding 0, so
   * that read reports 0, where without the auto-add it would report the
   * unset sentinel.
   */
  lemma CapReadAfterAutoAdd(reg: Registry, ps: seq<Property>, t: PropertyType)
    requires t.kind == Decimal && Decimal in reg.constructible
    requires !HasType(ps, t.id) && Enrolled(reg, ps, t.schemaId)
    ensures InfiniteOf(ps, t.id) == UnsetCap
    ensures InfiniteOf(AfterTypeAdded(reg, ps, t.schemaId, t), t.id) == 0
  {
    FirstOfTypeAppendAbsent(ps, Property(t.id, Number(0)));
  }

  /**
   * What provisioning a type does to the model's own properties: nothing
   * when the type already existed; when it was just created, the schema's
   * type-added event reaches the container if it is attached to the schema.
   */
  ghost predicate ProvisionEffect(before: seq<Property>, subscriptions: seq<Guid>, existed: bool,
                                  reg: Registry, t: PropertyType, after: seq<Property>)
  {
    after == if !existed && t.schemaId in subscriptions then AfterTypeAdded(reg, before, t.schemaId, t) else before
  }

  /**
   * Provisioning keeps the stored values of a type of its kind: an existing
   * type's properties are untouched, and a new type gains at most the
   * default-valued property the type-added handler appends.
   */
  lemma ProvisionKeepsKinds(before: seq<Property>, subscriptions: seq<Guid>, existed: bool,
                            reg: Registry, t: PropertyType, after: seq<Property>)
    requires ProvisionEffect(before, subscriptions, existed, reg, t, after)
    requires ValuesOfKind(before, t.id, t.kind)
    ensures ValuesOfKind(after, t.id, t.kind)
  {
  }

  /**
   * Selecting an estimator right after its type was created: whatever the
   * type-added handler appended, the estimator reads back, and every stored
   * property's type is either an older one or the new type.
   */
  lemma FreshEstimatorWrite(before: seq<Property>, subscriptions: seq<Guid>, reg: Registry, t: PropertyType,
                            provisioned: seq<Property>, id: string)
    requires t.kind == SingleLineString && SingleLineString in reg.constructible
    requires forall i :: 0 <= i < |before| ==> before[i].typeId < t.id
    requires ProvisionEffect(before, subscriptions, false, reg, t, provisioned)
    ensures SelectedEstimatorOf(WithSelectedEstimator(provisioned, t, reg, Some(id)), t.id) == Some(id)
    ensures var r := WithSelectedEstimator(provisioned, t, reg, Some(id));
      forall i :: 0 <= i < |r| ==> r[i].typeId <= t.id
  {
    ProvisionKeepsKinds(before, subscriptions, false, reg, t, provisioned);
    SelectedEstimatorRoundTrip(provisioned, t, reg, Some(id));
  }

  /** The configuration schema GetSchema adds when there is none. */
  function ConfigSchema(id: Guid, ns: string): Schema {
    Schema(id, SchemaName, ns, ThreatModelScope, false, SchemaPriority, false, true, [])
  }

  /** The schema list after GetSchema, with the index at which the configuration schema is then found. */
  function WithConfigSchema(ss: seq<Schema>, next: Guid, ns: string): (r: (seq<Schema>, nat))
    ensures r.1 < |r.0| && FindSchema(r.0, SchemaName, ns) == Some(r.1)
  {
    match FindSchema(ss, SchemaName, ns)
    case Some(k) => (ss, k)
    case None =>
      FindSchemaAppend(ss, ConfigSchema(next, ns));
      (ss + [ConfigSchema(next, ns)], |ss|)
  }

  /**
   * The schema list and next id after the get-or-create of the configuration
   * type `name`: the configuration schema is added when absent, then the
   * type, hidden and with the next id, when that schema lacks it.
   */
  function Provisioned(ss: seq<Schema>, next: Guid, ns: string, name: string, kind: ValueKind,
                       description: string): (seq<Schema>, Guid)
  {
    var c := WithConfigSchema(ss, next, ns);
    var id := next + |c.0| - |ss|;
    var s := c.0[c.1];
    if FirstType(s.types, ByName(name)).Some? then (c.0, id)
    else (c.0[c.1 := s.(types := s.types + [PropertyType(id, name, s.id, kind, false, description)])], id + 1)
  }

  /** Provisioned is GetSchema's effect followed by adding the type to the schema found. */
  lemma ProvisionedByParts(ss: seq<Schema>, next: Guid, ns: string, name: string, kind: ValueKind, description: string,
                           mid: seq<Schema>, midNext: Guid, k: nat, after: seq<Schema>, afterNext: Guid)
    requires FindSchema(ss, SchemaName, ns).Some? ==> mid == ss && midNext == next
    requires FindSchema(ss, SchemaName, ns).None? ==> mid == ss + [ConfigSchema(next, ns)] && midNext == next + 1
    requires FindSchema(mid, SchemaName, ns) == Some(k)
    requires FirstType(mid[k].types, ByName(name)).Some? ==> after == mid && afterNext == midNext
    requires FirstType(mid[k].types, ByName(name)).None? ==>
      && after == mid[k := mid[k].(types := mid[k].types + [PropertyType(midNext, name, mid[k].id, kind, false, description)])]
      && afterNext == midNext + 1
    ensures (after, afterNext) == Provisioned(ss, next, ns, name, kind, description)
  {
  }

  /**
   * Provisioning touches the registry only where the source does: every
   * existing schema keeps its attributes and at most gains types at the end,
   * schemas other than the configuration one are untouched, a schema is added
   * only when there was no configuration schema (with the attributes
   * GetSchema gives it), and at most two ids are handed out.
   */
  lemma ProvisionedKeepsRegistry(ss: seq<Schema>, next: Guid, ns: string, name: string, kind: ValueKind, description: string)
    ensures var r := Provisioned(ss, next, ns, name, kind, description);
      && |ss| <= |r.0| <= |ss| + 1
      && (forall j :: 0 <= j < |ss| ==> r.0[j].(types := ss[j].types) == ss[j] && ss[j].types <= r.0[j].types)
      && (forall j :: 0 <= j < |ss| && !(ss[j].name == SchemaName && ss[j].ns == ns) ==> r.0[j] == ss[j])
      && (|r.0| > |ss| ==> FindSchema(ss, SchemaName, ns).None? && r.0[|ss|].(types := []) == ConfigSchema(next, ns))
      && next <= r.1 <= next + 2
  {
  }

  /** Once the configuration type exists, provisioning changes neither the schemas nor the next id. */
  lemma ProvisionedWhenPresent(ss: seq<Schema>, next: Guid, ns: string, name: string, kind: ValueKind, description: string)
    requires FindSchema(ss, SchemaName, ns).Some?
    requires FirstType(ss[FindSchema(ss, SchemaName, ns).value].types, ByName(name)).Some?
    ensures Provisioned(ss, next, ns, name, kind, description) == (ss, next)
  {
  }

  class ResidualRiskEstimatorPropertySchemaManager {
    const model: ThreatModel
    /** The host's default schema namespace (a resource string). */
    const defaultNamespace: string

    constructor (model: ThreatModel, defaultNamespace: string)
      ensures this.model == model && this.defaultNamespace == defaultNamespace
    {
      this.model := model;
      this.defaultNamespace := defaultNamespace;
    }

    /** The type called `name` in the configuration schema, if both exist. */
    function TypeOf(name: string): Option<PropertyType>
      reads model
    {
      model.LookupType(SchemaName, defaultNamespace, name)
    }

    /**
     * GetSchema: the existing configuration schema, untouched; otherwise a
     * new one applying to the threat model, not auto-applied, priority 100,
     * hidden and reserved to the system.
     */
    method GetSchema() returns (s: Schema)
      requires model.Valid()
      modifies model`schemas, model`nextId
      ensures model.Valid()
      ensures model.GetSchema(SchemaName, defaultNamespace) == Some(s)
      ensures old(model.GetSchema(SchemaName, defaultNamespace)).Some? ==>
        s == old(model.GetSchema(SchemaName, defaultNamespace)).value && unchanged(model)
      ensures old(model.GetSchema(SchemaName, defaultNamespace)).None? ==>
        && s == ConfigSchema(old(model.nextId), defaultNamespace)
        && model.schemas == old(model.schemas) + [s] && model.nextId == old(model.nextId) + 1
    {
      var found := model.GetSchema(SchemaName, defaultNamespace);
      if found.Some? {
        s := found.value;
      } else {
        s := model.AddSchema(SchemaName, defaultNamespace, ThreatModelScope, false, SchemaPriority, false, true);
        assert s == ConfigSchema(old(model.nextId), defaultNamespace);
        FindSchemaAppend(old(model.schemas), s);
      }
    }

    /** The get-or-create shared by the three type getters. */
    method GetOrAddType(name: string, kind: ValueKind, description: string) returns (t: PropertyType)
      requires model.Valid()
      modifies model`schemas, model`nextId, model.container`properties, model.container`dirty, model.container`addedEvents
      ensures model.Valid()
      ensures TypeOf(name) == Some(t) && t.name == name
      ensures model.GetSchema(SchemaName, defaultNamespace).Some?
      ensures t.schemaId == model.GetSchema(SchemaName, defaultNamespace).value.id
      ensures old(TypeOf(name)).Some? ==> t == old(TypeOf(name)).value && unchanged(model) && unchanged(model.container)
      ensures old(TypeOf(name)).None? ==> t.kind == kind && !t.visible && t.description == description && t.id >= old(model.nextId)
      ensures ProvisionEffect(old(model.container.properties), old(model.container.subscriptions),
                              old(TypeOf(name)).Some?, model.Snapshot(), t, model.container.properties)
      ensures t.schemaId !in old(model.container.subscriptions) ==> unchanged(model.container)
      ensures AppendsAnnounced(model.container)
      ensures forall n :: n != name ==> TypeOf(n) == old(TypeOf(n))
      ensures (model.schemas, model.nextId) == Provisioned(old(model.schemas), old(model.nextId), defaultNamespace, name, kind, description)
      ensures old(TypeOf(name)).None? ==> t.id + 1 == model.nextId
    {
      ghost var before := model.schemas;
      ghost var beforeNext := model.nextId;
      var s := GetSchema();
      var k := FindSchema(model.schemas, SchemaName, defaultNamespace).value;
      forall n
        ensures TypeOf(n) == old(TypeOf(n))
      {
        if model.schemas != old(model.schemas) {
          assert model.schemas[k].types == [];
        }
      }
      ghost var mid := model.schemas;
      ghost var midNext := model.nextId;
      t := AddConfigType(k, name, kind, description);
      ProvisionedByParts(before, beforeNext, defaultNamespace, name, kind, description,
                         mid, midNext, k, model.schemas, model.nextId);
    }

    /** The type half of GetOrAddType, on the configuration schema found at index `k`. */
    method AddConfigType(k: nat, name: string, kind: ValueKind, description: string) returns (t: PropertyType)
      requires model.Valid() && FindSchema(model.schemas, SchemaName, defaultNamespace) == Some(k)
      modifies model`schemas, model`nextId, model.container`properties, model.container`dirty, model.container`addedEvents
      ensures model.Valid()
      ensures FindSchema(model.schemas, SchemaName, defaultNamespace) == Some(k)
      ensures TypeOf(name) == Some(t) && t.name == name && t.schemaId == model.schemas[k].id
      ensures old(TypeOf(name)).Some? ==> t == old(TypeOf(name)).value && unchanged(model) && unchanged(model.container)
      ensures old(TypeOf(name)).None? ==>
        && t == PropertyType(old(model.nextId), name, old(model.schemas[k].id), kind, false, description)
        && model.schemas == old(model.schemas)[k := old(model.schemas[k]).(types := old(model.schemas[k].types) + [t])]
        && model.nextId == old(model.nextId) + 1
      ensures ProvisionEffect(old(model.container.properties), old(model.container.subscriptions),
                              old(TypeOf(name)).Some?, model.Snapshot(), t, model.container.properties)
      ensures t.schemaId !in old(model.container.subscriptions) ==> unchanged(model.container)
      ensures AppendsAnnounced(model.container)
      ensures forall n :: n != name ==> TypeOf(n) == old(TypeOf(n))
    {
      var found := FirstType(model.schemas[k].types, ByName(name));
      if found.Some? {
        t := found.value;
      } else {
        ghost var ss := model.schemas;
        t := model.AddPropertyType(k, name, kind, false, description);
        FindSchemaUpdate(ss, k, ss[k].types + [t], SchemaName, defaultNamespace);
        FirstTypeByNameAppend(ss[k].types, t);
        forall n | n != name
          ensures TypeOf(n) == old(TypeOf(n))
        {
          FirstTypeByNameAppendOther(ss[k].types, t, n);
        }
      }
    }

    /** The "Selected Estimator" text type, created hidden on first use. */
    method GetSelectedEstimatorIdPropertyType() returns (t: PropertyType)
      requires model.Valid()
      modifies model`schemas, model`nextId, model.container`properties, model.container`dirty, model.container`addedEvents
      ensures model.Valid()
      ensures TypeOf(SelectedEstimatorName) == Some(t) && t.name == SelectedEstimatorName
      ensures old(TypeOf(SelectedEstimatorName)).Some? ==>
        t == old(TypeOf(SelectedEstimatorName)).value && unchanged(model) && unchanged(model.container)
      ensures old(TypeOf(SelectedEstimatorName)).None? ==>
        t.kind == SingleLineString && !t.visible && t.description == SelectedEstimatorDescription && t.id >= old(model.nextId)
      ensures ProvisionEffect(old(model.container.properties), old(model.container.subscriptions),
                              old(TypeOf(SelectedEstimatorName)).Some?, model.Snapshot(), t, model.container.properties)
      ensures AppendsAnnounced(model.container)
      ensures forall n :: n != SelectedEstimatorName ==> TypeOf(n) == old(TypeOf(n))
      ensures (model.schemas, model.nextId) == Provisioned(old(model.schemas), old(model.nextId), defaultNamespace, SelectedEstimatorName, SingleLineString, SelectedEstimatorDescription)
    {
      t := GetOrAddType(SelectedEstimatorName, SingleLineString, SelectedEstimatorDescription);
    }

    /** The "Estimator Parameters" JSON type, created hidden on first use. */
    method GetParametersPropertyType() returns (t: PropertyType)
      requires model.Valid()
      modifies model`schemas, model`nextId, model.container`properties, model.container`dirty, model.container`addedEvents
      ensures model.Valid()
      ensures TypeOf(ParametersName) == Some(t) && t.name == ParametersName
      ensures old(TypeOf(ParametersName)).Some? ==>
        t == old(TypeOf(ParametersName)).value && unchanged(model) && unchanged(model.container)
      ensures old(TypeOf(ParametersName)).None? ==>
        t.kind == JsonSerializableObject && !t.visible && t.description == ParametersDescription && t.id >= old(model.nextId)
      ensures ProvisionEffect(old(model.container.properties), old(model.container.subscriptions),
                              old(TypeOf(ParametersName)).Some?, model.Snapshot(), t, model.container.properties)
      ensures AppendsAnnounced(model.container)
      ensures forall n :: n != ParametersName ==> TypeOf(n) == old(TypeOf(n))
      ensures (model.schemas, model.nextId) == Provisioned(old(model.schemas), old(model.nextId), defaultNamespace, ParametersName, JsonSerializableObject, ParametersDescription)
    {
      t := GetOrAddType(ParametersName, JsonSerializableObject, ParametersDescription);
    }

    /** The "Infinite Cap" decimal type, created hidden on first use. */
    method GetInfinitePropertyType() returns (t: PropertyType)
      requires model.Valid()
      modifies model`schemas, model`nextId, model.container`properties, model.container`dirty, model.container`addedEvents
      ensures model.Valid()
      ensures TypeOf(InfiniteName) == Some(t) && t.name == InfiniteName
      ensures old(TypeOf(InfiniteName)).Some? ==>
        t == old(TypeOf(InfiniteName)).value && unchanged(model) && unchanged(model.container)
      ensures old(TypeOf(InfiniteName)).None? ==>
        t.kind == Decimal && !t.visible && t.description == InfiniteDescription && t.id >= old(model.nextId)
      ensures ProvisionEffect(old(model.container.properties), old(model.container.subscriptions),
                              old(TypeOf(InfiniteName)).Some?, model.Snapshot(), t, model.container.properties)
      ensures AppendsAnnounced(model.container)
      ensures forall n :: n != InfiniteName ==> TypeOf(n) == old(TypeOf(n))
      ensures (model.schemas, model.nextId) == Provisioned(old(model.schemas), old(model.nextId), defaultNamespace, InfiniteName, Decimal, InfiniteDescription)
    {
      t := GetOrAddType(InfiniteName, Decimal, InfiniteDescription);
    }

    /** SelectedEstimator getter: the stored extension id (its resolution to an extension is not modelled). */
    method GetSelectedEstimator() returns (r: Option<string>)
      requires model.Valid()
      modifies model`schemas, model`nextId, model.container`properties, model.container`dirty, model.container`addedEvents
      ensures model.Valid() && TypeOf(SelectedEstimatorName).Some?
      ensures old(TypeOf(SelectedEstimatorName)).Some? ==> TypeOf(SelectedEstimatorName) == old(TypeOf(SelectedEstimatorName))
      ensures old(TypeOf(SelectedEstimatorName)).None? ==> TypeOf(SelectedEstimatorName).value.kind == SingleLineString && TypeOf(SelectedEstimatorName).value.id >= old(model.nextId)
      ensures var t := TypeOf(SelectedEstimatorName).value;
        && ProvisionEffect(old(model.container.properties), old(model.container.subscriptions),
                          old(TypeOf(SelectedEstimatorName)).Some?, model.Snapshot(), t, model.container.properties)
        && r == SelectedEstimatorOf(model.container.properties, t.id)
      ensures AppendsAnnounced(model.container)
      ensures forall n :: n != SelectedEstimatorName ==> TypeOf(n) == old(TypeOf(n))
      ensures (model.schemas, model.nextId) == Provisioned(old(model.schemas), old(model.nextId), defaultNamespace, SelectedEstimatorName, SingleLineString, SelectedEstimatorDescription)
      ensures old(TypeOf(SelectedEstimatorName)).Some? ==> model.schemas == old(model.schemas) && model.nextId == old(model.nextId)
    {
      var t := GetSelectedEstimatorIdPropertyType();
      var property := model.container.GetProperty(Some(t));
      r := None;
      if property.Ok? && property.value.Some? && property.value.value.value.Text? {
        r := property.value.value.value.text;
      }
    }

    /**
     * SelectedEstimator setter: with no property, a non-null id adds one
     * holding it and a null id does nothing; a present property has its
     * string overwritten, null included, and is kept.
     */
    method SetSelectedEstimator(value: Option<string>) returns (ghost provisioned: seq<Property>)
      requires model.Valid()
      modifies model`schemas, model`nextId, model.container`properties, model.container`dirty, model.container`addedEvents, model.container`subscriptions
      ensures model.Valid() && TypeOf(SelectedEstimatorName).Some?
      ensures old(TypeOf(SelectedEstimatorName)).Some? ==> TypeOf(SelectedEstimatorName) == old(TypeOf(SelectedEstimatorName))
      ensures old(TypeOf(SelectedEstimatorName)).None? ==> TypeOf(SelectedEstimatorName).value.kind == SingleLineString && TypeOf(SelectedEstimatorName).value.id >= old(model.nextId)
      ensures var t := TypeOf(SelectedEstimatorName).value;
        && ProvisionEffect(old(model.container.properties), old(model.container.subscriptions),
                          old(TypeOf(SelectedEstimatorName)).Some?, model.Snapshot(), t, provisioned)
        && model.container.properties == WithSelectedEstimator(provisioned, t, model.Snapshot(), value)
        && model.container.subscriptions == old(model.container.subscriptions) +
             (if |model.container.properties| > |provisioned| then [t.schemaId] else [])
      ensures forall n :: n != SelectedEstimatorName ==> TypeOf(n) == old(TypeOf(n))
      ensures (model.schemas, model.nextId) == Provisioned(old(model.schemas), old(model.nextId), defaultNamespace, SelectedEstimatorName, SingleLineString, SelectedEstimatorDescription)
      ensures old(TypeOf(SelectedEstimatorName)).Some? ==> model.schemas == old(model.schemas) && model.nextId == old(model.nextId)
      ensures var t := TypeOf(SelectedEstimatorName).value;
        && |old(model.container.properties)| <= |provisioned|
        && model.container.addedEvents == old(model.container.addedEvents) + provisioned[|old(model.container.properties)|..] +
             (if |model.container.properties| > |provisioned| then [NewProperty(model.Snapshot(), t, value).value] else [])
        && (|model.container.properties| > |old(model.container.properties)| ==> model.container.dirty)
        && (|model.container.properties| == |old(model.container.properties)| ==> model.container.dirty == old(model.container.dirty))
    {
      var t := GetSelectedEstimatorIdPropertyType();
      provisioned := model.container.properties;
      StoreSelectedEstimator(t, value);
    }

    /** The SelectedEstimator setter's write, once the type is provisioned. */
    method StoreSelectedEstimator(t: PropertyType, value: Option<string>)
      modifies model.container`properties, model.container`dirty, model.container`addedEvents, model.container`subscriptions
      ensures model.container.properties == WithSelectedEstimator(old(model.container.properties), t, model.Snapshot(), value)
      ensures model.container.subscriptions == old(model.container.subscriptions) +
        (if |model.container.properties| > |old(model.container.properties)| && model.Snapshot().SchemaById(t.schemaId).Some?
         then [t.schemaId] else [])
      ensures |model.container.properties| > |old(model.container.properties)| ==>
        && NewProperty(model.Snapshot(), t, value).Some?
        && model.container.addedEvents == old(model.container.addedEvents) + [NewProperty(model.Snapshot(), t, value).value]
        && model.container.dirty
      ensures |model.container.properties| <= |old(model.container.properties)| ==> model.container.addedEvents == old(model.container.addedEvents)
      ensures old(model.container.dirty) ==> model.container.dirty
      ensures |old(model.container.properties)| <= |model.container.properties|
      ensures |model.container.properties| <= |old(model.container.properties)| ==> model.container.dirty == old(model.container.dirty)
    {
      match FirstOfType(model.container.properties, t.id)
      case None =>
        if value.Some? {
          var _ := model.container.AddProperty(Some(model.Snapshot()), Some(t), value);
        }
      case Some(k) =>
        model.container.SetValue(k, WithStringValue(model.container.properties[k].value, value));
    }

    /** Parameters getter: null unless the property exists and holds a configuration. */
    method GetParameters() returns (r: Option<seq<Parameter>>)
      requires model.Valid()
      modifies model`schemas, model`nextId, model.container`properties, model.container`dirty, model.container`addedEvents
      ensures model.Valid() && TypeOf(ParametersName).Some?
      ensures old(TypeOf(ParametersName)).Some? ==> TypeOf(ParametersName) == old(TypeOf(ParametersName))
      ensures old(TypeOf(ParametersName)).None? ==> TypeOf(ParametersName).value.kind == JsonSerializableObject && TypeOf(ParametersName).value.id >= old(model.nextId)
      ensures var t := TypeOf(ParametersName).value;
        && ProvisionEffect(old(model.container.properties), old(model.container.subscriptions),
                          old(TypeOf(ParametersName)).Some?, model.Snapshot(), t, model.container.properties)
        && r == ParametersOf(model.container.properties, t.id)
      ensures AppendsAnnounced(model.container)
      ensures forall n :: n != ParametersName ==> TypeOf(n) == old(TypeOf(n))
      ensures (model.schemas, model.nextId) == Provisioned(old(model.schemas), old(model.nextId), defaultNamespace, ParametersName, JsonSerializableObject, ParametersDescription)
      ensures old(TypeOf(ParametersName)).Some? ==> model.schemas == old(model.schemas) && model.nextId == old(model.nextId)
    {
      var t := GetParametersPropertyType();
      var property := model.container.GetProperty(Some(t));
      r := None;
      if property.Ok? && property.value.Some? {
        match property.value.value.value
        case Blob(Some(Configuration(parameters))) =>
          r := Some(parameters);
        case _ =>
      }
    }

    /**
     * Parameters setter: a present JSON property gets null or a configuration
     * holding a copy of the list, and is kept; otherwise a non-null list adds
     * a property and stores the configuration in it; null adds nothing.
     */
    method SetParameters(value: Option<seq<Parameter>>) returns (ghost provisioned: seq<Property>)
      requires model.Valid()
      modifies model`schemas, model`nextId, model.container`properties, model.container`dirty, model.container`addedEvents, model.container`subscriptions
      ensures model.Valid() && TypeOf(ParametersName).Some?
      ensures old(TypeOf(ParametersName)).Some? ==> TypeOf(ParametersName) == old(TypeOf(ParametersName))
      ensures old(TypeOf(ParametersName)).None? ==> TypeOf(ParametersName).value.kind == JsonSerializableObject && TypeOf(ParametersName).value.id >= old(model.nextId)
      ensures var t := TypeOf(ParametersName).value;
        && ProvisionEffect(old(model.container.properties), old(model.container.subscriptions),
                          old(TypeOf(ParametersName)).Some?, model.Snapshot(), t, provisioned)
        && model.container.properties == WithParameters(provisioned, t, model.Snapshot(), value)
        && model.container.subscriptions == old(model.container.subscriptions) +
             (if |model.container.properties| > |provisioned| then [t.schemaId] else [])
      ensures forall n :: n != ParametersName ==> TypeOf(n) == old(TypeOf(n))
      ensures (model.schemas, model.nextId) == Provisioned(old(model.schemas), old(model.nextId), defaultNamespace, ParametersName, JsonSerializableObject, ParametersDescription)
      ensures old(TypeOf(ParametersName)).Some? ==> model.schemas == old(model.schemas) && model.nextId == old(model.nextId)
      ensures var t := TypeOf(ParametersName).value;
        && |old(model.container.properties)| <= |provisioned|
        && model.container.addedEvents == old(model.container.addedEvents) + provisioned[|old(model.container.properties)|..] +
             (if |model.container.properties| > |provisioned| then [NewProperty(model.Snapshot(), t, None).value] else [])
        && (|model.container.properties| > |old(model.container.properties)| ==> model.container.dirty)
        && (|model.container.properties| == |old(model.container.properties)| ==> model.container.dirty == old(model.container.dirty))
    {
      var t := GetParametersPropertyType();
      provisioned := model.container.properties;
      StoreParameters(t, value);
    }

    /** The Parameters setter's write, once the type is provisioned. */
    method StoreParameters(t: PropertyType, value: Option<seq<Parameter>>)
      modifies model.container`properties, model.container`dirty, model.container`addedEvents, model.container`subscriptions
      ensures model.container.properties == WithParameters(old(model.container.properties), t, model.Snapshot(), value)
      ensures model.container.subscriptions == old(model.container.subscriptions) +
        (if |model.container.properties| > |old(model.container.properties)| && model.Snapshot().SchemaById(t.schemaId).Some?
         then [t.schemaId] else [])
      ensures |model.container.properties| > |old(model.container.properties)| ==>
        && NewProperty(model.Snapshot(), t, None).Some?
        && model.container.addedEvents == old(model.container.addedEvents) + [NewProperty(model.Snapshot(), t, None).value]
        && model.container.dirty
      ensures |model.container.properties| <= |old(model.container.properties)| ==> model.container.addedEvents == old(model.container.addedEvents)
      ensures old(model.container.dirty) ==> model.container.dirty
      ensures |old(model.container.properties)| <= |model.container.properties|
      ensures |model.container.properties| <= |old(model.container.properties)| ==> model.container.dirty == old(model.container.dirty)
    {
      var first := FirstOfType(model.container.properties, t.id);
      if first.Some? && model.container.properties[first.value].value.Blob? {
        model.container.SetValue(first.value, Blob(ConfigurationOf(value)));
      } else if value.Some? {
        var added := model.container.AddProperty(Some(model.Snapshot()), Some(t), None);
        if added.Ok? && added.value.Some? && added.value.value.value.Blob? {
          model.container.SetValue(|model.container.properties| - 1, Blob(ConfigurationOf(value)));
        }
      }
    }

    /** Infinite getter: the stored cap, or -1 when there is no decimal property. */
    method GetInfinite() returns (r: int)
      requires model.Valid()
      modifies model`schemas, model`nextId, model.container`properties, model.container`dirty, model.container`addedEvents
      ensures model.Valid() && TypeOf(InfiniteName).Some?
      ensures old(TypeOf(InfiniteName)).Some? ==> TypeOf(InfiniteName) == old(TypeOf(InfiniteName))
      ensures old(TypeOf(InfiniteName)).None? ==> TypeOf(InfiniteName).value.kind == Decimal && TypeOf(InfiniteName).value.id >= old(model.nextId)
      ensures var t := TypeOf(InfiniteName).value;
        && ProvisionEffect(old(model.container.properties), old(model.container.subscriptions),
                          old(TypeOf(InfiniteName)).Some?, model.Snapshot(), t, model.container.properties)
        && r == InfiniteOf(model.container.properties, t.id)
      ensures AppendsAnnounced(model.container)
      ensures forall n :: n != InfiniteName ==> TypeOf(n) == old(TypeOf(n))
      ensures (model.schemas, model.nextId) == Provisioned(old(model.schemas), old(model.nextId), defaultNamespace, InfiniteName, Decimal, InfiniteDescription)
      ensures old(TypeOf(InfiniteName)).Some? ==> model.schemas == old(model.schemas) && model.nextId == old(model.nextId)
    {
      var t := GetInfinitePropertyType();
      var property := model.container.GetProperty(Some(t));
      r := UnsetCap;
      if property.Ok? && property.value.Some? && property.value.value.value.Number? {
        r := property.value.value.value.number;
      }
    }

    /** Infinite setter: create the property when absent, then write the cap into it. */
    method SetInfinite(cap: int) returns (ghost provisioned: seq<Property>)
      requires model.Valid()
      modifies model`schemas, model`nextId, model.container`properties, model.container`dirty, model.container`addedEvents, model.container`subscriptions
      ensures model.Valid() && TypeOf(InfiniteName).Some?
      ensures old(TypeOf(InfiniteName)).Some? ==> TypeOf(InfiniteName) == old(TypeOf(InfiniteName))
      ensures old(TypeOf(InfiniteName)).None? ==> TypeOf(InfiniteName).value.kind == Decimal && TypeOf(InfiniteName).value.id >= old(model.nextId)
      ensures var t := TypeOf(InfiniteName).value;
        && ProvisionEffect(old(model.container.properties), old(model.container.subscriptions),
                          old(TypeOf(InfiniteName)).Some?, model.Snapshot(), t, provisioned)
        && model.container.properties == WithInfinite(provisioned, t, model.Snapshot(), cap)
        && model.container.subscriptions == old(model.container.subscriptions) +
             (if |model.container.properties| > |provisioned| then [t.schemaId] else [])
      ensures forall n :: n != InfiniteName ==> TypeOf(n) == old(TypeOf(n))
      ensures (model.schemas, model.nextId) == Provisioned(old(model.schemas), old(model.nextId), defaultNamespace, InfiniteName, Decimal, InfiniteDescription)
      ensures old(TypeOf(InfiniteName)).Some? ==> model.schemas == old(model.schemas) && model.nextId == old(model.nextId)
      ensures var t := TypeOf(InfiniteName).value;
        && |old(model.container.properties)| <= |provisioned|
        && model.container.addedEvents == old(model.container.addedEvents) + provisioned[|old(model.container.properties)|..] +
             (if |model.container.properties| > |provisioned| then [NewProperty(model.Snapshot(), t, None).value] else [])
        && (|model.container.properties| > |old(model.container.properties)| ==> model.container.dirty)
        && (|model.container.properties| == |old(model.container.properties)| ==> model.container.dirty == old(model.container.dirty))
    {
      var t := GetInfinitePropertyType();
      provisioned := model.container.properties;
      StoreInfinite(t, cap);
    }

    /** The Infinite setter's write, once the type is provisioned. */
    method StoreInfinite(t: PropertyType, cap: int)
      modifies model.container`properties, model.container`dirty, model.container`addedEvents, model.container`subscriptions
      ensures model.container.properties == WithInfinite(old(model.container.properties), t, model.Snapshot(), cap)
      ensures model.container.subscriptions == old(model.container.subscriptions) +
        (if |model.container.properties| > |old(model.container.properties)| && model.Snapshot().SchemaById(t.schemaId).Some?
         then [t.schemaId] else [])
      ensures |model.container.properties| > |old(model.container.properties)| ==>
        && NewProperty(model.Snapshot(), t, None).Some?
        && model.container.addedEvents == old(model.container.addedEvents) + [NewProperty(model.Snapshot(), t, None).value]
        && model.container.dirty
      ensures |model.container.properties| <= |old(model.container.properties)| ==> model.container.addedEvents == old(model.container.addedEvents)
      ensures old(model.container.dirty) ==> model.container.dirty
      ensures |old(model.container.properties)| <= |model.container.properties|
      ensures |model.container.properties| <= |old(model.container.properties)| ==> model.container.dirty == old(model.container.dirty)
    {
      var k: int := -1;
      match FirstOfType(model.container.properties, t.id) {
        case Some(i) =>
          k := i;
        case None =>
          var added := model.container.AddProperty(Some(model.Snapshot()), Some(t), None);
          if added.Ok? && added.value.Some? {
            k := |model.container.properties| - 1;
          }
      }
      if 0 <= k && model.container.properties[k].value.Number? {
        model.container.SetValue(k, Number(cap));
      }
    }

    /** Every stored property is bound to an id the model has already handed out. */
    ghost predicate IdsHandedOut()
      reads model, model.container
    {
      forall i :: 0 <= i < |model.container.properties| ==> model.container.properties[i].typeId < model.nextId
    }

    /** The type called `name`, when it exists, is of `kind`, and so are the values stored for it. */
    ghost predicate KindHeld(name: string, kind: ValueKind)
      reads model, model.container
    {
      match TypeOf(name)
      case None => true
      case Some(t) => t.kind == kind && ValuesOfKind(model.container.properties, t.id, kind)
    }

    /**
     * The SelectedEstimator setter followed by the getter reads back the id
     * that was set, unless a non-null id found no property and none could be
     * constructed.
     */
    method SelectedEstimatorSetThenGet(value: Option<string>) returns (r: Option<string>)
      requires model.Valid() && IdsHandedOut() && KindHeld(SelectedEstimatorName, SingleLineString)
      modifies model`schemas, model`nextId, model.container`properties, model.container`dirty, model.container`addedEvents, model.container`subscriptions
      ensures r == value || (value.Some? && SingleLineString !in model.constructible && r.None?)
      ensures old(TypeOf(SelectedEstimatorName)).Some? && HasType(old(model.container.properties), old(TypeOf(SelectedEstimatorName)).value.id) ==> r == value
    {
      ghost var before := model.container.properties;
      ghost var provisioned := SetSelectedEstimator(value);
      ghost var t := TypeOf(SelectedEstimatorName).value;
      assert ValuesOfKind(before, t.id, SingleLineString);
      ProvisionKeepsKinds(before, old(model.container.subscriptions), old(TypeOf(SelectedEstimatorName)).Some?,
                          model.Snapshot(), t, provisioned);
      if value.None? || HasType(provisioned, t.id) || SingleLineString in model.constructible {
        SelectedEstimatorRoundTrip(provisioned, t, model.Snapshot(), value);
      }
      r := GetSelectedEstimator();
    }

    /**
     * The Parameters setter followed by the getter reads back the list that
     * was set, unless a non-null list found no property and none could be
     * constructed.
     */
    method ParametersSetThenGet(value: Option<seq<Parameter>>) returns (r: Option<seq<Parameter>>)
      requires model.Valid() && IdsHandedOut() && KindHeld(ParametersName, JsonSerializableObject)
      modifies model`schemas, model`nextId, model.container`properties, model.container`dirty, model.container`addedEvents, model.container`subscriptions
      ensures r == value || (value.Some? && JsonSerializableObject !in model.constructible && r.None?)
      ensures old(TypeOf(ParametersName)).Some? && HasType(old(model.container.properties), old(TypeOf(ParametersName)).value.id) ==> r == value
    {
      ghost var before := model.container.properties;
      ghost var provisioned := SetParameters(value);
      ghost var t := TypeOf(ParametersName).value;
      assert ValuesOfKind(before, t.id, JsonSerializableObject);
      ProvisionKeepsKinds(before, old(model.container.subscriptions), old(TypeOf(ParametersName)).Some?,
                          model.Snapshot(), t, provisioned);
      if value.None? || HasType(provisioned, t.id) || JsonSerializableObject in model.constructible {
        ParametersRoundTrip(provisioned, t, model.Snapshot(), value);
      }
      r := GetParameters();
    }

    /**
     * The Infinite setter followed by the getter reads back the cap that was
     * set, unless no property existed and none could be constructed, when
     * the getter reports the unset sentinel.
     */
    method InfiniteSetThenGet(cap: int) returns (r: int)
      requires model.Valid() && IdsHandedOut() && KindHeld(InfiniteName, Decimal)
      modifies model`schemas, model`nextId, model.container`properties, model.container`dirty, model.container`addedEvents, model.container`subscriptions
      ensures r == cap || (Decimal !in model.constructible && r == UnsetCap)
      ensures old(TypeOf(InfiniteName)).Some? && HasType(old(model.container.properties), old(TypeOf(InfiniteName)).value.id) ==> r == cap
    {
      ghost var before := model.container.properties;
      ghost var provisioned := SetInfinite(cap);
      ghost var t := TypeOf(InfiniteName).value;
      assert ValuesOfKind(before, t.id, Decimal);
      ProvisionKeepsKinds(before, old(model.container.subscriptions), old(TypeOf(InfiniteName)).Some?,
                          model.Snapshot(), t, provisioned);
      if HasType(provisioned, t.id) || Decimal in model.constructible {
        InfiniteRoundTrip(provisioned, t, model.Snapshot(), cap);
      }
      r := GetInfinite();
    }

    /** The estimator half of ConfigureEstimatorAndCap: the cap type is still absent and every property's type id is handed out. */
    method ConfigureEstimator(id: string)
      requires model.Valid() && IdsHandedOut()
      requires TypeOf(SelectedEstimatorName).None? && TypeOf(InfiniteName).None?
      requires SingleLineString in model.constructible
      modifies model`schemas, model`nextId, model.container`properties, model.container`dirty, model.container`addedEvents, model.container`subscriptions
      ensures model.Valid() && IdsHandedOut()
      ensures TypeOf(SelectedEstimatorName).Some? && TypeOf(InfiniteName).None?
      ensures SelectedEstimatorOf(model.container.properties, TypeOf(SelectedEstimatorName).value.id) == Some(id)
    {
      ghost var before := model.container.properties;
      ghost var provisioned := SetSelectedEstimator(Some(id));
      ghost var se := TypeOf(SelectedEstimatorName).value;
      FreshEstimatorWrite(before, old(model.container.subscriptions), model.Snapshot(), se, provisioned, id);
      assert se.id < model.nextId by {
        var k := FindSchema(model.schemas, SchemaName, defaultNamespace).value;
        assert SchemaWellFormed(model.schemas[k], model.nextId);
      }
    }

    /**
     * Configuring an estimator and its cap on a model that has neither type
     * yet: the cap type is created after the container was attached to the
     * configuration schema, so its auto-added property is the one the cap is
     * written to, and neither write disturbs the other.
     */
    method ConfigureEstimatorAndCap(id: string, cap: int)
      requires model.Valid() && IdsHandedOut()
      requires TypeOf(SelectedEstimatorName).None? && TypeOf(InfiniteName).None?
      requires SingleLineString in model.constructible && Decimal in model.constructible
      modifies model`schemas, model`nextId, model.container`properties, model.container`dirty, model.container`addedEvents, model.container`subscriptions
      ensures model.Valid() && TypeOf(SelectedEstimatorName).Some? && TypeOf(InfiniteName).Some?
      ensures SelectedEstimatorOf(model.container.properties, TypeOf(SelectedEstimatorName).value.id) == Some(id)
      ensures InfiniteOf(model.container.properties, TypeOf(InfiniteName).value.id) == cap
    {
      ConfigureEstimator(id);
      ghost var se := TypeOf(SelectedEstimatorName).value;
      ghost var afterEstimator := model.container.properties;
      ghost var subscriptions := model.container.subscriptions;
      ghost var provisionedCap := SetInfinite(cap);
      ghost var inf := TypeOf(InfiniteName).value;
      ghost var reg' := model.Snapshot();
      ProvisionKeepsKinds(afterEstimator, subscriptions, false, reg', inf, provisionedCap);
      InfiniteRoundTrip(provisionedCap, inf, reg', cap);
      if provisionedCap != afterEstimator {
        AutoAddKeepsSelected(reg', afterEstimator, inf.schemaId, inf, se.id);
      }
      InfiniteWriteKeepsSelected(provisionedCap, inf, reg', cap, se.id);
    }

    /** The scenario end to end: after configuring both, each getter returns what was set. */
    method EstimatorAndCapScenario(id: string, cap: int) returns (selected: Option<string>, infinite: int)
      requires model.Valid() && IdsHandedOut()
      requires TypeOf(SelectedEstimatorName).None? && TypeOf(InfiniteName).None?
      requires SingleLineString in model.constructible && Decimal in model.constructible
      modifies model`schemas, model`nextId, model.container`properties, model.container`dirty, model.container`addedEvents, model.container`subscriptions
      ensures selected == Some(id) && infinite == cap
    {
      ConfigureEstimatorAndCap(id, cap);
      selected := GetSelectedEstimator();
      infinite := GetInfinite();
    }
  }
}
