/**
 * The properties container engine: an ordered, lazily created list of
 * properties with has/get/add/remove, idempotent event subscription, the
 * handlers that keep the list in step with schema changes, and the
 * re-subscription step run after deserialization.
 */
module PropertiesContainers {
  import opened Store

  /** The `add` accessor of an event: a handler already registered is not added again. */
  function Subscribe(hs: seq<Handler>, h: Handler): (r: seq<Handler>)
    ensures h in r
    ensures forall x :: x in r <==> x in hs || x == h
    ensures NoDuplicates(hs) ==> NoDuplicates(r)
    ensures h in hs ==> r == hs
  {
    if h in hs then hs else hs + [h]
  }

  lemma SubscribeIdempotent(hs: seq<Handler>, h: Handler)
    ensures Subscribe(Subscribe(hs, h), h) == Subscribe(hs, h)
  {
  }

  /**
   * Between two states the container only gained properties at the end,
   * each announced once by PropertyAdded, and dirty was set exactly when it
   * gained one (what the type-added handler does, however it is reached).
   */
  twostate predicate AppendsAnnounced(c: PropertiesContainer)
    reads c
  {
    && |old(c.properties)| <= |c.properties|
    && c.properties[..|old(c.properties)|] == old(c.properties)
    && c.addedEvents == old(c.addedEvents) + c.properties[|old(c.properties)|..]
    && c.dirty == (old(c.dirty) || |c.properties| > |old(c.properties)|)
  }

  class PropertiesContainer {
    /** The stored properties, in insertion order (a never-created list is empty). */
    var properties: seq<Property>
    /** The document's dirty flag. */
    var dirty: bool
    /** Invocation lists of PropertyAdded, PropertyRemoved and PropertyValueChanged. */
    var propertyAddedHandlers: seq<Handler>
    var propertyRemovedHandlers: seq<Handler>
    var propertyValueChangedHandlers: seq<Handler>
    /** Every raise of PropertyAdded and PropertyRemoved, with the property it carried. */
    var addedEvents: seq<Property>
    var removedEvents: seq<Property>
    /** Ids of the schemas whose type-added/type-removed events this container was attached to, per attach. */
    var subscriptions: seq<Guid>

    /** Each handler is registered at most once on each event. */
    ghost predicate Valid()
      reads this
    {
      && NoDuplicates(propertyAddedHandlers)
      && NoDuplicates(propertyRemovedHandlers)
      && NoDuplicates(propertyValueChangedHandlers)
    }

    /** A container whose property list was restored from persisted state (no live links yet). */
    constructor (restored: seq<Property>)
      ensures Valid()
      ensures properties == restored && !dirty
      ensures propertyAddedHandlers == [] && propertyRemovedHandlers == [] && propertyValueChangedHandlers == []
      ensures addedEvents == [] && removedEvents == [] && subscriptions == []
    {
      properties := restored;
      dirty := false;
      propertyAddedHandlers, propertyRemovedHandlers, propertyValueChangedHandlers := [], [], [];
      addedEvents, removedEvents, subscriptions := [], [], [];
    }

    method AddPropertyAddedHandler(h: Handler)
      requires Valid()
      modifies this`propertyAddedHandlers
      ensures Valid()
      ensures propertyAddedHandlers == Subscribe(old(propertyAddedHandlers), h)
    {
      if h !in propertyAddedHandlers {
        propertyAddedHandlers := propertyAddedHandlers + [h];
      }
    }

    method AddPropertyRemovedHandler(h: Handler)
      requires Valid()
      modifies this`propertyRemovedHandlers
      ensures Valid()
      ensures propertyRemovedHandlers == Subscribe(old(propertyRemovedHandlers), h)
    {
      if h !in propertyRemovedHandlers {
        propertyRemovedHandlers := propertyRemovedHandlers + [h];
      }
    }

    method AddPropertyValueChangedHandler(h: Handler)
      requires Valid()
      modifies this`propertyValueChangedHandlers
      ensures Valid()
      ensures propertyValueChangedHandlers == Subscribe(old(propertyValueChangedHandlers), h)
    {
      if h !in propertyValueChangedHandlers {
        propertyValueChangedHandlers := propertyValueChangedHandlers + [h];
      }
    }

    /** HasProperty: a null type is rejected; otherwise whether some property is bound to the type. */
    function HasProperty(t: Option<PropertyType>): (r: Result<bool>)
      reads this
      ensures t.None? ==> r == Err(ArgumentNull)
      ensures t.Some? ==>
        r.Ok? && (r.value <==> exists i :: 0 <= i < |properties| && properties[i].typeId == t.value.id)
    {
      if t.None? then Err(ArgumentNull)
      else
        HasTypeIff(properties, t.value.id);
        Ok(HasType(properties, t.value.id))
    }

    /** GetProperty: a null type is rejected; otherwise the first property bound to the type, if any. */
    function GetProperty(t: Option<PropertyType>): (r: Result<Option<Property>>)
      reads this
      ensures t.None? ==> r == Err(ArgumentNull)
      ensures t.Some? ==> r.Ok?
      ensures t.Some? && r.Ok? && r.value.Some? ==>
        exists k :: 0 <= k < |properties| && properties[k] == r.value.value &&
          properties[k].typeId == t.value.id &&
          forall j :: 0 <= j < k ==> properties[j].typeId != t.value.id
      ensures t.Some? && r.Ok? && r.value.None? ==>
        forall j :: 0 <= j < |properties| ==> properties[j].typeId != t.value.id
    {
      if t.None? then Err(ArgumentNull)
      else match FirstOfType(properties, t.value.id)
        case None => Ok(None)
        case Some(k) => Ok(Some(properties[k]))
    }

    /**
     * InternalAddProperty: construct a property of the type's kind holding
     * `value`; on success append it, set dirty and raise PropertyAdded once.
     * No check is made for an existing property of the same type.
     */
    method InternalAddProperty(reg: Registry, t: PropertyType, value: Option<string>) returns (r: Option<Property>)
      modifies this`properties, this`dirty, this`addedEvents
      ensures r == NewProperty(reg, t, value)
      ensures r.None? ==> unchanged(this)
      ensures r.Some? ==> properties == old(properties) + [r.value] && dirty
      ensures r.Some? ==> addedEvents == old(addedEvents) + [r.value]
    {
      r := NewProperty(reg, t, value);
      if r.Some? {
        properties := properties + [r.value];
        dirty := true;
        addedEvents := addedEvents + [r.value];
      }
    }

    /** In-place write of the value of the property at index `k` (the property's value setters). */
    method SetValue(k: nat, v: Value)
      requires k < |properties|
      modifies this`properties
      ensures properties == old(properties)[k := Property(old(properties)[k].typeId, v)]
    {
      properties := properties[k := Property(properties[k].typeId, v)];
    }

    /**
     * AddProperty: without a model nothing happens and the result is null;
     * a null type then fails on dereference; otherwise the property is added
     * as InternalAddProperty does and, when it was created and its schema
     * exists, the container attaches to that schema's events.
     */
    method AddProperty(reg: Option<Registry>, t: Option<PropertyType>, value: Option<string>)
      returns (r: Result<Option<Property>>)
      modifies this`properties, this`dirty, this`addedEvents, this`subscriptions
      ensures reg.None? ==> r == Ok(None) && unchanged(this)
      ensures reg.Some? && t.None? ==> r == Err(NullReference) && unchanged(this)
      ensures reg.Some? && t.Some? ==> r == Ok(NewProperty(reg.value, t.value, value))
      ensures r.Ok? && r.value.None? ==> unchanged(this)
      ensures r.Ok? && r.value.Some? ==>
        && properties == old(properties) + [r.value.value]
        && dirty
        && addedEvents == old(addedEvents) + [r.value.value]
        && subscriptions == old(subscriptions) +
             (if reg.value.SchemaById(t.value.schemaId).Some? then [t.value.schemaId] else [])
    {
      if reg.None? {
        return Ok(None);
      }
      if t.None? {
        return Err(NullReference);
      }
      var p := InternalAddProperty(reg.value, t.value, value);
      r := Ok(p);
      if p.Some? {
        var schema := reg.value.SchemaById(t.value.schemaId);
        if schema.Some? {
          subscriptions := subscriptions + [schema.value.id];
        }
      }
    }

    /** Handler of a schema's type-removed event: delegates to RemoveProperty(type). */
    method OnPropertyTypeRemoved(schema: Option<Schema>, t: Option<PropertyType>) returns (r: Result<bool>)
      modifies this`properties, this`dirty, this`removedEvents
      ensures t.None? ==> r == Err(ArgumentNull) && unchanged(this)
      ensures t.Some? ==> r == Ok(HasType(old(properties), t.value.id))
      ensures t.Some? ==> properties == RemoveFirst(old(properties), t.value.id)
      ensures t.Some? && r.value ==>
        dirty && removedEvents == old(removedEvents) + [old(properties)[FirstOfType(old(properties), t.value.id).value]]
      ensures t.Some? && !r.value ==> dirty == old(dirty) && removedEvents == old(removedEvents)
    {
      r := RemoveProperty(t);
    }

    /**
     * Handler of a schema's type-added event: with a model, a schema and a
     * type, a container that lacks the type but holds a property of the same
     * schema gains a default-valued property of it; otherwise nothing changes.
     */
    method OnPropertyTypeAdded(reg: Option<Registry>, schema: Option<Schema>, t: Option<PropertyType>)
      modifies this`properties, this`dirty, this`addedEvents
      ensures reg.Some? && schema.Some? && t.Some? ==>
        properties == AfterTypeAdded(reg.value, old(properties), schema.value.id, t.value)
      ensures reg.None? || schema.None? || t.None? ==> unchanged(this)
      ensures |properties| == |old(properties)| ==> unchanged(this)
      ensures |properties| != |old(properties)| ==>
        dirty && addedEvents == old(addedEvents) + [properties[|properties| - 1]]
    {
      if reg.Some? && schema.Some? && t.Some? {
        var has := HasProperty(t);
        if has == Ok(false) && Enrolled(reg.value, properties, schema.value.id) {
          var _ := InternalAddProperty(reg.value, t.value, None);
        }
      }
    }

    /**
     * RemoveProperty(type): a null type is rejected; otherwise only the first
     * property bound to the type is removed, the others keep their order, and
     * dirty and PropertyRemoved happen only when something was removed.
     */
    method RemoveProperty(t: Option<PropertyType>) returns (r: Result<bool>)
      modifies this`properties, this`dirty, this`removedEvents
      ensures t.None? ==> r == Err(ArgumentNull) && unchanged(this)
      ensures t.Some? ==> r == Ok(HasType(old(properties), t.value.id))
      ensures t.Some? ==> properties == RemoveFirst(old(properties), t.value.id)
      ensures t.Some? && r.value ==>
        dirty && removedEvents == old(removedEvents) + [old(properties)[FirstOfType(old(properties), t.value.id).value]]
      ensures t.Some? && !r.value ==> dirty == old(dirty) && removedEvents == old(removedEvents)
    {
      if t.None? {
        return Err(ArgumentNull);
      }
      r := Ok(false);
      var found := FirstOfType(properties, t.value.id);
      if found.Some? {
        // List.Remove of the object GetProperty returned: the element at that index
        var k := found.value;
        var p := properties[k];
        properties := properties[..k] + properties[k + 1..];
        r := Ok(true);
        dirty := true;
        removedEvents := removedEvents + [p];
      }
    }

    /** List.Remove of one snapshot entry, raising PropertyRemoved when it was there. */
    method RemoveAndRaise(p: Property) returns (removed: bool)
      modifies this`properties, this`removedEvents
      ensures removed == (p in old(properties))
      ensures properties == RemoveEqual(old(properties), p)
      ensures removedEvents == old(removedEvents) + (if removed then [p] else [])
    {
      removed := p in properties;
      if removed {
        properties := RemoveEqual(properties, p);
        removedEvents := removedEvents + [p];
      }
    }

    /**
     * The foreach of RemoveProperty(id) over the snapshot of matches: each is
     * still present when its turn comes, so each is removed and announced.
     */
    method RemoveEach(id: Guid, matches: seq<Property>) returns (r: bool)
      requires matches == OfType(properties, id)
      modifies this`properties, this`removedEvents
      ensures properties == WithoutType(old(properties), id)
      ensures removedEvents == old(removedEvents) + matches
      ensures r == (|matches| > 0)
    {
      r := false;
      ghost var ps := properties;
      DropNone(ps, id);
      var i := 0;
      while i < |matches|
        invariant 0 <= i <= |matches|
        invariant properties == DropFirst(ps, id, i)
        invariant removedEvents == old(removedEvents) + matches[..i]
        invariant r == (i > 0)
      {
        var p := matches[i];
        assert matches[..i + 1] == matches[..i] + [p];
        DropStep(ps, id, i);
        var removed := RemoveAndRaise(p);
        r := r || removed;
        i := i + 1;
      }
      assert matches[..i] == matches;
      DropAll(ps, id);
    }

    /**
     * RemoveProperty(id): every property bound to the type id is removed, one
     * PropertyRemoved per removed property in list order, the others keep
     * their order, and the result says whether anything was removed.
     */
    method RemovePropertyById(id: Guid) returns (r: bool)
      modifies this`properties, this`dirty, this`removedEvents
      ensures r == HasType(old(properties), id)
      ensures properties == WithoutType(old(properties), id)
      ensures !HasType(properties, id)
      ensures removedEvents == old(removedEvents) + OfType(old(properties), id)
      ensures dirty == (old(dirty) || r)
    {
      r := false;
      var matches := OfType(properties, id);
      HasTypeIffOfType(properties, id);
      if |matches| > 0 {
        r := RemoveEach(id, matches);
        if r {
          dirty := true;
        }
      } else {
        DropNone(properties, id);
        DropAll(properties, id);
      }
    }

    /**
     * PostDeserialization: attach once to each distinct schema referenced by
     * the stored properties, in order of first reference. Every referenced
     * schema must exist: the schema found is dereferenced without a check.
     */
    method PostDeserialization(reg: Option<Registry>)
      requires reg.Some? ==> forall sid :: sid in SchemaRefs(reg.value, properties) ==> reg.value.SchemaById(sid).Some?
      modifies this`subscriptions
      ensures reg.None? ==> subscriptions == old(subscriptions)
      ensures reg.Some? ==> subscriptions == old(subscriptions) + Distinct(SchemaRefs(reg.value, properties))
    {
      if reg.Some? {
        var schemas := Distinct(SchemaRefs(reg.value, properties));
        if |schemas| > 0 {
          var i := 0;
          while i < |schemas|
            invariant 0 <= i <= |schemas|
            invariant subscriptions == old(subscriptions) + schemas[..i]
          {
            var schema := reg.value.SchemaById(schemas[i]);
            subscriptions := subscriptions + [schema.value.id];
            i := i + 1;
          }
          assert schemas[..i] == schemas;
        }
      }
    }
  }
}
