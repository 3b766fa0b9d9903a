# Schema-driven property store of Threats Manager, modelled in Dafny

Threats Manager lets model elements carry "properties": typed values bound to
property types that live in named, namespaced schemas. Schemas can change at
run time, and every element that holds properties keeps its list in step with
them.

This project models two parts of that store:

- **The properties container** (`PropertiesContainerAspect`). It holds an
  ordered list of properties and offers has/get/add and two removes: the first
  match by type, or all matches by type id. Adding an event handler is
  idempotent. Two handlers react to schema changes: a type added to a schema the
  container is enrolled in gets a default-valued property, and a removed type
  loses its property. After deserialization, the container attaches again to
  every distinct schema its properties refer to.
  - `store.dfy`, module `Store`: the value types and the pure list functions
    the container is specified with, and the lemmas about them.
  - `container.dfy`, module `PropertiesContainers`: class
    `PropertiesContainer`.
- **The residual risk estimator configuration** (`ResidualRiskEstimatorPropertySchemaManager`).
  It gets or creates one schema and three property types. It offers typed
  getters and setters for the selected estimator's id, the estimator
  parameters and the infinite cap.
  - `estimator.dfy`, module `ResidualRiskEstimator`.
  - `threat_model.dfy`, module `ThreatModels`: the threat model it works on.
    The model is a schema registry that owns its own properties container.

How the model is built:

- Properties are values `Property(typeId, value)`. Writing a property's value
  in place replaces the element at the same index.
- The C# `null` is `None` of an `Option`. The exceptions the code throws are
  `Err` results: `ArgumentNullException` is `ArgumentNull` and a null
  dereference is `NullReference`.
- Container operations receive the owning model as `Option<Registry>`. `None`
  means the model reference is null. `Some` holds the model's schemas and the
  set of value kinds whose property class can be instantiated. This set
  abstracts the reflective construction, which may fail.
- The global dirty flag is the container's `dirty` field.
- Event invocation lists are sequences of handler ids.
- Every raise of PropertyAdded or PropertyRemoved is appended to a log
  (`addedEvents`, `removedEvents`), so "raised once" is a statement about the
  log.
- Each attach to a schema's type-added/type-removed events is appended to
  `subscriptions`. When a type is added to a schema, the model's own container
  is notified if that schema's id is in its `subscriptions`.

One consequence of the two parts working together is proved. When the
selected-estimator setter adds its property, AddProperty attaches the model's
own container to the configuration schema. If "Infinite Cap" is created later,
by the cap getter, the container is told and adds a property holding 0. So
that first read of the cap returns 0, not -1 (`CapReadAfterAutoAdd`).

## Model

| member | source | states |
|---|---|---|
| `PropertiesContainers.Subscribe` | Sources/ThreatsManager.Utilities/Aspects/Engine/PropertiesContainerAspect.cs:60-66 | subscribing adds the handler and nothing else, is a no-op when it is already registered, and keeps each handler registered at most once |
| `PropertiesContainers.PropertiesContainer.AddPropertyAddedHandler` | Sources/ThreatsManager.Utilities/Aspects/Engine/PropertiesContainerAspect.cs:58-68 | the `add` accessor of PropertyAdded is the idempotent subscribe and keeps the invocation list duplicate-free |
| `PropertiesContainers.PropertiesContainer.AddPropertyRemovedHandler` | Sources/ThreatsManager.Utilities/Aspects/Engine/PropertiesContainerAspect.cs:73-83 | the same for PropertyRemoved |
| `PropertiesContainers.PropertiesContainer.AddPropertyValueChangedHandler` | Sources/ThreatsManager.Utilities/Aspects/Engine/PropertiesContainerAspect.cs:88-98 | the same for PropertyValueChanged |
| `PropertiesContainers.PropertiesContainer.HasProperty` | Sources/ThreatsManager.Utilities/Aspects/Engine/PropertiesContainerAspect.cs:103-110 | a null type is rejected with ArgumentNull; otherwise true iff some stored property has the type's id (false for an empty or never-created list) |
| `PropertiesContainers.PropertiesContainer.GetProperty` | Sources/ThreatsManager.Utilities/Aspects/Engine/PropertiesContainerAspect.cs:112-119 | a null type is rejected; otherwise the first property in list order bound to the type, or null when there is none |
| `Store.FirstOfType` | Sources/ThreatsManager.Utilities/Aspects/Engine/PropertiesContainerAspect.cs:118 | the index found is the first one whose property has the type id; no index matches when it returns none |
| `PropertiesContainers.PropertiesContainer.InternalAddProperty` | Sources/ThreatsManager.Utilities/Aspects/Engine/PropertiesContainerAspect.cs:145-172 | when construction fails nothing changes; otherwise exactly that property is appended at the end, dirty is set, and PropertyAdded is raised once with it, with no check for an existing property of the type |
| `PropertiesContainers.PropertiesContainer.AddProperty` | Sources/ThreatsManager.Utilities/Aspects/Engine/PropertiesContainerAspect.cs:121-143 | with no model the result is null and nothing changes; a null type fails on dereference; otherwise the effect of InternalAddProperty, plus one attach to the type's schema when the property was created and the schema exists |
| `PropertiesContainers.PropertiesContainer.RemoveProperty` | Sources/ThreatsManager.Utilities/Aspects/Engine/PropertiesContainerAspect.cs:189-209 | a null type is rejected; otherwise the result is true iff a property of the type existed, the list loses exactly its first such property, and dirty and PropertyRemoved (with that property) happen only then |
| `Store.RemoveFirstEffect` | Sources/ThreatsManager.Utilities/Aspects/Engine/PropertiesContainerAspect.cs:197-200 | removing the first match removes one property of the type when there is one, leaves the properties of every other type untouched, and keeps the non-matching properties in order |
| `PropertiesContainers.PropertiesContainer.RemovePropertyById` | Sources/ThreatsManager.Utilities/Aspects/Engine/PropertiesContainerAspect.cs:211-235 | afterwards no property with the id remains; the others are kept in order; PropertyRemoved is raised once per removed property in list order; the result is true iff one existed; dirty is set only then |
| `PropertiesContainers.PropertiesContainer.RemoveEach` | Sources/ThreatsManager.Utilities/Aspects/Engine/PropertiesContainerAspect.cs:219-226 | the foreach over the snapshot of matches removes every one of them, announcing each once in order, and leaves exactly the properties of other types |
| `PropertiesContainers.PropertiesContainer.RemoveAndRaise` | Sources/ThreatsManager.Utilities/Aspects/Engine/PropertiesContainerAspect.cs:221-225 | List.Remove drops the first equal element and reports whether there was one; PropertyRemoved is raised only then |
| `Store.WithoutType` | Sources/ThreatsManager.Utilities/Aspects/Engine/PropertiesContainerAspect.cs:216-226 | the list left by the bulk remove holds exactly the properties of other types, and together with the removed ones accounts for the whole list |
| `Store.OfType` | Sources/ThreatsManager.Utilities/Aspects/Engine/PropertiesContainerAspect.cs:216 | the snapshot of matches holds exactly the stored properties of that type id |
| `Store.HasTypeIffOfType` | Sources/ThreatsManager.Utilities/Aspects/Engine/PropertiesContainerAspect.cs:216-217 | the snapshot of matches is non-empty iff the list has a property of the type |
| `Store.DropStep` | Sources/ThreatsManager.Utilities/Aspects/Engine/PropertiesContainerAspect.cs:219-226 | in each iteration the snapshot's next match is still in the list, so List.Remove succeeds and removes exactly the next property of the type |
| `Store.DropAll` | Sources/ThreatsManager.Utilities/Aspects/Engine/PropertiesContainerAspect.cs:219-226 | once every match of the snapshot is removed, the list is exactly its properties of other types, in order |
| `PropertiesContainers.PropertiesContainer.OnPropertyTypeRemoved` | Sources/ThreatsManager.Utilities/Aspects/Engine/PropertiesContainerAspect.cs:174-177 | the type-removed handler has exactly the effect and outcome of RemoveProperty(type): when it removes, dirty is set and PropertyRemoved is raised once with the first property of the type; otherwise dirty and the event log are untouched |
| `PropertiesContainers.PropertiesContainer.OnPropertyTypeAdded` | Sources/ThreatsManager.Utilities/Aspects/Engine/PropertiesContainerAspect.cs:179-187 | with a model, a schema and a type, the list becomes AfterTypeAdded (one null-valued property appended iff the type is absent and the container is enrolled in the schema); otherwise nothing changes; an append sets dirty and raises PropertyAdded once |
| `Store.SchemaRefs` | Sources/ThreatsManager.Utilities/Aspects/Engine/PropertiesContainerAspect.cs:244-247 | a schema id is referenced iff some stored property's type resolves to a type of that schema, which is also what enrollment (line 184) tests |
| `Store.AfterTypeAddedGainsOne` | Sources/ThreatsManager.Utilities/Aspects/Engine/PropertiesContainerAspect.cs:179-187 | when the auto-add fires, every earlier property is kept in order and the container ends with exactly one property of the new type |
| `Store.AfterTypeAddedIdempotent` | Sources/ThreatsManager.Utilities/Aspects/Engine/PropertiesContainerAspect.cs:182 | a second notification for the same type changes nothing, because the type is then present |
| `Store.Distinct` | Sources/ThreatsManager.Utilities/Aspects/Engine/PropertiesContainerAspect.cs:248 | Distinct has no duplicates and holds exactly the ids of its input |
| `Store.DistinctOfDistinct` | Sources/ThreatsManager.Utilities/Aspects/Engine/PropertiesContainerAspect.cs:248 | Distinct leaves a duplicate-free list as it is |
| `Store.DistinctPrefix` | Sources/ThreatsManager.Utilities/Aspects/Engine/PropertiesContainerAspect.cs:248 | the distinct ids of a prefix come first, in the same order, among the distinct ids of the whole list, so Distinct keeps first-occurrence order |
| `PropertiesContainers.PropertiesContainer.PostDeserialization` | Sources/ThreatsManager.Utilities/Aspects/Engine/PropertiesContainerAspect.cs:242-263 | given that every referenced schema exists, the container attaches once per distinct referenced schema id, in order of first reference; it does nothing when there is no model or no property |
| `ThreatModels.ThreatModel.AddPropertyType` | Sources/Extensions/ThreatsManager.Extensions/Schemas/ResidualRiskEstimatorPropertySchemaManager.cs:51 | a new type gets a fresh id and is appended to its schema; the schema's type-added event reaches the model's own container exactly when it is attached to that schema, and the container's list only grows, each appended property raising PropertyAdded once and setting dirty |
| `ResidualRiskEstimator.ResidualRiskEstimatorPropertySchemaManager.GetSchema` | Sources/Extensions/ThreatsManager.Extensions/Schemas/ResidualRiskEstimatorPropertySchemaManager.cs:23-38 | the existing schema ("Residual Risk Estimator Configuration", default namespace) is returned and the model is unchanged; otherwise one is added with AppliesTo=ThreatModel, AutoApply=false, Priority=100, Visible=false, System=true; afterwards a lookup finds it, so a second call adds nothing |
| `ResidualRiskEstimator.ResidualRiskEstimatorPropertySchemaManager.GetOrAddType` | Sources/Extensions/ThreatsManager.Extensions/Schemas/ResidualRiskEstimatorPropertySchemaManager.cs:40-98 | returns the type of that name in the schema, leaving model and container unchanged when it exists; otherwise adds a hidden one of the given kind with the next id; the schema list and next id become exactly `Provisioned` of the old ones, so no other schema or type changes; the lookup of every other name is unchanged; an auto-added property is announced and sets dirty |
| `ResidualRiskEstimator.ResidualRiskEstimatorPropertySchemaManager.AddConfigType` | Sources/Extensions/ThreatsManager.Extensions/Schemas/ResidualRiskEstimatorPropertySchemaManager.cs:47-54 | on the configuration schema at index k: an existing type is returned with nothing changed; otherwise the type, hidden and with the next id, is appended to that schema alone and the schema event reaches the container |
| `ResidualRiskEstimator.ResidualRiskEstimatorPropertySchemaManager.GetSelectedEstimatorIdPropertyType` | Sources/Extensions/ThreatsManager.Extensions/Schemas/ResidualRiskEstimatorPropertySchemaManager.cs:40-58 | get-or-create of the hidden single-line-string type "Selected Estimator": once it exists, calls change nothing; otherwise the schema list and next id become exactly `Provisioned` of the old ones, the container gains at most the auto-added property, announced once, and the other configuration types are unchanged |
| `ResidualRiskEstimator.ResidualRiskEstimatorPropertySchemaManager.GetParametersPropertyType` | Sources/Extensions/ThreatsManager.Extensions/Schemas/ResidualRiskEstimatorPropertySchemaManager.cs:60-78 | get-or-create of the hidden JSON type "Estimator Parameters": once it exists, calls change nothing; otherwise the schema list and next id become exactly `Provisioned` of the old ones, the container gains at most the auto-added property, announced once, and the other configuration types are unchanged |
| `ResidualRiskEstimator.ResidualRiskEstimatorPropertySchemaManager.GetInfinitePropertyType` | Sources/Extensions/ThreatsManager.Extensions/Schemas/ResidualRiskEstimatorPropertySchemaManager.cs:80-98 | get-or-create of the hidden decimal type "Infinite Cap": once it exists, calls change nothing; otherwise the schema list and next id become exactly `Provisioned` of the old ones, the container gains at most the auto-added property, announced once, and the other configuration types are unchanged |
| `ResidualRiskEstimator.ResidualRiskEstimatorPropertySchemaManager.GetSelectedEstimator` | Sources/Extensions/ThreatsManager.Extensions/Schemas/ResidualRiskEstimatorPropertySchemaManager.cs:102-115 | after provisioning the type, the result is the id stored in the first property of the type, or null when there is none; when the type exists the schema list and next id are unchanged, and otherwise they become `Provisioned` of the old ones; the other configuration types are unchanged |
| `ResidualRiskEstimator.ResidualRiskEstimatorPropertySchemaManager.SetSelectedEstimator` | Sources/Extensions/ThreatsManager.Extensions/Schemas/ResidualRiskEstimatorPropertySchemaManager.cs:117-136 | after provisioning the type, the list becomes WithSelectedEstimator of it; a setter that adds the property attaches the container to the configuration schema, raises PropertyAdded once with it and sets dirty, and one that only writes in place leaves dirty as it was; when the type exists the schema list and next id are unchanged, and otherwise they become `Provisioned` of the old ones; the other configuration types are unchanged |
| `ResidualRiskEstimator.ResidualRiskEstimatorPropertySchemaManager.StoreSelectedEstimator` | Sources/Extensions/ThreatsManager.Extensions/Schemas/ResidualRiskEstimatorPropertySchemaManager.cs:122-134 | the write on the provisioned type: present property overwritten in place, absent property added only for a non-null id, through AddProperty with its attach |
| `ResidualRiskEstimator.ResidualRiskEstimatorPropertySchemaManager.SelectedEstimatorSetThenGet` | Sources/Extensions/ThreatsManager.Extensions/Schemas/ResidualRiskEstimatorPropertySchemaManager.cs:102-136 | on a model whose stored values match their types' kinds, the getter after the setter returns the id set, null included, and always does when a property of the type already existed; otherwise only a non-null id with no constructible text property can read back null |
| `ResidualRiskEstimator.SelectedEstimatorRoundTrip` | Sources/Extensions/ThreatsManager.Extensions/Schemas/ResidualRiskEstimatorPropertySchemaManager.cs:117-136 | a get after a set returns the id set (null included) whenever a property exists or can be created; absent property and null value create nothing; a present first property stays the first one, overwritten in place |
| `ResidualRiskEstimator.ResidualRiskEstimatorPropertySchemaManager.GetParameters` | Sources/Extensions/ThreatsManager.Extensions/Schemas/ResidualRiskEstimatorPropertySchemaManager.cs:139-156 | after provisioning the type, the parameters of the configuration held by the first property, and null when it is absent or holds no configuration; when the type exists the schema list and next id are unchanged, and otherwise they become `Provisioned` of the old ones; the other configuration types are unchanged |
| `ResidualRiskEstimator.ResidualRiskEstimatorPropertySchemaManager.SetParameters` | Sources/Extensions/ThreatsManager.Extensions/Schemas/ResidualRiskEstimatorPropertySchemaManager.cs:158-190 | after provisioning the type, the list becomes WithParameters of it; a setter that adds the property attaches the container to the configuration schema, raises PropertyAdded once with it and sets dirty, and one that only writes in place leaves dirty as it was; when the type exists the schema list and next id are unchanged, and otherwise they become `Provisioned` of the old ones; the other configuration types are unchanged |
| `ResidualRiskEstimator.ResidualRiskEstimatorPropertySchemaManager.StoreParameters` | Sources/Extensions/ThreatsManager.Extensions/Schemas/ResidualRiskEstimatorPropertySchemaManager.cs:163-187 | the write on the provisioned type: a JSON property gets null or the configuration, otherwise a non-null list adds a property through AddProperty and stores the configuration in it |
| `ResidualRiskEstimator.ResidualRiskEstimatorPropertySchemaManager.ParametersSetThenGet` | Sources/Extensions/ThreatsManager.Extensions/Schemas/ResidualRiskEstimatorPropertySchemaManager.cs:139-190 | on a model whose stored values match their types' kinds, the getter after the setter returns the list set, null included, and always does when a property of the type already existed; otherwise only a non-null list with no constructible JSON property can read back null |
| `ResidualRiskEstimator.ParametersRoundTrip` | Sources/Extensions/ThreatsManager.Extensions/Schemas/ResidualRiskEstimatorPropertySchemaManager.cs:158-190 | a get after a set returns the list set (null included) whenever a property exists or can be created; null with no property creates nothing; a present first property stays the first one, so null clears its value and keeps it |
| `ResidualRiskEstimator.ResidualRiskEstimatorPropertySchemaManager.GetInfinite` | Sources/Extensions/ThreatsManager.Extensions/Schemas/ResidualRiskEstimatorPropertySchemaManager.cs:192-207 | after provisioning the type, the cap held by the first property when it is decimal, else the sentinel -1; when the type exists the schema list and next id are unchanged, and otherwise they become `Provisioned` of the old ones; the other configuration types are unchanged |
| `ResidualRiskEstimator.ResidualRiskEstimatorPropertySchemaManager.SetInfinite` | Sources/Extensions/ThreatsManager.Extensions/Schemas/ResidualRiskEstimatorPropertySchemaManager.cs:209-223 | after provisioning the type, the list becomes WithInfinite of it: the property is created when absent, then the cap is written; creating it attaches the container to the configuration schema, raises PropertyAdded once and sets dirty, and an in-place write leaves dirty as it was; when the type exists the schema list and next id are unchanged, and otherwise they become `Provisioned` of the old ones; the other configuration types are unchanged |
| `ResidualRiskEstimator.ResidualRiskEstimatorPropertySchemaManager.StoreInfinite` | Sources/Extensions/ThreatsManager.Extensions/Schemas/ResidualRiskEstimatorPropertySchemaManager.cs:214-220 | the write on the provisioned type: the first property, or the one AddProperty creates, gets the cap when it is decimal |
| `ResidualRiskEstimator.CapReadAfterAutoAdd` | Sources/Extensions/ThreatsManager.Extensions/Schemas/ResidualRiskEstimatorPropertySchemaManager.cs:194-207 | when the container holds a property of the configuration schema and is attached to it, the read that creates "Infinite Cap" finds the auto-added decimal property and returns 0, where the list before the auto-add reads as -1 |
| `ResidualRiskEstimator.ProvisionKeepsKinds` | Sources/Extensions/ThreatsManager.Extensions/Schemas/ResidualRiskEstimatorPropertySchemaManager.cs:80-98 | provisioning a type keeps every value stored for it of the type's kind: an existing type's properties are untouched and a new type gains only the default-valued one |
| `ResidualRiskEstimator.ProvisionedKeepsRegistry` | Sources/Extensions/ThreatsManager.Extensions/Schemas/ResidualRiskEstimatorPropertySchemaManager.cs:23-98 | provisioning keeps every existing schema's attributes and only appends types to it, leaves schemas other than the configuration one untouched, adds a schema only when there was no configuration schema (with AppliesTo=ThreatModel, AutoApply=false, Priority=100, Visible=false, System=true), and hands out at most two ids |
| `ResidualRiskEstimator.ProvisionedWhenPresent` | Sources/Extensions/ThreatsManager.Extensions/Schemas/ResidualRiskEstimatorPropertySchemaManager.cs:47-48 | once the configuration type exists, provisioning leaves the schema list and the next id as they are |
| `ResidualRiskEstimator.ProvisionedByParts` | Sources/Extensions/ThreatsManager.Extensions/Schemas/ResidualRiskEstimatorPropertySchemaManager.cs:44-54 | provisioning is GetSchema's effect followed by adding the type to the schema it found |
| `ResidualRiskEstimator.ResidualRiskEstimatorPropertySchemaManager.InfiniteSetThenGet` | Sources/Extensions/ThreatsManager.Extensions/Schemas/ResidualRiskEstimatorPropertySchemaManager.cs:192-223 | on a model whose stored values match their types' kinds, the getter after the setter returns the cap set, and always does when a property of the type already existed; otherwise only a model where no decimal property can be constructed can read -1 |
| `ResidualRiskEstimator.InfiniteRoundTrip` | Sources/Extensions/ThreatsManager.Extensions/Schemas/ResidualRiskEstimatorPropertySchemaManager.cs:192-223 | a get after a set returns the cap set whenever a property exists or can be created; with no property the getter reports -1; a present first property stays the first one |
| `ResidualRiskEstimator.InfiniteWriteKeepsSelected` | Sources/Extensions/ThreatsManager.Extensions/Schemas/ResidualRiskEstimatorPropertySchemaManager.cs:209-223 | writing the cap, whether to an existing property or to one it creates, leaves the selected estimator read by the getter unchanged |
| `ResidualRiskEstimator.AutoAddKeepsSelected` | Sources/Extensions/ThreatsManager.Extensions/Schemas/ResidualRiskEstimatorPropertySchemaManager.cs:80-98 | the property auto-added when "Infinite Cap" is created leaves the selected estimator unchanged |
| `ResidualRiskEstimator.FreshEstimatorWrite` | Sources/Extensions/ThreatsManager.Extensions/Schemas/ResidualRiskEstimatorPropertySchemaManager.cs:117-136 | setting an estimator right after its type was created reads back the id set, whatever the type-added handler appended, and every stored property is then of that type or of an older one |
| `ResidualRiskEstimator.ResidualRiskEstimatorPropertySchemaManager.ConfigureEstimator` | Sources/Extensions/ThreatsManager.Extensions/Schemas/ResidualRiskEstimatorPropertySchemaManager.cs:117-136 | on a model with no estimator or cap type yet, setting the estimator creates its type, stores the id, leaves the cap type absent and keeps every stored type id handed out |
| `ResidualRiskEstimator.ResidualRiskEstimatorPropertySchemaManager.ConfigureEstimatorAndCap` | Sources/Extensions/ThreatsManager.Extensions/Schemas/ResidualRiskEstimatorPropertySchemaManager.cs:117-136 | then setting the cap creates its type too, and afterwards both the estimator id and the cap are stored under their types |
| `ResidualRiskEstimator.ResidualRiskEstimatorPropertySchemaManager.EstimatorAndCapScenario` | Sources/Extensions/ThreatsManager.Extensions/Schemas/ResidualRiskEstimatorPropertySchemaManager.cs:102-223 | setting the estimator, then the cap, then reading both returns exactly the id and the cap set: neither type's creation or write disturbs the other |

## Left out

- Aspect weaving, member import/introduction and JSON attributes: the container is an ordinary class with the same operations.
- The reflective lookup and instantiation of a property class is abstracted as a set of constructible value kinds.
- Parsing of the initial string into non-text kinds is not modelled: a new decimal property starts at 0 and a new JSON property starts empty. The facade only ever passes null for those kinds.
- Property value changes are not modelled as events. Line 168 connects each added property's `Changed` event to `OnPropertyChanged`, which raises PropertyValueChanged (lines 44-50). The setters' in-place writes therefore raise nothing here. They also leave the dirty flag as it was, because the property's own dirty handling is not part of this model.
- Delegates, multicast invocation and the `Changed` to `OnPropertyChanged` forwarding (lines 44-50 and 168) are not modelled. PropertyValueChanged is never raised, including by the facade's in-place value writes. Raises of PropertyAdded and PropertyRemoved are logged, not dispatched to handlers.
- The `remove` accessors of the three events are not modelled: they are plain delegate removal.
- The `Properties` read-only view (line 101) is the `properties` field itself. A never-created list and an empty list are the same here.
- Schema events reach only the threat model's own container. Containers of other model elements are not part of this model.
- Subscribing to a schema's events is recorded per call. The schema's event accessors are not part of this model, so whether a repeated attach registers twice is left open. Notification is delivered once when the schema's id has been recorded.
- Schema.RemovePropertyType is not modelled. The type-removed handler is specified on its own.
- `PropertiesContainers.PropertiesContainer.PostDeserialization`: requires that every referenced schema exists. The source dereferences the looked-up schema without a check, so a missing one throws.
- The estimator getter's resolution of the stored id to an extension instance (line 111) is a plugin lookup: the model returns the stored id.
- `ResidualRiskEstimator.InfiniteRoundTrip`, `InfiniteSetThenGet` and `EstimatorAndCapScenario` state an exact cap round trip, which the source does not give. The cap is an integer here. The source stores a float and casts it to decimal on write (line 220) and back to float on read (line 203). `(decimal)float` throws OverflowException for NaN, infinities and values beyond the decimal range, and keeps about 7 significant digits.
- The schema's description is a resource string and is not modelled. The types' descriptions are kept. The default namespace is a constructor parameter.
- Two C# nulls cannot be written here. The setter takes the estimator's id, so a non-null estimator whose `GetExtensionId()` is null (lines 128 and 133) cannot be passed. The source would then store a null id. Also, a `Configuration` always holds a list, so a stored configuration whose `Parameters` is null, which the getter at line 151 returns as null, is not represented.
- Aliasing of the parameter list: values are immutable sequences, so the copy made by the setter is not observable and the getter's sharing of the stored list is not modelled.
- `ResidualRiskEstimator.ResidualRiskEstimatorPropertySchemaManager.SelectedEstimatorSetThenGet`, `ParametersSetThenGet` and `InfiniteSetThenGet` assume that every stored property carries an id the model has handed out and that an existing configuration type is of its expected kind with values of that kind. The source does not check either: a type of another kind under the same name makes the getters read null or -1.
- CriticalThreatEventByTypeCounter.cs is not part of this model: it is status-bar plumbing whose counting lives in the threat model.
