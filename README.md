# Dynamic entity reference field item — verified model

This project models the core of the `dynamic_entity_reference` field type, a
field whose items may reference an entity of any of several entity types
rather than one fixed type. Two parts of
`src/Plugin/Field/FieldType/DynamicEntityReferenceItem.php` are modelled:

- **Referenceable entity types** (`entity_type_filter.dfy`, module
  `EntityTypeFilter`). The storage settings `exclude_entity_types` and
  `entity_type_ids` act as a blacklist or a whitelist over the content entity
  types. `GetAllEntityTypeIds` is the key filter (`array_diff_key` /
  `array_intersect_key`), with the `?: array()` fallback for a missing list.
  `DefaultStorageSettings` and `BuildDefaultFieldSettings` give the defaults.
  The content-type label map, which the original fetches from the entity
  manager, is a parameter.
- **Field item consistency** (`field_item.dfy`, module `FieldItem`). The
  class `DynamicEntityReferenceItem` holds the `target_id` and `target_type`
  properties, the value of the computed `entity` property, and the entity
  type of that property's target definition. `SetValue`, `OnChange`,
  `GetValue` and `PreSave` update them in place. `SetValueOutcome` is the
  pure specification of which value arrays `setValue` accepts. Its contract
  states what an accepted id-and-entity pair guarantees: the id and the type
  agree with the entity, unless the id is the new-entity marker and the
  entity is new. That exception waives the type comparison as well as the
  id comparison (see "## Findings"). `IntendedSetValueOutcome` is the check
  with the exception limited to the id, so that the type always agrees.

A referenced entity is the record `Entity(typeId, id, isNew)`. An unset or
NULL array key is `None`. The PHP semantics the code relies on are written
out:
- `empty()` treats an id of 0, and the type strings "" and "0", as empty.
- Loose `!=` treats a NULL entity id as equal to a `target_id` of 0.
- Loose `!=` reads a NULL type as "".

Behaviour of parent classes that is not part of this model is represented
abstractly:
- `AssignProperties` is `FieldItemBase::setValue`: each property takes its
  value from the array.
- Handing the entity property an entity points its target definition at that
  entity's type. The mismatch check of `setValue` reads that definition.
- `hasNewEntity()` is a boolean parameter of `PreSave`.
- `entity->save()` is the function `Save`.
- `NEW_ENTITY_MARKER` is declared by the parent item class. It is the
  constant `NewEntityMarker` (-1), and no proof depends on its value.

The second exception of `setValue` (mismatch) is raised after the
properties have been assigned. The model keeps that: on `Fail(Mismatch)` the
item holds the values it was given.

## Model

| member | source | states |
|---|---|---|
| EntityTypeFilter.DefaultStorageSettings | src/Plugin/Field/FieldType/DynamicEntityReferenceItem.php:44-49 | The storage defaults are exclude mode with nothing selected |
| EntityTypeFilter.GetAllEntityTypeIds | src/Plugin/Field/FieldType/DynamicEntityReferenceItem.php:374-385 | The result is a subset of the content types, and each entry keeps its label. In exclude mode a content type is returned iff it is not selected; in include mode iff it is selected |
| EntityTypeFilter.BuildDefaultFieldSettings | src/Plugin/Field/FieldType/DynamicEntityReferenceItem.php:54-68 | The loop maps every content type to handler "default" with empty handler settings, and maps no other key |
| EntityTypeFilter.ModesPartitionContentTypes | src/Plugin/Field/FieldType/DynamicEntityReferenceItem.php:378-383 | For the same list, the exclude-mode and include-mode results are disjoint, and together they give back the whole content label map |
| EntityTypeFilter.EmptySelection | src/Plugin/Field/FieldType/DynamicEntityReferenceItem.php:378-383 | An empty or missing list gives every content type in exclude mode and none in include mode |
| EntityTypeFilter.DefaultStorageAllowsAll | src/Plugin/Field/FieldType/DynamicEntityReferenceItem.php:44-49 | Under the storage defaults every content type is referenceable |
| EntityTypeFilter.ReferenceableTypesHaveDefaultHandler | src/Plugin/Field/FieldType/DynamicEntityReferenceItem.php:58-66 | For any storage settings, each referenceable type has a "default" entry in the default field settings |
| EntityTypeFilter.DefaultFieldSettingsMatchDefaultStorage | src/Plugin/Field/FieldType/DynamicEntityReferenceItem.php:58-60 | The default field settings cover exactly the types that the default storage settings allow |
| FieldItem.SetValueOutcome | src/Plugin/Field/FieldType/DynamicEntityReferenceItem.php:246-281 | A missing type is refused iff the id is non-empty. A mismatch is refused iff an id and an entity are both given and disagree. Any accepted id-and-entity pair agrees with the entity, up to the new-entity exception |
| FieldItem.IntendedSetValueOutcome | src/Plugin/Field/FieldType/DynamicEntityReferenceItem.php:267-281 | The corrected check: an accepted id-and-entity pair always has the entity's type, and the id is excused only under the marker with a new entity. It differs from the check as written exactly on a marker id with a new entity of another type |
| FieldItem.MarkerWaivesTypeCheck | src/Plugin/Field/FieldType/DynamicEntityReferenceItem.php:278-279 | The check as written accepts the marker id with type "user" for a new "node" entity; the corrected check refuses it |
| FieldItem.ZeroIdNeedsNoType | src/Plugin/Field/FieldType/DynamicEntityReferenceItem.php:246 | A `target_id` of 0 never raises the missing-type exception |
| FieldItem.ZeroStringTypeIsMissing | src/Plugin/Field/FieldType/DynamicEntityReferenceItem.php:246-248 | The type "0" counts as empty, so a non-zero id with it is refused |
| FieldItem.Save | src/Plugin/Field/FieldType/DynamicEntityReferenceItem.php:307-309 | A saved entity keeps its type and any id it had, is no longer new, and has an id |
| FieldItem.DynamicEntityReferenceItem.AssignProperties | src/Plugin/Field/FieldType/DynamicEntityReferenceItem.php:257 | Each property takes its value from the array; an entity given retargets the definition to its type |
| FieldItem.DynamicEntityReferenceItem.OnChange | src/Plugin/Field/FieldType/DynamicEntityReferenceItem.php:123-134 | A type change with no entity retargets the definition to `target_type`. An entity change sets `target_type` to the entity's type. Nothing else changes |
| FieldItem.DynamicEntityReferenceItem.SetValue | src/Plugin/Field/FieldType/DynamicEntityReferenceItem.php:245-288 | The outcome is `SetValueOutcome`. A missing type leaves the item unchanged. Otherwise the new state is given exactly. After success, a held entity fixes the definition's type. An id held with it matches the entity's id and type, except that a marker id with a new entity is accepted whatever `target_type` says |
| FieldItem.DynamicEntityReferenceItem.GetValue | src/Plugin/Field/FieldType/DynamicEntityReferenceItem.php:293-299 | Returns the property values, with the entity only on request. A non-empty `target_type` becomes the definition's type |
| FieldItem.DynamicEntityReferenceItem.PreSave | src/Plugin/Field/FieldType/DynamicEntityReferenceItem.php:304-315 | With a new entity, a still-new entity is saved, and `target_id` and `target_type` then equal the saved entity's id and type. Otherwise nothing changes |

## Findings

| source | as written | input that shows it | evidently intended | confidence | as-written member | corrected member |
|---|---|---|---|---|---|---|
| src/Plugin/Field/FieldType/DynamicEntityReferenceItem.php:278-279 | The new-entity exception skips both the id and the type comparison | `target_id` = marker, `target_type` = "user", a new "node" entity: accepted, and the item then holds type "user" beside a "node" entity | Only the id is excused, as the comment at lines 267-270 says; the type always agrees with the entity | medium, not executed | FieldItem.MarkerWaivesTypeCheck | FieldItem.IntendedSetValueOutcome |

`SetValue` models the code as written and uses `SetValueOutcome`.

## Left out

- `storageSettingsForm`, `fieldSettingsForm` and `fieldSettingsFormValidate` are left out. They build Form API render arrays and change form state, with nothing to verify.
- `getSettableOptions` is left out. It calls selection-handler services and bundle info, whose results are outside the model.
- `generateSampleValue` is left out. It picks with `array_rand` and calls the selection service.
- `calculateDependencies` is left out. It loads entities by UUID from storage.
- `propertyDefinitions` and `schema` are left out. They only declare typed data and database columns. The three properties they declare are the class fields.
- The non-array branch of `setValue`, which hands a scalar or object to the entity property, is left out. That branch delegates to the parent `set()`, which is not part of this model.
- The notification of the parent field list in `setValue` and the effects of `parent::onChange` are left out. That code is not part of this model. `OnChange` changes only what this class's own override changes.
- Lazy loading of the entity from `target_id` is left out. The `entity` field holds only an entity that was handed to the item.
- Array order is left out. PHP arrays keep insertion order, but the model's maps and the result of `GetAllEntityTypeIds` are unordered.
- PHP truthiness of a non-boolean `exclude_entity_types` is left out. It is a `bool`.
- Loose comparison of numeric strings is left out. Ids are integers, and entity-type ids are compared as plain strings.
- Entities are values. The original saves the entity object in place and shares it, so the model does not capture aliasing.
- FieldItem.DynamicEntityReferenceItem.OnChange: requires an entity to be held when the entity property changed. Without one, the original calls `getEntityTypeId()` on NULL at line 131, a fatal error that the model does not represent. `SetValue` calls it only with an entity held.
- FieldItem.DynamicEntityReferenceItem.PreSave: requires an entity to be held when `hasNewEntity` is true. That is an assumption about the parent's `hasNewEntity()`, which is not part of this model.
- FieldItem.DynamicEntityReferenceItem.PreSave: claims agreement with the entity only when the copied id is set. An entity that is not new but has no id is left out, because `isNew()` belongs to the entity class.
