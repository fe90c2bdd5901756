/**
 * One item of a dynamic entity reference field: the stored `target_id` and
 * `target_type` properties, the computed `entity` property, and the entity
 * type its target definition points at, kept in step by setValue,
 * onChange, getValue and preSave.
 *
 * A referenced entity is abstracted as the record (typeId, id, isNew).
 * Comparisons follow PHP's loose semantics where the item uses `empty()`
 * and `!=`.
 */
module FieldItem {
  import opened Wrappers

  /** A referenced entity: its entity-type id, its id (None while unsaved) and whether it is new. */
  datatype Entity = Entity(typeId: string, id: Option<int>, isNew: bool)

  /** The array of property values handed to or returned by the item; None is an unset or NULL key. */
  datatype ItemValues = ItemValues(targetId: Option<int>, targetType: Option<string>, entity: Option<Entity>)

  /** The item's properties that notify onChange. */
  datatype Property = TargetIdProperty | TargetTypeProperty | EntityProperty

  /** The two InvalidArgumentExceptions thrown by setValue. */
  datatype SetValueError =
    | MissingEntityType  // a non-empty id came without an entity type
    | Mismatch           // the id or type disagrees with the entity passed alongside

  /** The id that marks a reference to a new entity; declared by the parent item class. */
  const NewEntityMarker: int := -1

  /** PHP `empty()` on an id: NULL and 0 are empty. */
  predicate IsEmptyId(id: Option<int>)
  {
    id.None? || id == Some(0)
  }

  /** PHP `empty()` on a string: NULL, "" and "0" are empty. */
  predicate IsEmptyType(t: Option<string>)
  {
    t.None? || t == Some("") || t == Some("0")
  }

  /** PHP's loose `==` between two ids, either of which may be NULL (NULL == 0 holds). */
  predicate LooseIdEquals(a: Option<int>, b: Option<int>)
  {
    match (a, b)
    case (None, None) => true
    case (None, Some(n)) => n == 0
    case (Some(n), None) => n == 0
    case (Some(m), Some(n)) => m == n
  }

  /** A possibly NULL string as PHP compares it with a string: NULL reads as "". */
  function StringValue(t: Option<string>): string
  {
    match t
    case None => ""
    case Some(s) => s
  }

  /**
   * The consistency setValue checks as written: the id and the type match
   * the entity's (loosely, as PHP compares them), unless the id is the
   * new-entity marker and the entity is new; that exception waives the type
   * comparison as well as the id comparison.
   */
  predicate AgreesWithEntity(targetId: int, targetType: Option<string>, e: Entity)
  {
    || (LooseIdEquals(e.id, Some(targetId)) && StringValue(targetType) == e.typeId)
    || (targetId == NewEntityMarker && e.isNew)
  }

  /**
   * Whether setValue accepts an array of values, and which exception it
   * throws otherwise; the mismatch test compares against the entity's own
   * id and type, which is what the entity property reports once it holds it.
   */
  function SetValueOutcome(values: ItemValues): (r: Outcome<SetValueError>)
    // a missing type is refused exactly when a non-empty id comes with it
    ensures r == Fail(MissingEntityType) <==> IsEmptyType(values.targetType) && !IsEmptyId(values.targetId)
    // an accepted id-and-entity pair agrees with the entity
    ensures r.Pass? && values.targetId.Some? && values.entity.Some? ==>
      AgreesWithEntity(values.targetId.value, values.targetType, values.entity.value)
    // a mismatch is reported only for an id-and-entity pair that disagrees
    ensures r == Fail(Mismatch) <==>
      && !(IsEmptyType(values.targetType) && !IsEmptyId(values.targetId))
      && values.targetId.Some? && values.entity.Some?
      && !AgreesWithEntity(values.targetId.value, values.targetType, values.entity.value)
  {
    if IsEmptyType(values.targetType) && !IsEmptyId(values.targetId) then
      Fail(MissingEntityType)
    else if values.targetId.Some? && values.entity.Some? then
      var e := values.entity.value;
      var tid := values.targetId.value;
      if (!LooseIdEquals(e.id, values.targetId) || e.typeId != StringValue(values.targetType))
         && (tid != NewEntityMarker || !e.isNew)
      then Fail(Mismatch)
      else Pass
    else
      Pass
  }

  /**
   * The consistency the item is meant to keep: the type always matches the
   * entity's, and the id matches too unless it is the new-entity marker and
   * the entity is new (a new entity's actual id differs from the marker).
   */
  predicate IntendedAgreement(targetId: int, targetType: Option<string>, e: Entity)
  {
    && StringValue(targetType) == e.typeId
    && (LooseIdEquals(e.id, Some(targetId)) || (targetId == NewEntityMarker && e.isNew))
  }

  /**
   * The setValue check with the marker exception limited to the id: an
   * id-and-entity pair is refused unless it agrees with the entity in the
   * intended sense.
   */
  function IntendedSetValueOutcome(values: ItemValues): (r: Outcome<SetValueError>)
    ensures r == Fail(MissingEntityType) <==> IsEmptyType(values.targetType) && !IsEmptyId(values.targetId)
    // an accepted id-and-entity pair always has the entity's type
    ensures r.Pass? && values.targetId.Some? && values.entity.Some? ==>
      IntendedAgreement(values.targetId.value, values.targetType, values.entity.value)
    // it refuses only what the check as written refuses, plus a marker id whose type disagrees
    ensures r != SetValueOutcome(values) <==>
      && !(IsEmptyType(values.targetType) && !IsEmptyId(values.targetId))
      && values.targetId == Some(NewEntityMarker) && values.entity.Some? && values.entity.value.isNew
      && StringValue(values.targetType) != values.entity.value.typeId
  {
    if IsEmptyType(values.targetType) && !IsEmptyId(values.targetId) then
      Fail(MissingEntityType)
    else if values.targetId.Some? && values.entity.Some? then
      var e := values.entity.value;
      var tid := values.targetId.value;
      if e.typeId != StringValue(values.targetType)
         || (!LooseIdEquals(e.id, values.targetId) && (tid != NewEntityMarker || !e.isNew))
      then Fail(Mismatch)
      else Pass
    else
      Pass
  }

  /**
   * The check as written accepts a marker id whose type disagrees with the
   * new entity's, which the intended check refuses.
   */
  lemma MarkerWaivesTypeCheck()
    ensures var values := ItemValues(Some(NewEntityMarker), Some("user"), Some(Entity("node", None, true)));
      && SetValueOutcome(values) == Pass
      && !IntendedAgreement(NewEntityMarker, Some("user"), Entity("node", None, true))
      && IntendedSetValueOutcome(values) == Fail(Mismatch)
  {
  }

  /**
   * The entity after `save()`: it keeps its type, is no longer new and has an
   * id, the one it already had or the one storage assigns.
   */
  function Save(e: Entity, storageId: int): (r: Entity)
    ensures r.typeId == e.typeId && !r.isNew && r.id.Some?
    ensures e.id.Some? ==> r.id == e.id
  {
    Entity(e.typeId, if e.id.Some? then e.id else Some(storageId), false)
  }

  class DynamicEntityReferenceItem {
    /** The `target_id` property. */
    var targetId: Option<int>
    /** The `target_type` property. */
    var targetType: Option<string>
    /** The value of the computed `entity` property. */
    var entity: Option<Entity>
    /** The entity-type id of the `entity` property's target definition. */
    var targetDefinitionType: Option<string>

    constructor ()
      ensures targetId == None && targetType == None && entity == None && targetDefinitionType == None
    {
      targetId, targetType, entity, targetDefinitionType := None, None, None, None;
    }

    /**
     * The parent's setValue: every property takes its value from the array
     * (an unset key clears it), without notification. Handing the entity
     * property an entity points its target definition at that entity's type.
     */
    method AssignProperties(values: ItemValues)
      modifies this
      ensures targetId == values.targetId && targetType == values.targetType && entity == values.entity
      ensures targetDefinitionType ==
        if values.entity.Some? then Some(values.entity.value.typeId) else old(targetDefinitionType)
    {
      targetId, targetType, entity := values.targetId, values.targetType, values.entity;
      if values.entity.Some? {
        targetDefinitionType := Some(values.entity.value.typeId);
      }
    }

    /**
     * Keeps the properties in step after one of them changed: a new type
     * with no entity retargets the entity property's definition, and a new
     * entity copies its type into `target_type`. Calling it for the entity
     * property with no entity held is a call on NULL in the original.
     */
    method OnChange(property: Property)
      requires property == EntityProperty ==> entity.Some?
      modifies this
      ensures targetId == old(targetId) && entity == old(entity)
      ensures property == EntityProperty ==> targetType == Some(entity.value.typeId)
      ensures property != EntityProperty ==> targetType == old(targetType)
      ensures targetDefinitionType ==
        if property == TargetTypeProperty && old(entity).None? then old(targetType) else old(targetDefinitionType)
    {
      if property == TargetTypeProperty && entity.None? {
        targetDefinitionType := targetType;
      } else if property == EntityProperty {
        targetType := Some(entity.value.typeId);
      }
    }

    /**
     * Sets the item from an array of values. Throws (Fail) when a non-empty
     * id comes without a type, before anything changes; and when an id and
     * an entity that disagree are passed together, after the properties
     * have been assigned. Otherwise a lone id retargets the definition to
     * the given type, and a lone entity sets `target_type` to its type.
     */
    method SetValue(values: ItemValues) returns (outcome: Outcome<SetValueError>)
      modifies this
      ensures outcome == SetValueOutcome(values)
      ensures outcome == Fail(MissingEntityType) ==>
        && targetId == old(targetId) && targetType == old(targetType)
        && entity == old(entity) && targetDefinitionType == old(targetDefinitionType)
      ensures outcome != Fail(MissingEntityType) ==> targetId == values.targetId && entity == values.entity
      ensures outcome != Fail(MissingEntityType) ==>
        targetType == if values.targetId.None? && values.entity.Some? then Some(values.entity.value.typeId) else values.targetType
      ensures outcome != Fail(MissingEntityType) ==>
        targetDefinitionType ==
          if values.entity.Some? then Some(values.entity.value.typeId)
          else if values.targetId.Some? then values.targetType
          else old(targetDefinitionType)
      // an accepted id-and-entity pair agrees with the entity as the check is written
      ensures outcome.Pass? && targetId.Some? && entity.Some? ==>
        AgreesWithEntity(targetId.value, targetType, entity.value)
      // outside the new-entity exception, id and type both match the entity
      ensures outcome.Pass? && targetId.Some? && entity.Some? && !(targetId.value == NewEntityMarker && entity.value.isNew) ==>
        IntendedAgreement(targetId.value, targetType, entity.value)
      // whenever an entity is held after success, the definition and, for a lone entity, the type follow it
      ensures outcome.Pass? && entity.Some? ==> targetDefinitionType == Some(entity.value.typeId)
      ensures outcome.Pass? && entity.Some? && targetId.None? ==> targetType == Some(entity.value.typeId)
    {
      if IsEmptyType(values.targetType) && !IsEmptyId(values.targetId) {
        return Fail(MissingEntityType);
      }
      AssignProperties(values);
      if values.targetId.Some? && values.entity.None? {
        OnChange(TargetTypeProperty);
        OnChange(TargetIdProperty);
      } else if values.targetId.None? && values.entity.Some? {
        OnChange(EntityProperty);
      } else if values.targetId.Some? && values.entity.Some? {
        var entityId := entity.value.id;
        var entityType := StringValue(targetDefinitionType);
        if (!LooseIdEquals(entityId, values.targetId) || entityType != StringValue(values.targetType))
           && (values.targetId.value != NewEntityMarker || !entity.value.isNew)
        {
          return Fail(Mismatch);
        }
      }
      outcome := Pass;
    }

    /**
     * Returns the property values (the computed entity only on request) and,
     * when `target_type` is non-empty, points the entity property's target
     * definition at it.
     */
    method GetValue(includeComputed: bool) returns (values: ItemValues)
      modifies this`targetDefinitionType
      ensures values.targetId == targetId && values.targetType == targetType
      ensures values.entity == if includeComputed then entity else None
      ensures targetDefinitionType == if IsEmptyType(targetType) then old(targetDefinitionType) else targetType
    {
      values := ItemValues(targetId, targetType, if includeComputed then entity else None);
      if !IsEmptyType(values.targetType) {
        targetDefinitionType := values.targetType;
      }
    }

    /**
     * Before the host entity is saved: when the item holds a new entity
     * (`hasNewEntity`, decided by the parent class), saves it if it is still
     * new and copies its id and type into the item, notifying both changes.
     */
    method PreSave(hasNewEntity: bool, storageId: int)
      requires hasNewEntity ==> entity.Some?
      modifies this
      ensures !hasNewEntity ==>
        targetId == old(targetId) && targetType == old(targetType) && entity == old(entity)
      ensures targetDefinitionType == old(targetDefinitionType)
      ensures hasNewEntity ==>
        && entity == Some(if old(entity).value.isNew then Save(old(entity).value, storageId) else old(entity).value)
        && !entity.value.isNew
        && targetId == entity.value.id
        && targetType == Some(entity.value.typeId)
        && (targetId.Some? ==> AgreesWithEntity(targetId.value, targetType, entity.value))
      ensures hasNewEntity && old(entity).value.isNew ==> targetId.Some? && targetType == Some(old(entity).value.typeId)
    {
      if hasNewEntity {
        if entity.value.isNew {
          entity := Some(Save(entity.value, storageId));
        }
        targetId := entity.value.id;
        OnChange(TargetIdProperty);
        targetType := Some(entity.value.typeId);
        OnChange(TargetTypeProperty);
      }
    }
  }

  /** Under PHP's `empty()`, an id of 0 never triggers the missing-type exception. */
  lemma ZeroIdNeedsNoType(t: Option<string>, e: Option<Entity>)
    ensures SetValueOutcome(ItemValues(Some(0), t, e)) != Fail(MissingEntityType)
  {
  }

  /** The string "0" counts as an empty type, so a non-zero id with type "0" is refused. */
  lemma ZeroStringTypeIsMissing(id: int, e: Option<Entity>)
    requires id != 0
    ensures SetValueOutcome(ItemValues(Some(id), Some("0"), e)) == Fail(MissingEntityType)
  {
  }
}
