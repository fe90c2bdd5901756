/**
 * The static settings logic of the dynamic entity reference field type:
 * the storage defaults, the per-type field defaults and the filter that
 * turns the storage settings into the referenceable content entity types.
 *
 * The content entity-type label map (entity-type id to label) is the
 * framework's `getEntityTypeLabels(TRUE)['Content']`; here it is a
 * parameter, `contentLabels`.
 */
module EntityTypeFilter {
  import opened Wrappers

  /** An entity-type machine name such as "node" or "user". */
  type EntityTypeId = string

  /**
   * The field storage settings read by the filter.
   * `entityTypeIds` is the selected list, keyed by entity-type id (the
   * values are irrelevant to the filter); `None` is a missing or NULL entry.
   */
  datatype StorageSettings = StorageSettings(
    excludeEntityTypes: bool,
    entityTypeIds: Option<map<EntityTypeId, string>>)

  /** Per-type selection configuration of the field settings. */
  datatype SelectionSettings = SelectionSettings(handler: string, handlerSettings: map<string, string>)

  /** The storage defaults: exclude mode with an empty list. */
  function DefaultStorageSettings(): (s: StorageSettings)
    ensures s.excludeEntityTypes
    ensures SelectedKeys(s) == {}
  {
    StorageSettings(true, Some(map[]))
  }

  /** The configuration every content type gets by default. */
  function DefaultSelection(): SelectionSettings
  {
    SelectionSettings("default", map[])
  }

  /**
   * The keys of the selected list after PHP's `?: array()` fallback:
   * a missing or empty list selects nothing.
   */
  function SelectedKeys(s: StorageSettings): set<EntityTypeId>
  {
    match s.entityTypeIds
    case None => {}
    case Some(ids) => ids.Keys
  }

  /**
   * The referenceable entity types with their labels: in exclude mode the
   * content types whose id is not selected (a blacklist), otherwise the
   * content types whose id is selected (a whitelist).
   */
  function GetAllEntityTypeIds(s: StorageSettings, contentLabels: map<EntityTypeId, string>): (r: map<EntityTypeId, string>)
    // only content types are returned, each with its own label
    ensures r.Keys <= contentLabels.Keys
    ensures forall id :: id in r ==> r[id] == contentLabels[id]
    // exclude mode: exactly the content types not selected
    ensures s.excludeEntityTypes ==>
      forall id :: id in contentLabels ==> (id in r <==> id !in SelectedKeys(s))
    // include mode: exactly the content types selected
    ensures !s.excludeEntityTypes ==>
      forall id :: id in contentLabels ==> (id in r <==> id in SelectedKeys(s))
  {
    var selected := SelectedKeys(s);
    if s.excludeEntityTypes then
      map id | id in contentLabels && id !in selected :: contentLabels[id]
    else
      map id | id in contentLabels && id in selected :: contentLabels[id]
  }

  /** The field defaults, as a value: every content type to the default selection. */
  function DefaultFieldSettings(contentLabels: map<EntityTypeId, string>): map<EntityTypeId, SelectionSettings>
  {
    map id | id in contentLabels :: DefaultSelection()
  }

  /**
   * The field defaults, built one content type at a time: every content
   * type gets handler "default" with empty handler settings, and no other
   * key is present.
   */
  method BuildDefaultFieldSettings(contentLabels: map<EntityTypeId, string>)
    returns (settings: map<EntityTypeId, SelectionSettings>)
    ensures settings.Keys == contentLabels.Keys
    ensures forall id :: id in settings ==> settings[id] == SelectionSettings("default", map[])
    ensures settings == DefaultFieldSettings(contentLabels)
  {
    settings := map[];
    var remaining := contentLabels.Keys;
    while remaining != {}
      invariant remaining <= contentLabels.Keys
      invariant settings.Keys == contentLabels.Keys - remaining
      invariant forall id :: id in settings ==> settings[id] == DefaultSelection()
      decreases remaining
    {
      var id :| id in remaining;
      settings := settings[id := DefaultSelection()];
      remaining := remaining - {id};
    }
  }

  /** The two modes split the content types: disjoint, and together all of them. */
  lemma ModesPartitionContentTypes(ids: Option<map<EntityTypeId, string>>, contentLabels: map<EntityTypeId, string>)
    ensures GetAllEntityTypeIds(StorageSettings(true, ids), contentLabels).Keys
         !! GetAllEntityTypeIds(StorageSettings(false, ids), contentLabels).Keys
    ensures GetAllEntityTypeIds(StorageSettings(true, ids), contentLabels)
          + GetAllEntityTypeIds(StorageSettings(false, ids), contentLabels) == contentLabels
  {
  }

  /** An empty or missing list allows every content type in exclude mode and none in include mode. */
  lemma EmptySelection(ids: Option<map<EntityTypeId, string>>, contentLabels: map<EntityTypeId, string>)
    requires ids == None || ids == Some(map[])
    ensures GetAllEntityTypeIds(StorageSettings(true, ids), contentLabels) == contentLabels
    ensures GetAllEntityTypeIds(StorageSettings(false, ids), contentLabels) == map[]
  {
  }

  /** With the storage defaults every content type is referenceable. */
  lemma DefaultStorageAllowsAll(contentLabels: map<EntityTypeId, string>)
    ensures GetAllEntityTypeIds(DefaultStorageSettings(), contentLabels) == contentLabels
  {
  }

  /**
   * Whatever the storage settings, every referenceable type has an entry in
   * the default field settings, so the per-type handler lookup finds one.
   */
  lemma ReferenceableTypesHaveDefaultHandler(s: StorageSettings, contentLabels: map<EntityTypeId, string>)
    ensures forall id :: id in GetAllEntityTypeIds(s, contentLabels) ==>
      id in DefaultFieldSettings(contentLabels) && DefaultFieldSettings(contentLabels)[id].handler == "default"
  {
  }

  /** The default field settings cover exactly the types the default storage settings allow. */
  lemma DefaultFieldSettingsMatchDefaultStorage(contentLabels: map<EntityTypeId, string>)
    ensures DefaultFieldSettings(contentLabels).Keys == GetAllEntityTypeIds(DefaultStorageSettings(), contentLabels).Keys
  {
  }
}
