/**
 * The drawer-mode state: whether resource details open in a side drawer
 * (persisted in the browser's key-value store), and the resource shown there.
 */
module DrawerModeSlice {
  import opened Wrappers
  import opened KubeObjects

  /** Storage key of the persisted drawer flag. */
  const DetailDrawerKey: string := "detailDrawerEnabled"

  /** The browser's string key-value store. */
  class LocalStorage {
    var items: map<string, string>

    constructor (items: map<string, string>)
      ensures this.items == items
    {
      this.items := items;
    }

    method SetItem(key: string, value: string)
      modifies this
      ensures items == old(items)[key := value]
    {
      items := items[key := value];
    }
  }

  /** `getItem`: the string stored under `key`, or `None` (`null`) when the key is absent. */
  function GetItem(items: map<string, string>, key: string): (r: Option<string>)
    ensures r.Some? <==> key in items
    ensures r.Some? ==> r.value == items[key]
  {
    if key in items then Some(items[key]) else None
  }

  /** A boolean written out as a string (`${b}`). */
  function BoolString(b: bool): (s: string)
    ensures s == "true" <==> b
    ensures s == "true" || s == "false"
  {
    if b then "true" else "false"
  }

  /**
   * The persisted flag under `key`: false when nothing is stored, and true
   * only for exactly the string "true".
   */
  function GetLocalDrawerStatus(items: map<string, string>, key: string): (r: bool)
    ensures key !in items ==> !r
    ensures r <==> key in items && items[key] == "true"
  {
    var local := GetItem(items, key);
    if local.None? then false else local.value == "true"
  }

  /** Writing a flag and reading it back gives the flag. */
  lemma DrawerStatusRoundTrip(items: map<string, string>, b: bool)
    ensures GetLocalDrawerStatus(items[DetailDrawerKey := BoolString(b)], DetailDrawerKey) == b
  {
  }

  /** Writing the flag leaves the entries under every other key as they were. */
  lemma DrawerStatusWriteIsLocal(items: map<string, string>, b: bool, key: string)
    requires key != DetailDrawerKey
    ensures GetLocalDrawerStatus(items[DetailDrawerKey := BoolString(b)], key) == GetLocalDrawerStatus(items, key)
  {
  }

  class DrawerModeState {
    var isDetailDrawerEnabled: bool
    var selectedResource: Option<KubeObject>

    /** The initial state: the persisted flag, and no resource selected. */
    constructor (storage: LocalStorage)
      ensures isDetailDrawerEnabled == GetLocalDrawerStatus(storage.items, DetailDrawerKey)
      ensures selectedResource == None
    {
      isDetailDrawerEnabled := GetLocalDrawerStatus(storage.items, DetailDrawerKey);
      selectedResource := None;
    }

    /** Sets the flag and persists it as "true" or "false"; the selected resource stays. */
    method SetDetailDrawerEnabled(storage: LocalStorage, payload: bool)
      modifies this`isDetailDrawerEnabled, storage
      ensures isDetailDrawerEnabled == payload
      ensures selectedResource == old(selectedResource)
      ensures storage.items == old(storage.items)[DetailDrawerKey := BoolString(payload)]
      ensures GetLocalDrawerStatus(storage.items, DetailDrawerKey) == payload
    {
      isDetailDrawerEnabled := payload;
      storage.SetItem(DetailDrawerKey, BoolString(payload));
    }

    /** Replaces the selected resource (`None` closes the drawer); nothing else changes. */
    method SetSelectedResource(payload: Option<KubeObject>)
      modifies this`selectedResource
      ensures selectedResource == payload
      ensures isDetailDrawerEnabled == old(isDetailDrawerEnabled)
    {
      selectedResource := payload;
    }
  }
}
