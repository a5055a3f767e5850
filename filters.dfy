/** The static filters a block instance derives from its configuration
    table. */
module BlockConfig {
  import opened Wrappers

  /** `filters` holds a `typeId` entry or no entry at all. */
  datatype Filters = Filters(typeId: Option<string>)

  /** JavaScript truthiness of a configuration value read as text: absent
      and empty are falsy. */
  predicate Truthy(v: Option<string>)
  {
    v.Some? && v.value != ""
  }

  /** `filters` starts empty and receives `typeId` only when the configured
      `typeid` is truthy, with that value unchanged. */
  function BuildFilters(typeid: Option<string>): (f: Filters)
    ensures f.typeId.Some? <==> Truthy(typeid)
    ensures f.typeId.Some? ==> f.typeId == typeid
    ensures f.typeId != Some("")
  {
    if Truthy(typeid) then Filters(typeid) else Filters(None)
  }
}
