/** The browser's `localStorage`: one global key-to-text table. The values are
    opaque strings (the JSON encoding itself is not modelled). */
module Storage {
  import opened Outcomes

  const ApiKeyKey := "api_key"
  const GradesKey := "courses_with_graded_assignments"

  class LocalStorage {
    var items: map<string, string>

    constructor()
      ensures items == map[]
    {
      items := map[];
    }

    /** `getItem(key)`: the stored text, or null. */
    function GetItem(key: string): Option<string>
      reads this
    {
      if key in items then Some(items[key]) else None
    }

    /** `setItem(key, value)`. */
    method SetItem(key: string, value: string)
      modifies this
      ensures items == old(items)[key := value]
    {
      items := items[key := value];
    }
  }

  /** JavaScript truthiness of a `getItem` result: null and "" are falsy. */
  predicate Truthy(v: Option<string>) {
    v.Some? && v.value != ""
  }
}
