/**
 * The Terraform SDK's `schema.ResourceData` as the handlers see it: a flat map from
 * attribute name to a scalar value, plus the tracked resource id. Handlers read it
 * with `Get` and `GetOk` and write it with `Set` and `SetId`.
 */
module Schema {
  import opened Wrappers
  import opened Decimal

  /** The scalar attribute types the schemas use: TypeString, TypeInt, TypeBool. */
  datatype Value = Str(s: string) | Int(i: GoInt) | Bool(b: bool)

  type Attrs = map<string, Value>

  /** `d.Get(key).(string)`: the zero value "" when the attribute is unset. */
  function GetString(a: Attrs, key: string): string {
    if key in a && a[key].Str? then a[key].s else ""
  }

  /** `d.Get(key).(int)`: the zero value 0 when the attribute is unset. */
  function GetInt(a: Attrs, key: string): GoInt {
    if key in a && a[key].Int? then a[key].i else 0
  }

  /** `d.Get(key).(bool)`: the zero value false when the attribute is unset. */
  function GetBool(a: Attrs, key: string): bool {
    if key in a && a[key].Bool? then a[key].b else false
  }

  /** `d.GetOk(key)` on a string attribute: the SDK reports the zero value "" as not set. */
  function GetOkString(a: Attrs, key: string): (r: Option<string>)
    ensures r.Some? <==> GetString(a, key) != ""
    ensures r.Some? ==> r.value == GetString(a, key)
  {
    var v := GetString(a, key);
    if v == "" then None else Some(v)
  }

  /** `d.GetOk(key)` on an int attribute: the SDK reports the zero value 0 as not set. */
  function GetOkInt(a: Attrs, key: string): (r: Option<GoInt>)
    ensures r.Some? <==> GetInt(a, key) != 0
    ensures r.Some? ==> r.value == GetInt(a, key)
  {
    var v := GetInt(a, key);
    if v == 0 then None else Some(v)
  }

  /** What `d.Set(key, v)` leaves in the attributes of a block declaring `declared`. */
  function Write(a: Attrs, declared: set<string>, key: string, v: Value): Attrs {
    if key in declared then a[key := v] else a
  }

  /**
   * One resource block's (or data source block's) state, updated in place by the
   * handlers. `declared` holds the attribute names the block's schema declares.
   */
  class ResourceData {
    var id: string
    var attrs: Attrs
    const declared: set<string>

    constructor (id: string, attrs: Attrs, declared: set<string>)
      ensures this.id == id && this.attrs == attrs && this.declared == declared
    {
      this.id := id;
      this.attrs := attrs;
      this.declared := declared;
    }

    /**
     * `d.Set(key, v)`: overwrites one declared attribute and nothing else. On a key
     * the schema does not declare the SDK returns an error and writes nothing.
     */
    method Set(key: string, v: Value)
      modifies this
      ensures attrs == Write(old(attrs), declared, key, v)
      ensures id == old(id)
    {
      if key in declared {
        attrs := attrs[key := v];
      }
    }

    /** `d.SetId(s)`: replaces the tracked id; "" marks the resource as gone. */
    method SetId(s: string)
      modifies this
      ensures id == s
      ensures attrs == old(attrs)
    {
      id := s;
    }
  }
}
