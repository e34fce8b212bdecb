/** Parsed JSON values and the JavaScript property access and truthiness the services
    apply to them. */
module JsonValues {
  import opened Base

  /** A parsed JSON value (numbers are kept to integers). */
  datatype Json = JNull | JBool(b: bool) | JNum(n: int) | JStr(s: string) | JArr(items: seq<Json>) | JObj(fields: seq<(string, Json)>)

  /** The member `key` of an object; `JSON.parse` keeps the last of duplicate keys. */
  function Member(fields: seq<(string, Json)>, key: string): (r: Option<Json>)
    ensures r.Some? ==> exists i :: 0 <= i < |fields| && fields[i] == (key, r.value)
                                    && forall j :: i < j < |fields| ==> fields[j].0 != key
    ensures r.None? ==> forall i :: 0 <= i < |fields| ==> fields[i].0 != key
  {
    if fields == [] then None
    else if fields[|fields| - 1].0 == key then Some(fields[|fields| - 1].1)
    else
      var init := fields[..|fields| - 1];
      assert forall i :: 0 <= i < |init| ==> init[i] == fields[i];
      Member(init, key)
  }

  /** `v?.key`: undefined for a missing value and for anything without that property. */
  function Prop(v: Option<Json>, key: string): Option<Json> {
    if v.Some? && v.value.JObj? then Member(v.value.fields, key) else None
  }

  /** `v?.[0]`. */
  function First(v: Option<Json>): Option<Json> {
    if v.None? then None
    else match v.value
      case JArr(xs) => if xs == [] then None else Some(xs[0])
      case JObj(fs) => Member(fs, "0")
      case JStr(s) => if s == [] then None else Some(JStr([s[0]]))
      case _ => None
  }

  predicate JTruthy(v: Option<Json>) {
    v.Some? &&
    match v.value
    case JNull => false
    case JBool(b) => b
    case JNum(n) => n != 0
    case JStr(s) => s != ""
    case _ => true
  }
}
