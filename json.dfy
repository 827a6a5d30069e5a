/**
 * JSON values as the state store sees them: whatever `JSON.parse` can produce.
 * Numbers are modelled as integers (the game only stores integer counters).
 */
module JsonValues {

  import opened Options

  datatype Json =
    | JNull
    | JBool(b: bool)
    | JNum(n: int)
    | JStr(s: string)
    | JArr(items: seq<Json>)
    | JObj(fields: map<string, Json>)

  /** JavaScript truthiness: `null`, `false`, `0` and `""` are falsy; arrays and objects never are. */
  predicate Truthy(j: Json)
  {
    match j
    case JNull => false
    case JBool(b) => b
    case JNum(n) => n != 0
    case JStr(s) => s != ""
    case JArr(_) => true
    case JObj(_) => true
  }

  /** Property access `j.key`: `None` stands for `undefined` (no such own property, or not an object). */
  function Member(j: Json, key: string): (r: Option<Json>)
    ensures r.Some? <==> j.JObj? && key in j.fields
    ensures r.Some? ==> r.value == j.fields[key]
  {
    match j
    case JObj(fields) => if key in fields then Some(fields[key]) else None
    case _ => None
  }

  /**
   * `JSON.parse(JSON.stringify(j))`: rebuilds the whole tree. On JSON values the copy is equal
   * to the original (and, being a value, cannot share structure with it).
   */
  function Clone(j: Json): (r: Json)
    ensures r == j
    decreases j
  {
    match j
    case JArr(items) =>
      var copy := seq(|items|, i requires 0 <= i < |items| => Clone(items[i]));
      assert forall i | 0 <= i < |items| :: copy[i] == items[i];
      assert copy == items;
      JArr(copy)
    case JObj(fields) =>
      var copy := map k | k in fields :: Clone(fields[k]);
      assert copy == fields;
      JObj(copy)
    case _ => j
  }

  /** Deep copy of an object's fields. */
  function CloneFields(fields: map<string, Json>): (r: map<string, Json>)
    ensures r == fields
  {
    Clone(JObj(fields)).fields
  }
}
