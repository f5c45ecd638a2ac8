/**
 * The JSON values that cross the gateway, and JavaScript's `String(v)`
 * conversion, which the gateway applies to every caller-supplied field.
 */
module JsonValues {
  import opened Wrappers
  import Decimal

  /** A JSON value; numbers are modelled as integers. Object members keep their order. */
  datatype Json =
    | JNull
    | JBool(b: bool)
    | JNum(n: int)
    | JStr(s: string)
    | JArr(items: seq<Json>)
    | JObj(members: seq<(string, Json)>)

  /** `parts.join(",")`. */
  function JoinWithCommas(parts: seq<string>): (r: string)
    ensures |parts| == 1 ==> r == parts[0]
    ensures parts == [] ==> r == ""
  {
    if parts == [] then ""
    else if |parts| == 1 then parts[0]
    else parts[0] + "," + JoinWithCommas(parts[1..])
  }

  /**
   * `String(v)`: strings are kept, numbers and booleans become their text,
   * arrays join their elements with commas (a null element becomes empty),
   * and any object becomes "[object Object]".
   */
  function StringOf(v: Json): (r: string)
    ensures v.JStr? ==> r == v.s
    ensures v.JNum? ==> Decimal.ParseInt(r) == Some(v.n)
  {
    match v
    case JNull => "null"
    case JBool(b) => if b then "true" else "false"
    case JNum(n) => Decimal.ParseIntOfText(n); Decimal.IntText(n)
    case JStr(s) => s
    case JArr(items) =>
      JoinWithCommas(seq(|items|, i requires 0 <= i < |items| =>
        if items[i].JNull? then "" else StringOf(items[i])))
    case JObj(_) => "[object Object]"
  }

  /** The value of the first member named `name`, if `v` is an object that has one. */
  function Member(v: Json, name: string): (r: Option<Json>)
    ensures r.Some? ==> v.JObj? && exists i :: 0 <= i < |v.members| && v.members[i] == (name, r.value)
    ensures r.None? ==> !v.JObj? || forall i :: 0 <= i < |v.members| ==> v.members[i].0 != name
  {
    if !v.JObj? then None else FirstNamed(v.members, name)
  }

  function FirstNamed(members: seq<(string, Json)>, name: string): (r: Option<Json>)
    ensures r.Some? ==> exists i :: 0 <= i < |members| && members[i] == (name, r.value)
    ensures r.None? ==> forall i :: 0 <= i < |members| ==> members[i].0 != name
  {
    if members == [] then None
    else if members[0].0 == name then Some(members[0].1)
    else
      var r := FirstNamed(members[1..], name);
      assert r.Some? ==> exists i :: 0 <= i < |members| && members[i] == (name, r.value) by {
        if r.Some? {
          var k :| 0 <= k < |members[1..]| && members[1..][k] == (name, r.value);
          assert members[k + 1] == (name, r.value);
        }
      }
      r
  }
}
