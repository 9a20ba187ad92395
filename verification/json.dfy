/** The part of org.json.JSONObject the client uses: a parsed object whose
    string members and integral number members are kept apart, with the
    lookups optString, optInt and getString. */
module Json {

  import opened Wrappers
  import opened Exceptions

  /** A parsed JSON object: `strings` holds the string members, `numbers`
      the integral number members with their full, unbounded values. A JSON
      object names each member once, so the two key sets are disjoint
      (`WellFormed`); the lookups below do not depend on it. */
  datatype JsonObject = JsonObject(strings: map<string, string>, numbers: map<string, int>)

  /** Each key names one member, either a string or a number. */
  predicate WellFormed(obj: JsonObject)
  {
    obj.strings.Keys !! obj.numbers.Keys
  }

  const TwoTo31: int := 0x8000_0000
  const TwoTo32: int := 0x1_0000_0000

  /** Number.intValue() of an integral value: its low 32 bits, read as a
      two's-complement Java int. */
  function ToInt32(n: int): (r: int)
    ensures -TwoTo31 <= r < TwoTo31
    ensures (r - n) % TwoTo32 == 0
    ensures -TwoTo31 <= n < TwoTo31 ==> r == n
  {
    (n + TwoTo31) % TwoTo32 - TwoTo31
  }

  /** optString(key): the member's value, or "" when it is absent (never null). */
  function OptString(obj: JsonObject, key: string): string
  {
    if key in obj.strings then obj.strings[key] else ""
  }

  /** optInt(key): the member's value converted to a Java int, or 0 when it
      is absent. */
  function OptInt(obj: JsonObject, key: string): (r: int)
    ensures -TwoTo31 <= r < TwoTo31
    ensures key !in obj.numbers ==> r == 0
    ensures key in obj.numbers ==> (r - obj.numbers[key]) % TwoTo32 == 0
  {
    if key in obj.numbers then ToInt32(obj.numbers[key]) else 0
  }

  /** getString(key): the member's value; throws when the member is absent
      or is not a string (a number member lives in `numbers`, not in
      `strings`). */
  function GetString(obj: JsonObject, key: string): Result<string, Exception>
  {
    if key in obj.strings then Success(obj.strings[key]) else Failure(JsonNotString(key))
  }
}
