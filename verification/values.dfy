/** Java values the transcription layer passes around, as Dafny values:
    nullable references, thrown exceptions, `long`, and the string maps the
    service and the controller exchange. */
module Values {

  /** A Java reference that may be null: `None` stands for null. */
  datatype Option<+T> = None | Some(value: T)

  /** What a call into a collaborator produced: the value it returned, or the
      exception it threw, carried by its message (which Java allows to be null). */
  datatype Outcome<+T> = Returned(value: T) | Threw(message: Option<string>)

  /** Java's 64-bit signed `long`. */
  type Long = x: int | -0x8000_0000_0000_0000 <= x < 0x8000_0000_0000_0000

  /** A `Map<String, String>`: keys are never null here, values may be. */
  type StringMap = map<string, Option<string>>

  /** `Map.get`: null both for an absent key and for a key mapped to null. */
  function Get(m: StringMap, key: string): (r: Option<string>)
    ensures r.None? <==> key !in m || m[key].None?
    ensures r.Some? ==> key in m && m[key] == r
  {
    if key in m then m[key] else None
  }

  /** `Map.of(key, value)`: the immutable map throws a NullPointerException
      with a null message when the value is null. */
  function MapOf1(key: string, value: Option<string>): (r: Outcome<StringMap>)
    ensures r.Returned? <==> value.Some?
    ensures r.Returned? ==> r.value.Keys == {key} && r.value[key] == value
    ensures r.Threw? ==> r.message.None?
  {
    if value.None? then Threw(None) else Returned(map[key := value])
  }

  /** `Map.of(k1, v1, k2, v2)` for two distinct keys: a null value throws a
      NullPointerException with a null message. */
  function MapOf2(k1: string, v1: Option<string>, k2: string, v2: Option<string>): (r: Outcome<StringMap>)
    requires k1 != k2
    ensures r.Returned? <==> v1.Some? && v2.Some?
    ensures r.Returned? ==> r.value.Keys == {k1, k2} && r.value[k1] == v1 && r.value[k2] == v2
    ensures r.Threw? ==> r.message.None?
  {
    if v1.None? || v2.None? then Threw(None) else Returned(map[k1 := v1, k2 := v2])
  }
}
