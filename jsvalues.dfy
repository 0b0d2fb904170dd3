/**
 * The JavaScript values the editor stores in block parameters and the coercions
 * the engines apply to them, restricted to integers (see README, "Left out").
 */
module JsValues {
  import opened Text
  import opened Numerals

  /** A JavaScript number as the block engine produces it: an integer or `NaN`. */
  datatype Num = Int(i: int) | NaN

  /** A parameter value: `undefined` (a missing key), an integer, or a string. */
  datatype Value = Undefined | Number(n: int) | Str(s: string)

  /** `Number(s)` on a string: blank text is 0, a signed run of digits is its value, anything else `NaN`. */
  function StringToNumber(s: string): (r: Num)
    ensures AllSpace(s) ==> r == Int(0)
  {
    var t := Trim(s);
    if t == "" then Int(0)
    else if IsNumeral(t) then Int(NumeralValue(t))
    else NaN
  }

  /** `Number(v)`. */
  function ToNumber(v: Value): Num
  {
    match v
    case Undefined => NaN
    case Number(n) => Int(n)
    case Str(s) => StringToNumber(s)
  }

  /** `String(n)` / `${n}` for a number. */
  function NumToString(n: Num): string
  {
    match n
    case Int(i) => IntToString(i)
    case NaN => "NaN"
  }

  /** `String(v)` / `${v}`: also the property key a value names. */
  function ToStr(v: Value): string
  {
    match v
    case Undefined => "undefined"
    case Number(n) => IntToString(n)
    case Str(s) => s
  }

  /**
   * The one inherited property an assignment does not shadow: the `__proto__`
   * setter of `Object.prototype` ignores a number or a string.
   */
  const ProtoName: string := "__proto__"

  /** `record[name] = v` on a plain object for a number or string `v`: a `__proto__` write changes nothing. */
  function SetProperty<V>(record: map<string, V>, name: string, v: V): map<string, V>
  {
    if name == ProtoName then record else record[name := v]
  }

  /** `a + b` on numbers: `NaN` absorbs. */
  function AddNum(a: Num, b: Num): (r: Num)
    ensures r.NaN? <==> a.NaN? || b.NaN?
    ensures a.Int? && b.Int? ==> r == Int(a.i + b.i)
  {
    if a.Int? && b.Int? then Int(a.i + b.i) else NaN
  }

  /** A printed integer is read back as itself by `Number`. */
  lemma StringToNumberOfInt(n: int)
    ensures StringToNumber(IntToString(n)) == Int(n)
  {
    var s := IntToString(n);
    IntToStringNoSpace(n);
    assert FirstNonSpace(s) == 0;
    assert TrimEndIndex(s, |s|) == |s|;
    assert Trim(s) == s;
    IntToStringRoundTrip(n);
  }
}
