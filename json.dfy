/**
 * The JSON values a decoded API payload can hold, as Python's `json` module
 * produces them (numbers are integers only), and the parts of Python's
 * `str()` and `in` on such values that the pipeline relies on.
 */
module JsonValue {
  import opened Wrappers

  /** `JObject` is a Python `dict`; key order plays no role in the pipeline. */
  datatype Json =
    | JNull
    | JBool(b: bool)
    | JInt(n: int)
    | JString(s: string)
    | JArray(items: seq<Json>)
    | JObject(fields: map<string, Json>)

  /** Python's `dict.get(key, default)`; its contract is the definition, not a derived fact. */
  function Get(fields: map<string, Json>, key: string, default: Json): (r: Json)
    ensures key in fields ==> r == fields[key]
    ensures key !in fields ==> r == default
  {
    if key in fields then fields[key] else default
  }

  /** The values Python can hash: everything but lists and dicts. */
  predicate Hashable(j: Json) {
    !j.JArray? && !j.JObject?
  }

  function DigitChar(d: nat): (c: char)
    requires d < 10
    ensures '0' <= c <= '9'
  {
    "0123456789"[d]
  }

  function DigitValue(c: char): (d: nat)
    requires '0' <= c <= '9'
    ensures d < 10 && DigitChar(d) == c
  {
    (c as int - '0' as int) as nat
  }

  /** A non-empty string of decimal digits. */
  predicate Numeral(s: string) {
    |s| > 0 && forall i :: 0 <= i < |s| ==> '0' <= s[i] <= '9'
  }

  /** The decimal digits of `n`, as Python's `str()` writes a non-negative int. */
  function Digits(n: nat): (r: string)
    ensures Numeral(r)
    ensures |r| > 1 ==> r[0] != '0'
    decreases n
  {
    if n < 10 then [DigitChar(n)] else Digits(n / 10) + [DigitChar(n % 10)]
  }

  /** The value of a string of decimal digits, as Python's `int()` reads it. */
  function DigitsValue(s: string): (n: nat)
    requires forall i :: 0 <= i < |s| ==> '0' <= s[i] <= '9'
    decreases |s|
  {
    if s == [] then 0 else 10 * DigitsValue(s[..|s| - 1]) + DigitValue(s[|s| - 1])
  }

  /** Reading back the decimal text of a number gives the number. */
  lemma {:induction false} DigitsRoundTrip(n: nat)
    ensures DigitsValue(Digits(n)) == n
    decreases n
  {
    var r := Digits(n);
    if n < 10 {
      assert r[..|r| - 1] == [];
    } else {
      DigitsRoundTrip(n / 10);
      assert r[..|r| - 1] == Digits(n / 10);
    }
  }

  /** Python's `str()` of an int. */
  function IntText(n: int): (r: string)
    ensures n >= 0 ==> Numeral(r) && DigitsValue(r) == n
    ensures n >= 0 ==> (|r| > 1 ==> r[0] != '0')
    ensures n < 0 ==> |r| > 1 && r[0] == '-' && Numeral(r[1..]) && DigitsValue(r[1..]) == -n
    ensures n < 0 ==> (|r| > 2 ==> r[1] != '0')
  {
    DigitsRoundTrip(if n >= 0 then n else -n);
    if n >= 0 then Digits(n) else "-" + Digits(-n)
  }

  /**
   * Python's `str()` of a scalar JSON value. The text Python gives a list or
   * a dict (its `repr`, with quoting rules for nested strings) is not part of
   * this model, so for those the result is `None`.
   */
  function Str(j: Json): (r: Option<string>)
    ensures r.Some? <==> Hashable(j)
    ensures j.JString? ==> r == Some(j.s)
  {
    match j
    case JNull => Some("None")
    case JBool(b) => Some(if b then "True" else "False")
    case JInt(n) => Some(IntText(n))
    case JString(s) => Some(s)
    case JArray(_) => None
    case JObject(_) => None
  }

  /** `key` occurs in `s` starting at index `i`. */
  predicate OccursAt(key: string, s: string, i: int) {
    0 <= i <= |s| - |key| && s[i..i + |key|] == key
  }

  /** Python's substring test `key in s` on two strings. */
  function Substring(key: string, s: string): (r: bool)
    ensures r <==> exists i :: OccursAt(key, s, i)
    decreases |s|
  {
    if key <= s then
      assert OccursAt(key, s, 0);
      true
    else if |s| <= |key| then
      assert forall i :: OccursAt(key, s, i) ==> i == 0;
      assert !OccursAt(key, s, 0) by {
        if |s| == |key| {
          assert s[0..|key|] == s;
        }
      }
      false
    else
      var rest := Substring(key, s[1..]);
      assert forall i :: OccursAt(key, s[1..], i) <==> OccursAt(key, s, i + 1) by {
        forall i ensures OccursAt(key, s[1..], i) <==> OccursAt(key, s, i + 1) {
          if 0 <= i <= |s| - 1 - |key| {
            assert s[1..][i..i + |key|] == s[i + 1..i + 1 + |key|];
          }
        }
      }
      assert !OccursAt(key, s, 0);
      assert (exists i :: OccursAt(key, s, i)) ==> exists i :: OccursAt(key, s[1..], i) by {
        if exists i :: OccursAt(key, s, i) {
          var k :| OccursAt(key, s, k);
          assert OccursAt(key, s[1..], k - 1);
        }
      }
      rest
  }
}
