/**
 * The Python values the agent node reads out of the workflow state, and the
 * few built-in conversions it applies to them: `str(v)` when a value is
 * interpolated into an f-string, `int(v)` when a tool key is converted,
 * `d.get(k)` and `d[k]` on a dict.
 */
module PyValues {
  import opened Wrappers

  /** A dict keeps insertion order, so it is a sequence of (key, value) pairs. */
  datatype Value =
    | VNone
    | VBool(b: bool)
    | VInt(i: int)
    | VStr(s: string)
    | VList(items: seq<Value>)
    | VDict(entries: seq<(string, Value)>)

  predicate IsDigit(c: char) { '0' <= c <= '9' }

  predicate AllDigits(s: string) { forall k :: 0 <= k < |s| ==> IsDigit(s[k]) }

  function DigitChar(d: nat): (c: char)
    requires d < 10
    ensures IsDigit(c) && (c as int) - ('0' as int) == d
  {
    (('0' as int) + d) as char
  }

  /** The decimal digits of `n`, most significant first, without leading zeros. */
  function NatDigits(n: nat): (r: string)
    ensures |r| > 0 && AllDigits(r)
    ensures n > 0 ==> r[0] != '0'
    decreases n
  {
    if n < 10 then [DigitChar(n)] else NatDigits(n / 10) + [DigitChar(n % 10)]
  }

  /** Python's `str(n)` for an int. */
  function Decimal(n: int): string {
    if n < 0 then "-" + NatDigits(-n) else NatDigits(n)
  }

  /** The number a non-empty string of ASCII digits denotes. */
  function DigitsValue(s: string): nat
    requires AllDigits(s)
    decreases |s|
  {
    if s == [] then 0
    else DigitsValue(s[..|s| - 1]) * 10 + ((s[|s| - 1] as int) - ('0' as int))
  }

  /** Python's `int(s)` on a string: an optional sign followed by ASCII digits. */
  function ParseInt(s: string): (r: Option<int>)
    ensures r.Some? ==> |s| > 0
  {
    if |s| > 0 && (s[0] == '-' || s[0] == '+') then
      var body := s[1..];
      if |body| > 0 && AllDigits(body) then
        var m: int := DigitsValue(body);
        Some(if s[0] == '-' then -m else m)
      else None
    else if |s| > 0 && AllDigits(s) then Some(DigitsValue(s))
    else None
  }

  lemma {:induction false} DigitsValueOfNatDigits(n: nat)
    ensures DigitsValue(NatDigits(n)) == n
    decreases n
  {
    if n >= 10 {
      var s := NatDigits(n);
      assert s[..|s| - 1] == NatDigits(n / 10);
      DigitsValueOfNatDigits(n / 10);
    }
  }

  /** `int(str(n)) == n`: printing a tool id and parsing it back is the identity. */
  lemma ParseIntOfDecimal(n: int)
    ensures ParseInt(Decimal(n)) == Some(n)
  {
    var s := Decimal(n);
    if n < 0 {
      assert s[0] == '-' && s[1..] == NatDigits(-n);
      DigitsValueOfNatDigits(-n);
      assert DigitsValue(s[1..]) == -n;
    } else {
      assert s == NatDigits(n) && IsDigit(s[0]);
      DigitsValueOfNatDigits(n);
    }
  }

  /** Python's `int(v)` for the kinds of value a tool key can hold. */
  function ToInt(v: Value): (r: Option<int>)
    ensures v.VInt? ==> r == Some(v.i)
    ensures v.VBool? ==> r == Some(if v.b then 1 else 0)
    ensures v.VStr? ==> r == ParseInt(v.s)
    ensures v.VNone? || v.VList? || v.VDict? ==> r == None
  {
    match v
    case VInt(i) => Some(i)
    case VBool(b) => Some(if b then 1 else 0)
    case VStr(s) => ParseInt(s)
    case _ => None
  }

  /** The value of the first entry under `key`, if any: `d.get(key)`. */
  function DictGet(entries: seq<(string, Value)>, key: string): (r: Option<Value>)
    ensures r.Some? <==> exists k :: 0 <= k < |entries| && entries[k].0 == key
    ensures r.Some? ==> exists k :: 0 <= k < |entries| && entries[k] == (key, r.value)
    decreases |entries|
  {
    if entries == [] then None
    else if entries[0].0 == key then Some(entries[0].1)
    else
      var r := DictGet(entries[1..], key);
      assert forall k :: 1 <= k < |entries| ==> entries[k] == entries[1..][k - 1];
      r
  }

  /**
   * Python's `str(v)`. Strings are themselves; other values print as their
   * repr, where nested strings are wrapped in single quotes.
   */
  function PyStr(v: Value): (r: string)
    ensures v.VStr? ==> r == v.s
    ensures v.VNone? ==> r == "None"
  {
    if v.VStr? then v.s else PyRepr(v)
  }

  function PyRepr(v: Value): string
    decreases v, 1
  {
    match v
    case VNone => "None"
    case VBool(b) => if b then "True" else "False"
    case VInt(i) => Decimal(i)
    case VStr(s) => "'" + s + "'"
    case VList(items) => "[" + ReprItems(v, items) + "]"
    case VDict(entries) => "{" + ReprEntries(v, entries) + "}"
  }

  function ReprItems(ghost parent: Value, items: seq<Value>): string
    requires forall x :: x in items ==> x < parent
    decreases parent, 0, |items|
  {
    if items == [] then ""
    else
      assert items[0] in items;
      assert forall x :: x in items[1..] ==> x in items;
      PyRepr(items[0]) + (if |items| == 1 then "" else ", " + ReprItems(parent, items[1..]))
  }

  function ReprEntries(ghost parent: Value, entries: seq<(string, Value)>): string
    requires forall e :: e in entries ==> e.1 < parent
    decreases parent, 0, |entries|
  {
    if entries == [] then ""
    else
      assert entries[0] in entries;
      assert forall e :: e in entries[1..] ==> e in entries;
      "'" + entries[0].0 + "': " + PyRepr(entries[0].1)
      + (if |entries| == 1 then "" else ", " + ReprEntries(parent, entries[1..]))
  }
}
