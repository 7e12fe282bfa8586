/**
 * The records flowing through the pipeline: one JavaScript object per secret,
 * per Parameter Store parameter, or for the caller's `addParams`.
 */
module Records {
  import opened Wrappers

  /**
   * A property value. Secret payloads and `addParams` hold strings and numbers;
   * a parameter without a `Value` leaves the property `undefined`.
   */
  datatype Value = Str(s: string) | Num(n: int) | Undefined

  /** One own property of an object, in insertion order. */
  type Entry = (string, Value)

  /** Object keys are unique. */
  predicate UniqueKeys(es: seq<Entry>) {
    forall i, j :: 0 <= i < j < |es| ==> es[i].0 != es[j].0
  }

  /** An object, as the sequence its `Object.entries` yields. */
  type Record = es: seq<Entry> | UniqueKeys(es)

  function Digit(d: nat): (c: char)
    requires d < 10
    ensures '0' <= c <= '9' && c as int - '0' as int == d
  {
    "0123456789"[d]
  }

  function NatToString(n: nat): (r: string)
    ensures |r| > 0 && forall k :: 0 <= k < |r| ==> '0' <= r[k] <= '9'
  {
    if n < 10 then [Digit(n)] else NatToString(n / 10) + [Digit(n % 10)]
  }

  /** The text a template literal `${value}` produces (integers only; see README). */
  function ValueToString(v: Value): (r: string)
    ensures v.Str? ==> r == v.s
    ensures v.Undefined? ==> r == "undefined"
    ensures v.Num? ==> ReadInt(r) == Some(v.n)
  {
    match v
    case Str(s) => s
    case Num(n) =>
      var digits := NatToString(if n < 0 then -n else n);
      NatToStringRoundTrip(if n < 0 then -n else n);
      if n < 0 then
        assert ("-" + digits)[1..] == digits;
        "-" + digits
      else digits
    case Undefined => "undefined"
  }

  // ---- reading a number back, as `Number(text)` would for plain decimals ----

  predicate IsDecimal(s: string) {
    |s| > 0 && forall k :: 0 <= k < |s| ==> '0' <= s[k] <= '9'
  }

  /** The value of a string of decimal digits, most significant first. */
  function DecimalValue(s: string): nat
    requires forall k :: 0 <= k < |s| ==> '0' <= s[k] <= '9'
  {
    if s == [] then 0 else DecimalValue(s[..|s| - 1]) * 10 + (s[|s| - 1] as int - '0' as int)
  }

  /** An optional minus sign followed by decimal digits. */
  function ReadInt(s: string): Option<int> {
    if |s| > 0 && s[0] == '-' then
      if IsDecimal(s[1..]) then Some(-(DecimalValue(s[1..]) as int)) else None
    else if IsDecimal(s) then Some(DecimalValue(s))
    else None
  }

  /** The digits `NatToString` writes read back as the number. */
  lemma {:induction false} NatToStringRoundTrip(n: nat)
    ensures IsDecimal(NatToString(n)) && NatToString(n)[0] != '-'
    ensures DecimalValue(NatToString(n)) == n
  {
    if n >= 10 {
      NatToStringRoundTrip(n / 10);
      var s := NatToString(n);
      assert s[..|s| - 1] == NatToString(n / 10);
    }
  }

  /** The entries of a list of records, record after record. */
  function Flatten(rs: seq<Record>): (r: seq<Entry>)
  {
    if rs == [] then [] else Flatten(rs[..|rs| - 1]) + rs[|rs| - 1]
  }

  /** Flattening distributes over concatenation of record lists. */
  lemma {:induction false} FlattenAppend(a: seq<Record>, b: seq<Record>)
    ensures Flatten(a + b) == Flatten(a) + Flatten(b)
    decreases |b|
  {
    if b == [] {
      assert a + b == a;
    } else {
      var c := a + b;
      assert c[..|c| - 1] == a + b[..|b| - 1];
      FlattenAppend(a, b[..|b| - 1]);
    }
  }

  /** The number of entries over all records. */
  function EntryCount(rs: seq<Record>): nat {
    if rs == [] then 0 else EntryCount(rs[..|rs| - 1]) + |rs[|rs| - 1]|
  }

  lemma {:induction false} FlattenLength(rs: seq<Record>)
    ensures |Flatten(rs)| == EntryCount(rs)
    decreases |rs|
  {
    if rs != [] {
      FlattenLength(rs[..|rs| - 1]);
    }
  }
}
