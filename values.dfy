/**
 * The values and records held in the tracker's key-value store.
 *
 * Every entity (user profile, course, material, assessment, submission,
 * grade, notification) is a JSON object stored under a string key. The
 * request handlers read and update these objects field by field, and several
 * of them accept a caller-supplied key without checking what kind of record
 * lies behind it, so a record is modelled as what it is at run time: a map
 * from field name to value. A field that is absent is JavaScript's
 * `undefined`, which JSON serialisation drops.
 */
module Values {

  datatype Option<+T> = None | Some(value: T)

  /** A JSON value. `Stamp(ms)` is an ISO-8601 instant as produced by
      `new Date().toISOString()`, kept as the milliseconds it denotes. */
  datatype Value = Null | Bool(b: bool) | Num(n: int) | Str(s: string) | Stamp(ms: int)

  type Record = map<string, Value>

  /** `r.f`: the field's value, or `None` when it is `undefined`. */
  function Field(r: Record, f: string): Option<Value>
  {
    if f in r then Some(r[f]) else None
  }

  /** `r` with `r.f = v`; assigning `undefined` leaves no field behind once
      the record is serialised. */
  function With(r: Record, f: string, v: Option<Value>): (w: Record)
    ensures Field(w, f) == v
    ensures forall g :: g != f ==> Field(w, g) == Field(r, g)
  {
    if v.Some? then r[f := v.value] else r - {f}
  }

  /** JavaScript truthiness: `undefined`, `null`, `false`, `0` and `""` are
      falsy. An instant is stored as non-empty text, hence truthy. */
  function Truthy(v: Option<Value>): (b: bool)
    ensures !b <==> v in {None, Some(Null), Some(Bool(false)), Some(Num(0)), Some(Str(""))}
  {
    match v
    case None => false
    case Some(Null) => false
    case Some(Bool(b)) => b
    case Some(Num(n)) => n != 0
    case Some(Str(s)) => s != ""
    case Some(Stamp(_)) => true
  }

  predicate IsDigit(c: char) { '0' <= c <= '9' }

  function DigitChar(n: nat): (c: char)
    requires n < 10
    ensures IsDigit(c) && c as int - '0' as int == n
  {
    ('0' as int + n) as char
  }

  /** `String(n)` for a non-negative integer (as `Date.now()` appears in keys). */
  function Decimal(n: nat): (s: string)
    ensures |s| > 0
    ensures forall i :: 0 <= i < |s| ==> IsDigit(s[i])
  {
    if n < 10 then [DigitChar(n)] else Decimal(n / 10) + [DigitChar(n % 10)]
  }

  /** The number a string of decimal digits denotes: the inverse of `Decimal`. */
  function DigitsValue(s: string): nat
  {
    if s == [] then 0
    else if IsDigit(s[|s| - 1]) then DigitsValue(s[..|s| - 1]) * 10 + (s[|s| - 1] as int - '0' as int)
    else DigitsValue(s[..|s| - 1]) * 10
  }

  /** Reading back the decimal text of a number gives the number. */
  lemma {:induction false} DecimalRoundTrip(n: nat)
    ensures DigitsValue(Decimal(n)) == n
  {
    var s := Decimal(n);
    if n < 10 {
      assert s[..|s| - 1] == [];
    } else {
      assert s[..|s| - 1] == Decimal(n / 10);
      DecimalRoundTrip(n / 10);
    }
  }

  /** Distinct instants give distinct decimal texts. */
  lemma DecimalInjective(m: nat, n: nat)
    requires Decimal(m) == Decimal(n)
    ensures m == n
  {
    DecimalRoundTrip(m);
    DecimalRoundTrip(n);
  }

  /** `${v}` in a template literal. An instant never reaches a template in
      this model (request bodies carry no instants and the fields that are
      interpolated are never written as instants), so its ISO-8601 spelling
      is not modelled and its millisecond count stands in for it. */
  function Text(v: Option<Value>): (t: string)
    ensures v.Some? && v.value.Str? ==> t == v.value.s
    ensures v.None? ==> t == "undefined"
  {
    match v
    case None => "undefined"
    case Some(Null) => "null"
    case Some(Bool(b)) => if b then "true" else "false"
    case Some(Num(n)) => if n < 0 then "-" + Decimal(-n) else Decimal(n)
    case Some(Str(s)) => s
    case Some(Stamp(ms)) => if ms < 0 then "-" + Decimal(-ms) else Decimal(ms)
  }

  /** No `:` in `s`; the identity provider's user ids (UUIDs) have this form. */
  predicate NoColon(s: string)
  {
    forall i :: 0 <= i < |s| ==> s[i] != ':'
  }
}
