/** Values and conventions shared by every controller of the library back end:
    JavaScript request values and their coercions, the token gate, reply codes,
    and the fault oracle that stands for a failing SQL statement. */
module Common {

  datatype Option<T> = None | Some(value: T)

  /** HTTP status codes the controllers reply with. */
  const OK: int := 200
  const BAD_REQUEST: int := 400
  const UNAUTHORIZED: int := 401
  const SERVER_ERROR: int := 500

  /** A scalar JavaScript value as it arrives in a query string or a JSON body.
      Numbers are integers here; `NaN` is the result of a failed `Number(...)`. */
  datatype Value = Str(s: string) | Num(n: int) | NaN

  /** A query-string field: absent, one value, or a repeated key (an array). */
  datatype Field = Absent | One(v: Value) | Many(vs: seq<Value>)

  predicate IsDigit(c: char) { '0' <= c <= '9' }

  predicate AllDigits(s: string) { forall i :: 0 <= i < |s| ==> IsDigit(s[i]) }

  function DigitChar(d: nat): (c: char)
    requires d < 10
    ensures IsDigit(c) && c as int - '0' as int == d
  {
    (('0' as int) + d) as char
  }

  /** Decimal value of a string of digits (most significant first). */
  function DigitsValue(s: string): nat
    requires AllDigits(s)
  {
    if s == [] then 0
    else DigitsValue(s[..|s| - 1]) * 10 + (s[|s| - 1] as int - '0' as int)
  }

  /** Decimal rendering of a natural number, as a template literal `${n}` prints it. */
  function NatToString(n: nat): string
  {
    if n < 10 then [DigitChar(n)] else NatToString(n / 10) + [DigitChar(n % 10)]
  }

  /** Decimal rendering is a non-empty digit string that reads back as the number. */
  lemma {:induction false} NatToStringReadsBack(n: nat)
    ensures |NatToString(n)| > 0 && AllDigits(NatToString(n))
    ensures DigitsValue(NatToString(n)) == n
  {
    if n >= 10 {
      NatToStringReadsBack(n / 10);
      var s := NatToString(n);
      assert s[..|s| - 1] == NatToString(n / 10);
    }
  }

  /** JavaScript truthiness of a scalar: "" , 0 and NaN are falsy. */
  predicate Truthy(v: Value)
  {
    match v
    case Str(s) => s != []
    case Num(n) => n != 0
    case NaN => false
  }

  /** `if (field)` on a query-string field: an array is truthy even when empty. */
  predicate FieldTruthy(f: Field)
  {
    match f
    case Absent => false
    case One(v) => Truthy(v)
    case Many(_) => true
  }

  /** `Array.isArray(x) ? x : [x]` */
  function AsList(f: Field): (r: seq<Value>)
    requires f != Absent
    ensures f.One? ==> r == [f.v]
    ensures f.Many? ==> r == f.vs
  {
    match f
    case One(v) => [v]
    case Many(vs) => vs
  }

  /** `Number(v)` on the integer forms JavaScript accepts: the empty string is 0,
      an optionally signed run of decimal digits is its value, anything else NaN. */
  function NumberOf(v: Value): (r: Value)
    ensures r.Str? == false
    ensures v.Num? ==> r == v
    ensures v.Str? && AllDigits(v.s) ==> r == Num(DigitsValue(v.s))
    ensures v.Str? && v.s != [] && !AllDigits(v.s) && v.s[0] != '-' && v.s[0] != '+' ==> r == NaN
  {
    match v
    case Num(_) => v
    case NaN => NaN
    case Str(s) =>
      if AllDigits(s) then Num(DigitsValue(s))
      else if |s| > 1 && s[0] == '-' && AllDigits(s[1..]) then Num(0 - DigitsValue(s[1..]) as int)
      else if |s| > 1 && s[0] == '+' && AllDigits(s[1..]) then Num(DigitsValue(s[1..]))
      else NaN
  }

  /** `values.map(Number)` */
  function NumbersOf(vs: seq<Value>): (r: seq<Value>)
    ensures |r| == |vs| && forall i :: 0 <= i < |vs| ==> r[i] == NumberOf(vs[i])
  {
    seq(|vs|, i requires 0 <= i < |vs| => NumberOf(vs[i]))
  }

  /** Number(String(n)) == n: the decimal text of a count coerces back to it. */
  lemma NumberOfDecimal(n: nat)
    ensures NumberOf(Str(NatToString(n))) == Num(n)
  {
    NatToStringReadsBack(n);
  }

  /** The part of the verified token the controllers look at. `staff` is the
      `funcionario` object some revisions put in the payload; tokens minted by
      `createJWT` carry only `userID`, so it is then absent. */
  datatype StaffClaim = StaffClaim(tipopessoa: Value, privilegio: Value)
  datatype Claims = Claims(userId: int, staff: Option<StaffClaim>)

  /** The token gate every protected controller opens with: no token (absent or
      empty) gives 401, a token `verifyJWT` rejects gives 401. `verified` is the
      oracle's answer for this token. Returns the reply code, or None to go on. */
  function TokenGate(token: Option<string>, verified: Option<Claims>): (r: Option<int>)
    ensures r.None? <==> token.Some? && token.value != [] && verified.Some?
    ensures r.Some? ==> r.value == UNAUTHORIZED
  {
    if token.None? || token.value == [] then Some(UNAUTHORIZED)
    else if verified.None? then Some(UNAUTHORIZED)
    else None
  }

  /** The fault oracle: `failAt == Some(k)` means the k-th SQL statement an
      operation issues (counting from 0) raises. */
  predicate Raises(failAt: Option<nat>, k: nat) { failAt == Some(k) }

  /** A request body: absent, or present with or without the object the controller destructures. */
  datatype Payload<T> = NoBody | Body(item: Option<T>)

  /** A body that is either one object or an array of them. */
  datatype OneOrMany<T> = Single(x: T) | List(xs: seq<T>)

  /** `Array.isArray(b) ? b : [b]` */
  function Normalised<T>(b: OneOrMany<T>): (r: seq<T>)
    ensures b.Single? ==> r == [b.x]
    ensures b.List? ==> r == b.xs
  {
    match b
    case Single(x) => [x]
    case List(xs) => xs
  }

  /** Postgres reading a parameter as an integer column value; None when it refuses. */
  function PgInt(v: Value): (r: Option<int>)
    ensures v.Num? ==> r == Some(v.n)
    ensures v.Str? && v.s != [] && AllDigits(v.s) ==> r == Some(DigitsValue(v.s))
    ensures v.NaN? || (v.Str? && v.s == []) ==> r.None?
  {
    if v.Str? && v.s == [] then None
    else match NumberOf(v)
      case Num(n) => Some(n)
      case _ => None
  }

  /** A row key as `WHERE ID = $k` receives it: an undefined field is sent as
      NULL and matches no row; a value Postgres cannot read makes the statement raise. */
  datatype Key = NoKey | Key(id: int) | BadKey

  function KeyOf(v: Option<Value>): (k: Key)
    ensures v.None? ==> k == NoKey
    ensures v.Some? && PgInt(v.value).Some? ==> k == Key(PgInt(v.value).value)
    ensures v.Some? && PgInt(v.value).None? ==> k == BadKey
  {
    if v.None? then NoKey
    else match PgInt(v.value)
      case Some(n) => Key(n)
      case None => BadKey
  }

  lemma AppendAssoc<T>(x: seq<T>, y: seq<T>, z: seq<T>)
    ensures x + (y + z) == (x + y) + z
  {
  }
}
