/** The in-memory `pwdCodes` map of one-time verification codes, keyed by
    e-mail. `sendOtp`/`checkOtp` store and read the code under the field
    `otp`, `otp`/`resetPasswordOtp` under the field `code`; both work on the
    same map. Time is a parameter in milliseconds; the expiry timers are
    replaced by the explicit `expiresAt` comparison. */
module Codes {
  import opened Common

  /** Ten minutes, the lifetime of a code. */
  const Lifetime: int := 600000

  /** The property name an entry keeps its code under. */
  datatype CodeField = OtpField | CodeProp

  datatype Entry = Entry(field: CodeField, code: string, expiresAt: int)

  datatype Outcome = Invalid | Expired | Accepted

  /** The stored code as the reader sees it: undefined under the other field name. */
  function StoredAs(e: Entry, field: CodeField): (r: Option<Value>)
    ensures r.Some? <==> e.field == field
    ensures r.Some? ==> r.value == Str(e.code)
  {
    if e.field == field then Some(Str(e.code)) else None
  }

  /** The map after a code is issued for `email`: any old entry is replaced. */
  function AfterIssue(codes: map<string, Entry>, email: string, field: CodeField, code: string, now: int): (r: map<string, Entry>)
    ensures r.Keys == codes.Keys + {email}
    ensures r[email] == Entry(field, code, now + Lifetime)
    ensures forall m :: m in codes && m != email ==> r[m] == codes[m]
  {
    codes[email := Entry(field, code, now + Lifetime)]
  }

  /** The checks in their order: no entry, then a strict mismatch, then expiry. */
  function CheckOutcome(codes: map<string, Entry>, email: Option<string>, field: CodeField, given: Option<Value>, now: int): Outcome
  {
    if email.None? || email.value !in codes then Invalid
    else if given != StoredAs(codes[email.value], field) then Invalid
    else if codes[email.value].expiresAt < now then Expired
    else Accepted
  }

  /** The map after a check: only an accepted code is removed. */
  function AfterCheck(codes: map<string, Entry>, email: Option<string>, field: CodeField, given: Option<Value>, now: int): map<string, Entry>
  {
    if CheckOutcome(codes, email, field, given, now) == Accepted then codes - {email.value} else codes
  }

  /** Each outcome exactly when the source's tests say so. */
  lemma CheckOrder(codes: map<string, Entry>, email: Option<string>, field: CodeField, given: Option<Value>, now: int)
    ensures CheckOutcome(codes, email, field, given, now) == Invalid <==>
            email.None? || email.value !in codes || given != StoredAs(codes[email.value], field)
    ensures CheckOutcome(codes, email, field, given, now) == Expired <==>
            email.Some? && email.value in codes && given == StoredAs(codes[email.value], field) &&
            codes[email.value].expiresAt < now
    ensures CheckOutcome(codes, email, field, given, now) == Accepted <==>
            email.Some? && email.value in codes && given == StoredAs(codes[email.value], field) &&
            now <= codes[email.value].expiresAt
    ensures CheckOutcome(codes, email, field, given, now) != Accepted ==> AfterCheck(codes, email, field, given, now) == codes
    ensures CheckOutcome(codes, email, field, given, now) == Accepted ==>
            AfterCheck(codes, email, field, given, now) == codes - {email.value}
  {
  }

  /** A fresh code is accepted up to and including its expiry instant, and expired one millisecond later. */
  lemma AcceptedUntilExpiry(codes: map<string, Entry>, email: string, field: CodeField, code: string, t: int, now: int)
    requires t <= now
    ensures CheckOutcome(AfterIssue(codes, email, field, code, t), Some(email), field, Some(Str(code)), now) ==
            (if now <= t + Lifetime then Accepted else Expired)
  {
  }

  /** A code works once: after an accepted check the same check is invalid. */
  lemma AcceptedOnce(codes: map<string, Entry>, email: Option<string>, field: CodeField, given: Option<Value>, now: int, later: int)
    requires CheckOutcome(codes, email, field, given, now) == Accepted
    ensures CheckOutcome(AfterCheck(codes, email, field, given, now), email, field, given, later) == Invalid
  {
  }

  /** Issuing again replaces the entry: the earlier code is no longer accepted. */
  lemma ReissueForgetsOldCode(codes: map<string, Entry>, email: string, field: CodeField, first: string, second: string,
                              t1: int, t2: int, now: int)
    requires first != second
    ensures var m := AfterIssue(AfterIssue(codes, email, field, first, t1), email, field, second, t2);
            CheckOutcome(m, Some(email), field, Some(Str(first)), now) == Invalid
  {
  }

  /** The comparison is strict: the digits sent as a JSON number never match the stored text. */
  lemma NumericCodeRejected(codes: map<string, Entry>, email: string, field: CodeField, code: string, t: int, n: int)
    ensures CheckOutcome(AfterIssue(codes, email, field, code, t), Some(email), field, Some(Num(n)), t) == Invalid
  {
  }

  /** A code stored under `otp` read back under `code` is undefined, and so is
      a missing code in the request: that check passes without any code. */
  lemma OtherFieldMatchesMissingCode(codes: map<string, Entry>, email: string, code: string, t: int)
    ensures CheckOutcome(AfterIssue(codes, email, OtpField, code, t), Some(email), CodeProp, None, t) == Accepted
  {
  }

  class CodeStore {
    var codes: map<string, Entry>

    constructor ()
      ensures codes == map[]
    {
      codes := map[];
    }

    /** `sendOtp` and `otp`: a failing lookup query gives 400; an e-mail no
        registered account has gives 401 and no change; otherwise the entry is
        replaced and the code mailed (200). `registered` is the set of e-mails
        the lookup query finds. */
    method Issue(field: CodeField, email: Option<string>, registered: set<string>, dbFails: bool, code: string, now: int)
      returns (status: int)
      modifies this
      ensures dbFails ==> status == BAD_REQUEST
      ensures !dbFails && (email.None? || email.value !in registered) ==> status == UNAUTHORIZED
      ensures status == OK <==> !dbFails && email.Some? && email.value in registered
      ensures status == OK ==> codes == AfterIssue(old(codes), email.value, field, code, now)
      ensures status != OK ==> codes == old(codes)
    {
      if dbFails {
        return BAD_REQUEST;
      }
      if email.None? || email.value !in registered {
        return UNAUTHORIZED;
      }
      codes := codes[email.value := Entry(field, code, now + Lifetime)];
      status := OK;
    }

    /** `checkOtp` and `resetPasswordOtp`: 200 and the entry removed when the
        code is accepted, 401 otherwise with the map unchanged. */
    method Check(field: CodeField, email: Option<string>, given: Option<Value>, now: int) returns (outcome: Outcome, status: int)
      modifies this
      ensures outcome == CheckOutcome(old(codes), email, field, given, now)
      ensures status == (if outcome == Accepted then OK else UNAUTHORIZED)
      ensures codes == AfterCheck(old(codes), email, field, given, now)
    {
      if email.None? || email.value !in codes {
        return Invalid, UNAUTHORIZED;
      }
      var e := codes[email.value];
      if given != StoredAs(e, field) {
        return Invalid, UNAUTHORIZED;
      }
      if e.expiresAt < now {
        return Expired, UNAUTHORIZED;
      }
      codes := codes - {email.value};
      outcome, status := Accepted, OK;
    }
  }
}
