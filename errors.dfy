/**
 * The error-code table and the two HTTP exceptions built from it. An error code is a
 * seven-digit number whose first digit is the service level, whose next three digits are
 * meant to be the HTTP status, and whose last three number the error.
 */
module Errors {
  import opened Wrappers
  import opened Text

  /** The members of `ErrorCode`. There is no `BAD_REQUEST`. */
  datatype ErrorCode =
    | ValidationError
    | Unauthorized
    | InvalidToken
    | Forbidden
    | NotFound
    | InternalServerError
    | DatabaseError
    | ExternalServiceError
    | ConfigurationError
    | UnknownError
    | DifyClientError
    | DifyLoginFailed

  function Code(e: ErrorCode): nat
  {
    match e
    case ValidationError => 1400001
    case Unauthorized => 1401001
    case InvalidToken => 1401002
    case Forbidden => 1403001
    case NotFound => 1404001
    case InternalServerError => 1500001
    case DatabaseError => 1500002
    case ExternalServiceError => 1500003
    case ConfigurationError => 1500004
    case UnknownError => 1999001
    case DifyClientError => 2001001
    case DifyLoginFailed => 2001002
  }

  function Message(e: ErrorCode): string
  {
    match e
    case ValidationError => "Request data validation failed"
    case Unauthorized => "Authentication failed"
    case InvalidToken => "Invalid or expired token"
    case Forbidden => "Permission denied for this resource"
    case NotFound => "The requested resource does not exist"
    case InternalServerError => "Internal server error"
    case DatabaseError => "Database operation error"
    case ExternalServiceError => "External service error"
    case ConfigurationError => "Server configuration error"
    case UnknownError => "An unknown error occurred"
    case DifyClientError => "Dify client error"
    case DifyLoginFailed => "Dify login failed"
  }

  /** The Python attribute name of each member. */
  function MemberName(e: ErrorCode): string
  {
    match e
    case ValidationError => "VALIDATION_ERROR"
    case Unauthorized => "UNAUTHORIZED"
    case InvalidToken => "INVALID_TOKEN"
    case Forbidden => "FORBIDDEN"
    case NotFound => "NOT_FOUND"
    case InternalServerError => "INTERNAL_SERVER_ERROR"
    case DatabaseError => "DATABASE_ERROR"
    case ExternalServiceError => "EXTERNAL_SERVICE_ERROR"
    case ConfigurationError => "CONFIGURATION_ERROR"
    case UnknownError => "UNKNOWN_ERROR"
    case DifyClientError => "DIFY_CLIENT_ERROR"
    case DifyLoginFailed => "DIFY_LOGIN_FAILED"
  }

  /** The members in declaration order. */
  const Members: seq<ErrorCode> := [
    ValidationError, Unauthorized, InvalidToken, Forbidden, NotFound, InternalServerError,
    DatabaseError, ExternalServiceError, ConfigurationError, UnknownError, DifyClientError,
    DifyLoginFailed]

  lemma MembersComplete()
    ensures forall e :: e in Members
  {
    forall e ensures e in Members {
      match e
      case ValidationError => assert Members[0] == e;
      case Unauthorized => assert Members[1] == e;
      case InvalidToken => assert Members[2] == e;
      case Forbidden => assert Members[3] == e;
      case NotFound => assert Members[4] == e;
      case InternalServerError => assert Members[5] == e;
      case DatabaseError => assert Members[6] == e;
      case ExternalServiceError => assert Members[7] == e;
      case ConfigurationError => assert Members[8] == e;
      case UnknownError => assert Members[9] == e;
      case DifyClientError => assert Members[10] == e;
      case DifyLoginFailed => assert Members[11] == e;
    }
  }

  /** `ErrorCode.<name>`: an attribute lookup that raises for a name the enum does not declare. */
  function Lookup(name: string): (r: Result<ErrorCode>)
    ensures r.Success? ==> MemberName(r.value) == name
    ensures r.Failure? ==> forall e :: MemberName(e) != name
    ensures r.Failure? ==> r.error == "AttributeError: " + name
  {
    MembersComplete();
    LookupIn(Members, name)
  }

  function LookupIn(es: seq<ErrorCode>, name: string): (r: Result<ErrorCode>)
    ensures r.Success? ==> MemberName(r.value) == name
    ensures r.Failure? ==> forall e :: e in es ==> MemberName(e) != name
    ensures r.Failure? ==> r.error == "AttributeError: " + name
  {
    if es == [] then Failure("AttributeError: " + name)
    else if MemberName(es[0]) == name then Success(es[0])
    else LookupIn(es[1..], name)
  }

  /** Every member can be looked up by its own name. */
  lemma LookupByName(e: ErrorCode)
    ensures Lookup(MemberName(e)) == Success(e)
  {
    NamesDistinct();
  }

  lemma NamesDistinct()
    ensures forall a, b :: MemberName(a) == MemberName(b) ==> a == b
  {
  }

  /** A name no member carries fails the lookup. */
  lemma LookupUndeclared(name: string)
    requires forall e :: MemberName(e) != name
    ensures Lookup(name) == Failure("AttributeError: " + name)
  {
  }

  /** `BAD_REQUEST` is not the name of any member. */
  lemma BadRequestUndeclared()
    ensures forall e :: MemberName(e) != "BAD_REQUEST"
  {
    forall e ensures MemberName(e) != "BAD_REQUEST" {
      assert "BAD_REQUEST"[0] == 'B';
      assert MemberName(e)[0] != 'B';
    }
  }

  /** Every code is a distinct seven-digit number. */
  lemma CodesDistinct()
    ensures forall a, b :: Code(a) == Code(b) ==> a == b
    ensures forall e :: 1000000 <= Code(e) < 10000000
  {
  }

  /** The first digit is 1 for the generic errors and 2 for the Dify ones. */
  lemma ServiceLevels(e: ErrorCode)
    ensures Code(e) / 1000000 == 2 <==> (e == DifyClientError || e == DifyLoginFailed)
    ensures Code(e) / 1000000 == 1 <==> !(e == DifyClientError || e == DifyLoginFailed)
  {
  }

  // Status-code derivation.

  /**
   * `int(str(code)[1:4])`: the number written by the second to fourth decimal digits. A code
   * with a single digit leaves an empty slice, which `int` rejects.
   */
  function PositionalStatus(code: nat): (r: Result<nat>)
    ensures r.Failure? <==> code < 10
  {
    var s := NatToString(code);
    var t := s[1..if |s| < 4 then |s| else 4];
    if t == [] then Failure("ValueError") else Success(ParseDigits(t))
  }

  lemma DigitRoundTrip(d: nat)
    requires d < 10
    ensures DigitValue(DigitChar(d)) == d
  {
    assert DigitValue(DigitChar(d)) == d;
  }

  /** The last three digits of a number with at least four. */
  lemma {:induction false} LastThreeDigits(n: nat)
    requires n >= 1000
    ensures NatToString(n) == NatToString(n / 1000) + [DigitChar(n / 100 % 10), DigitChar(n / 10 % 10), DigitChar(n % 10)]
  {
    assert NatToString(n) == NatToString(n / 10) + [DigitChar(n % 10)];
    assert NatToString(n / 10) == NatToString(n / 100) + [DigitChar(n / 10 % 10)] by {
      assert n / 10 / 10 == n / 100;
    }
    assert NatToString(n / 100) == NatToString(n / 1000) + [DigitChar(n / 100 % 10)] by {
      assert n / 100 / 10 == n / 1000;
    }
  }

  /** Three digit characters read back as the three-digit number. */
  lemma ThreeDigitsValue(a: nat, b: nat, c: nat)
    requires a < 10 && b < 10 && c < 10
    ensures ParseDigits([DigitChar(a), DigitChar(b), DigitChar(c)]) == 100 * a + 10 * b + c
  {
    var s := [DigitChar(a), DigitChar(b), DigitChar(c)];
    DigitRoundTrip(a);
    DigitRoundTrip(b);
    DigitRoundTrip(c);
    assert s[..2] == [DigitChar(a), DigitChar(b)];
    assert s[..2][..1] == [DigitChar(a)];
    assert s[..2][..1][..0] == [];
    assert ParseDigits([DigitChar(a)]) == a;
    assert ParseDigits(s[..2]) == 10 * a + b;
  }

  /** Digits 2 to 4 of a four-digit number, read back, are its last three digits. */
  lemma LowDigits(m: nat)
    ensures 100 * (m / 100 % 10) + 10 * (m / 10 % 10) + m % 10 == m % 1000
  {
    var m1 := m / 10;
    var m2 := m1 / 10;
    var m3 := m2 / 10;
    assert m2 == m / 100 by {
      assert m / 10 / 10 == m / 100;
    }
    var low := 100 * (m2 % 10) + 10 * (m1 % 10) + m % 10;
    assert m == 10 * m1 + m % 10;
    assert m1 == 10 * m2 + m1 % 10;
    assert m2 == 10 * m3 + m2 % 10;
    assert m == 1000 * m3 + low;
    ModThousand(m, m3, low);
  }

  lemma ModThousand(m: nat, q: nat, r: nat)
    requires m == 1000 * q + r && r < 1000
    ensures m % 1000 == r
  {
  }

  /** For a seven-digit code the positional status is digits 2 to 4, that is `code / 1000 % 1000`. */
  lemma SevenDigitStatus(code: nat)
    requires 1000000 <= code < 10000000
    ensures PositionalStatus(code) == Success(code / 1000 % 1000)
  {
    var m := code / 1000;
    assert 1000 <= m < 10000;
    LastThreeDigits(code);
    LastThreeDigits(m);
    assert NatToString(m / 1000) == [DigitChar(m / 1000)];
    var s := NatToString(code);
    assert |NatToString(m)| == 4;
    assert s[1..4] == NatToString(m)[1..4];
    assert s[1..4] == [DigitChar(m / 100 % 10), DigitChar(m / 10 % 10), DigitChar(m % 10)];
    ThreeDigitsValue(m / 100 % 10, m / 10 % 10, m % 10);
    LowDigits(m);
  }

  /** Every member's positional status is defined. */
  lemma StatusDefined(e: ErrorCode)
    ensures PositionalStatus(Code(e)) == Success(Code(e) / 1000 % 1000)
  {
    CodesDistinct();
    SevenDigitStatus(Code(e));
  }

  // The exceptions.

  /** The fields an HTTP exception carries. */
  datatype HttpError = HttpError(errorCode: nat, detail: string, statusCode: nat)

  /** The message, followed by `": "` and the detail when a non-empty detail is given. */
  function Detail(e: ErrorCode, detail: Option<string>): (r: string)
    ensures |r| >= |Message(e)| && r[..|Message(e)|] == Message(e)
    ensures r == Message(e) <==> detail.None? || detail.value == ""
  {
    if detail.Some? && detail.value != "" then Message(e) + ": " + detail.value else Message(e)
  }

  /** A non-empty detail can be read back from the composed text. */
  lemma DetailReadBack(e: ErrorCode, detail: string)
    requires detail != ""
    ensures var r := Detail(e, Some(detail)); var n := |Message(e)|;
      |r| == n + 2 + |detail| && r[n..n + 2] == ": " && r[n + 2..] == detail
  {
  }

  /** An absent detail and an empty one give the same text. */
  lemma EmptyDetailIsNoDetail(e: ErrorCode)
    ensures Detail(e, Some("")) == Detail(e, None) == Message(e)
  {
  }

  /**
   * `GeneralException(error_code, detail)`: the numeric code, the composed detail, and the
   * positional status, or the error `int` raises for a code too short to have one.
   */
  function GeneralException(e: ErrorCode, detail: Option<string>): (r: Result<HttpError>)
    ensures r.Success? <==> PositionalStatus(Code(e)).Success?
    ensures r.Success? ==> r.value.errorCode == Code(e) && r.value.detail == Detail(e, detail) &&
                           r.value.statusCode == PositionalStatus(Code(e)).value
  {
    match PositionalStatus(Code(e))
    case Failure(err) => Failure(err)
    case Success(status) => Success(HttpError(Code(e), Detail(e, detail), status))
  }

  /** For every member, the general exception's status is digits 2 to 4 of its code. */
  lemma GeneralStatus(e: ErrorCode, detail: Option<string>)
    ensures GeneralException(e, detail).Success?
    ensures GeneralException(e, detail).value.statusCode == Code(e) / 1000 % 1000
  {
    StatusDefined(e);
  }

  /** The general exception's status is an HTTP status for every generic code, as the table's rule says. */
  lemma GenericStatuses(e: ErrorCode, detail: Option<string>)
    requires Code(e) / 1000000 == 1
    ensures GeneralException(e, detail).Success?
    ensures GeneralException(e, detail).value.statusCode in {400, 401, 403, 404, 500, 999}
  {
    GeneralStatus(e, detail);
    MiddleDigits(e);
  }

  lemma MiddleDigits(e: ErrorCode)
    ensures Code(e) / 1000000 == 1 ==> Code(e) / 1000 % 1000 in {400, 401, 403, 404, 500, 999}
    ensures Code(e) / 1000000 == 2 ==> Code(e) / 1000 % 1000 == 1
    ensures e == NotFound ==> Code(e) / 1000 % 1000 == 404
    ensures e == Forbidden ==> Code(e) / 1000 % 1000 == 403
    ensures e == InternalServerError ==> Code(e) / 1000 % 1000 == 500
    ensures e == ValidationError ==> Code(e) / 1000 % 1000 == 400
  {
  }

  /** `NOT_FOUND` becomes 404, `FORBIDDEN` 403 and `INTERNAL_SERVER_ERROR` 500. */
  lemma CommonStatuses(e: ErrorCode, detail: Option<string>)
    ensures GeneralException(e, detail).Success?
    ensures e == NotFound ==> GeneralException(e, detail).value.statusCode == 404
    ensures e == Forbidden ==> GeneralException(e, detail).value.statusCode == 403
    ensures e == InternalServerError ==> GeneralException(e, detail).value.statusCode == 500
  {
    GeneralStatus(e, detail);
    MiddleDigits(e);
  }

  /** The rule is positional only: a Dify code raised as a general exception gets status 1. */
  lemma DifyCodeAsGeneral(e: ErrorCode, detail: Option<string>)
    requires e == DifyClientError || e == DifyLoginFailed
    ensures GeneralException(e, detail).Success?
    ensures GeneralException(e, detail).value.statusCode == 1
  {
    GeneralStatus(e, detail);
    ServiceLevels(e);
    MiddleDigits(e);
  }

  /** `DifyException(error_code, detail)`: the same code and detail, always with status 400. */
  function DifyException(e: ErrorCode, detail: Option<string>): (r: HttpError)
    ensures r.errorCode == Code(e) && r.statusCode == 400
  {
    HttpError(Code(e), Detail(e, detail), 400)
  }

  /** The two exceptions differ only in their status. */
  lemma ExceptionsAgree(e: ErrorCode, detail: Option<string>)
    ensures GeneralException(e, detail).Success?
    ensures GeneralException(e, detail).value.(statusCode := 400) == DifyException(e, detail)
  {
    StatusDefined(e);
  }

  /** `raise GeneralException(e, detail=...)` with a detail string, for a member of the table. */
  function Raise(e: ErrorCode, detail: string): (r: HttpError)
    ensures r.errorCode == Code(e) && r.statusCode == Code(e) / 1000 % 1000
    ensures r.detail == Detail(e, Some(detail))
  {
    GeneralStatus(e, Some(detail));
    GeneralException(e, Some(detail)).value
  }

  /** `str(exc)` of an HTTP exception: the status, a colon and the detail. */
  function ExceptionText(x: HttpError): string
  {
    NatToString(x.statusCode) + ": " + x.detail
  }

  /** What a service call does: return a value or raise an HTTP exception. */
  datatype Response<T> = Returned(value: T) | Raised(exception: HttpError)
}
