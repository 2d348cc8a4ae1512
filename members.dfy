/**
  Data model of the provider-login slice of the member domain: the member
  record kept by the relational store, the profile reported by the Kakao
  identity provider, and the errors the login and withdrawal flows raise.
*/
module Members {

  datatype Option<T> = None | Some(value: T)

  datatype Gender = Male | Female

  /** A calendar date, already decoded from the provider's `yyyyMMdd` form. */
  datatype Date = Date(year: int, month: int, day: int)

  /** An audit instant, supplied by the caller (the clock is not modelled). */
  type Timestamp = int

  /**
    A member record. `email` is the key the store looks members up by;
    `isKakaoEmail` records that the account has been linked to the provider;
    `modifiedAt` is the audit timestamp that `updateDate` sets (a record built
    by the login flow carries none until then).
  */
  datatype Member = Member(
    email: string,
    password: string,
    gender: Gender,
    name: string,
    birth: Date,
    phoneNumber: string,
    isKakaoEmail: bool,
    modifiedAt: Option<Timestamp>)

  /**
    The profile fields the provider returns (`properties.nickname` and the
    `kakao_account` fields), already typed; the phone number is still in the
    provider's international form, e.g. "+82 10-1234-5678".
  */
  datatype KakaoAccount = KakaoAccount(
    nickname: string,
    email: string,
    gender: Gender,
    birth: Date,
    phoneNumber: string)

  /** The login flow's member-info record, with the phone number in domestic form. */
  datatype KakaoMemberInfo = KakaoMemberInfo(
    name: string,
    email: string,
    gender: Gender,
    birth: Date,
    phoneNumber: string)

  /**
    Failures of the flows: a non-OK status from the provider's token or
    profile endpoint, a phone number outside the one supported country, and
    a non-2xx status from the unlink endpoint.
  */
  datatype ServiceError =
    | UpstreamError(status: int)
    | UnsupportedRegion
    | ClientError(status: int)

  datatype Result<T> = Ok(value: T) | Err(error: ServiceError)
}
