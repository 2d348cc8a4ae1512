# Kakao member login: a Dafny model of the decision logic

This project models the decision logic of `KakaoMembersService`, the service of
a seat-reservation back end that logs members in through the Kakao identity
provider and lets them withdraw. The HTTP calls to the provider are not modelled.
What is modelled is the logic between those calls:

- **Phone-number region check.** The provider's phone number must start with
  `"+82 "`. That prefix is replaced by a domestic leading `"0"`; any other
  number is rejected.
- **Lookup-or-create by email.** The member repository is modelled as a table
  keyed by email:
  - an absent email gets a new member linked to the provider;
  - an existing unlinked member gets its `isKakaoEmail` flag set and is saved;
  - an existing linked member is left untouched.
- **Login.** Login is the profile fetch (its status and its already-decoded
  fields are inputs), then normalisation, then lookup-or-create. As written,
  `kakaoLogin` passes the authorisation code straight to the profile fetch
  (the token exchange at `KakaoMembersService.java:55` is commented out), so
  the model has no token step on login. This differs from the intended flow,
  which exchanges the code for a token first; the model follows the code.
- **Withdrawal.** The token exchange's status and the unlink call's status are
  inputs:
  - a non-OK token status gives an upstream error;
  - a non-2xx unlink status gives a client error;
  - in both error cases the table is unchanged;
  - on success, the member passed in gets its audit timestamp set to `now`
    and is saved.

Files:

- `members.dfy` (module `Members`): the data model. It holds the member
  record, the provider account, the member-info record, the service errors,
  `Option` and `Result`.
- `kakao_members_service.dfy` (module `MembersService`): the specification
  functions, and the classes `MembersRepository` (a `map` field with
  `FindByEmail` and `Save`) and `KakaoMembersService`. The service's methods
  are proved against those functions.
- `kakao_members_properties.dfy` (module `MembersServiceProperties`): lemmas
  about the specification. They cover:
  - the phone-number round trip;
  - that lookup-or-create counts records correctly and is idempotent;
  - that lookup-or-create keeps one record per email over any sequence of
    logins, never replaces a record that existed before, and that replaying
    such a sequence writes nothing;
  - that withdrawal of the stored member changes nothing but the timestamp,
    and that a stale member with its flag clear un-links the stored record;
  - the login scenarios for a new member and for an existing unlinked one.

Inputs that stand for what the model cannot see:

- The HTTP status codes of the provider's endpoints are integer parameters.
- The random UUID placeholder password is a string parameter.
- The clock reading used by `updateDate` is a `now` parameter.

## Model

| member | source | states |
|---|---|---|
| `MembersService.HasKoreanPrefix` | src/main/java/com/example/qquickqqueue/domain/members/service/KakaoMembersService.java:121 | Holds exactly when the string has at least four characters and they are `'+'`, `'8'`, `'2'` and a space, as `startsWith("+82 ")` tests. |
| `MembersService.Is2xx` | src/main/java/com/example/qquickqqueue/domain/members/service/KakaoMembersService.java:174 | Holds exactly when the status's hundreds digit is 2, as `is2xxSuccessful()` tests. |
| `MembersService.NormalizePhone` | src/main/java/com/example/qquickqqueue/domain/members/service/KakaoMembersService.java:119-125 | The result is an error (`UnsupportedRegion`) exactly when the number does not start with `"+82 "`. Otherwise the result is 3 characters shorter than the input, starts with `'0'`, and keeps every character after the prefix unchanged and in order. |
| `MembersService.FetchProfile` | src/main/java/com/example/qquickqqueue/domain/members/service/KakaoMembersService.java:111-134 | Succeeds exactly when the status is 200 and the phone prefix is `"+82 "`. A non-200 status gives `UpstreamError` with that status. An OK status with a foreign number gives `UnsupportedRegion`. On success, name, email, gender and birth are copied from the account and the phone number is the normalised one. |
| `MembersService.NewKakaoMember` | src/main/java/com/example/qquickqqueue/domain/members/service/KakaoMembersService.java:141-149 | The new member has the profile's email, gender, name, birth and phone number, the given placeholder password, `isKakaoEmail == true`, and no audit timestamp. |
| `MembersService.Register` | src/main/java/com/example/qquickqqueue/domain/members/service/KakaoMembersService.java:137-159 | The resolved member has the profile's email, is linked, and is what the table holds under that email. The new key set is the old one plus that email. Every other record is unchanged. An absent email yields `NewKakaoMember`. A present email yields the stored record with only the flag set. A present linked record leaves the table exactly as it was. One record per email is preserved. |
| `MembersService.Login` | src/main/java/com/example/qquickqqueue/domain/members/service/KakaoMembersService.java:54-58 | Succeeds exactly when the profile status is 200 and the phone prefix is `"+82 "`. Otherwise the error is `UpstreamError(status)` or `UnsupportedRegion`. On success, the result is exactly `Register` applied to the fetched profile. So the member has the account's email and is linked, the key set grows by at most that email, and every other record is unchanged. |
| `MembersService.Withdraw` | src/main/java/com/example/qquickqqueue/domain/members/service/KakaoMembersService.java:161-180 | Succeeds exactly when the token status is 200 and the unlink status is 2xx. A non-OK token status gives `UpstreamError`. A non-2xx unlink status gives `ClientError`, carrying that status. On success, the given member with its timestamp set to `now` is stored under its email, and every other record is unchanged. |
| `MembersService.MembersRepository.FindByEmail` | src/main/java/com/example/qquickqqueue/domain/members/service/KakaoMembersService.java:138 | Returns a record exactly when the email is a key. That record is the stored one and carries the email it was looked up by. |
| `MembersService.MembersRepository.Save` | src/main/java/com/example/qquickqqueue/domain/members/service/KakaoMembersService.java:150 | The table afterwards is the old table with the record stored under its own email. The one-record-per-email invariant is kept. |
| `MembersService.KakaoMembersService.RegisterKakaoMemberIfNeeded` | src/main/java/com/example/qquickqqueue/domain/members/service/KakaoMembersService.java:137-159 | The returned member and the repository's new table are exactly those of `Register` applied to the old table. The repository invariant is kept. |
| `MembersService.KakaoMembersService.KakaoLogin` | src/main/java/com/example/qquickqqueue/domain/members/service/KakaoMembersService.java:54-58 | On success, returns `Login`'s member and leaves `Login`'s table. On an error, returns `Login`'s error and leaves the repository unchanged. |
| `MembersService.KakaoMembersService.KakaoWithdrawal` | src/main/java/com/example/qquickqqueue/domain/members/service/KakaoMembersService.java:161-180 | On success, the repository holds `Withdraw`'s table. On an error, returns `Withdraw`'s error and leaves the repository unchanged. |
| `MembersServiceProperties.PhoneRoundTrip` | src/main/java/com/example/qquickqqueue/domain/members/service/KakaoMembersService.java:121-124 | An accepted number normalises to a domestic number. Re-adding `"+82 "` in place of the leading zero gives back the original. Every domestic number re-prefixed this way normalises back to itself. |
| `MembersServiceProperties.ForeignNumberIsRejected` | src/main/java/com/example/qquickqqueue/domain/members/service/KakaoMembersService.java:121-122 | With an OK profile status, a number without `"+82 "` makes login fail with `UnsupportedRegion`, so no member is produced. |
| `MembersServiceProperties.LoginStoresDomesticNumber` | src/main/java/com/example/qquickqqueue/domain/members/service/KakaoMembersService.java:124-150 | A new member created by login stores the domestic form of the provider's number, which re-prefixes to the provider's number. Name, gender and birth are copied from the account. |
| `MembersServiceProperties.RegisterCount` | src/main/java/com/example/qquickqqueue/domain/members/service/KakaoMembersService.java:140-156 | Lookup-or-create adds one record when the email is absent and none when it is present. |
| `MembersServiceProperties.RegisterIdempotent` | src/main/java/com/example/qquickqqueue/domain/members/service/KakaoMembersService.java:152-156 | A second lookup-or-create for the same profile, with any password, returns the same member and writes nothing. |
| `MembersServiceProperties.LoginIdempotent` | src/main/java/com/example/qquickqqueue/domain/members/service/KakaoMembersService.java:54-58 | A second successful login with the same account gives the same member and the same table as the first. |
| `MembersServiceProperties.RegisterAll` | src/main/java/com/example/qquickqqueue/domain/members/service/KakaoMembersService.java:137-159 | Any sequence of lookups-or-creates keeps one record per email. |
| `MembersServiceProperties.RegisterAllKeys` | src/main/java/com/example/qquickqqueue/domain/members/service/KakaoMembersService.java:138-150 | After any sequence of logins, the keys are exactly the old keys plus the emails that logged in. |
| `MembersServiceProperties.RegisterAllKeepsLinked` | src/main/java/com/example/qquickqqueue/domain/members/service/KakaoMembersService.java:152-156 | Once linked, a record is never written again by any later sequence of logins. |
| `MembersServiceProperties.RegisterAllKeepsExisting` | src/main/java/com/example/qquickqqueue/domain/members/service/KakaoMembersService.java:151-156 | A record that existed before any sequence of logins is never replaced. It keeps every field, and its flag is set exactly when it was already set or its email logged in. |
| `MembersServiceProperties.RegisterAllLinks` | src/main/java/com/example/qquickqqueue/domain/members/service/KakaoMembersService.java:148-155 | Every email in a sequence of logins ends with a linked record. |
| `MembersServiceProperties.RegisterAllNoWrite` | src/main/java/com/example/qquickqqueue/domain/members/service/KakaoMembersService.java:152-156 | A sequence of logins whose emails are all linked already leaves the table exactly as it was. |
| `MembersServiceProperties.RegisterAllReplay` | src/main/java/com/example/qquickqqueue/domain/members/service/KakaoMembersService.java:137-159 | Replaying logins for emails that have already logged in leaves the table unchanged. |
| `MembersServiceProperties.WithdrawOnlyTouchesTimestamp` | src/main/java/com/example/qquickqqueue/domain/members/service/KakaoMembersService.java:174-176 | A successful withdrawal of the stored member adds and removes no key. It changes only that member's timestamp, and the provider link stays set. |
| `MembersServiceProperties.WithdrawKeepsLinks` | src/main/java/com/example/qquickqqueue/domain/members/service/KakaoMembersService.java:174-176 | After a successful withdrawal of the stored member, every record keeps its provider-link flag, so the flag is sticky. |
| `MembersServiceProperties.WithdrawStaleMemberUnlinks` | src/main/java/com/example/qquickqqueue/domain/members/service/KakaoMembersService.java:174-176 | A successful withdrawal given a member whose flag is clear, while the stored record is linked, leaves that record un-linked, because the member given is what is saved. |
| `MembersServiceProperties.ScenarioNewMember` | src/main/java/com/example/qquickqqueue/domain/members/service/KakaoMembersService.java:119-150 | Take an absent email `new@x.com` with phone `"+82 1012345678"`. Login adds exactly one linked record, with phone `"01012345678"`. |
| `MembersServiceProperties.ScenarioExistingUnlinked` | src/main/java/com/example/qquickqqueue/domain/members/service/KakaoMembersService.java:151-155 | Take an existing unlinked record. Login flips its flag in place and adds no record. |

## Left out

- Outbound HTTP to the provider is not modelled: the token POST, the profile GET and the unlink POST (`KakaoMembersService.java:68-95, 97-117, 161-172`). Only their statuses enter the model, as integer inputs. The client is a `RestTemplate` with the default error handler, which throws inside the call on any 4xx or 5xx status. So the status checks at lines 87, 111 and 174-179 only ever see the other statuses. The model merges these cases into its error variants: a 5xx from unlink becomes `ClientError(status)` rather than a server-error exception. The table is unchanged either way.
- JSON decoding of the provider's answers is not modelled, and neither are date parsing (`yyyyMMdd`) or gender parsing (`KakaoMembersService.java:91-94, 115-132`). These are foreign libraries whose behaviour on missing or malformed fields cannot be seen. The account is taken as already-typed fields, so the parse-failure error path is not modelled.
- `getToken` (`KakaoMembersService.java:68-95`) is not modelled beyond its status check. On withdrawal only its `!= OK` check is kept (`Withdraw`'s token status). On login it is never called.
- Session issuance after lookup-or-create is not modelled: JWT creation, the Redis write of the refresh token under the member's email with a 7-day expiry, and the two response headers (`KakaoMembersService.java:59-65`). These are calls into code outside this model.
- `UUID.randomUUID()` is replaced by an arbitrary password parameter, because randomness is not modelled.
- Framework behaviour is not modelled: Spring transactions, `@Value` configuration, and JPA auditing of the member's timestamps. The `Members` entity is not part of this model, so a record created by login carries no timestamp, and `updateDate` is taken to set the timestamp to `now`.
- The repository table is keyed by email. The real store keys records by a surrogate id and finds them by email. `save` of a member is modelled as a write under its email.
- Withdrawal saves the member object it is given, not a fresh lookup. `Withdraw` and `KakaoWithdrawal` model that as written. The "only the timestamp changes" and "link is sticky" lemmas hold for the stored member. `WithdrawStaleMemberUnlinks` shows that a stale member with its flag clear un-links the stored record.
- Aliasing is not modelled. In the source, `setIsKakaoEmail` and `updateDate` mutate the same entity object the caller holds. The model works on member values, so it does not capture that the caller's object changes too.
- `Seat.java` is not modelled. It is a persistence entity with fields only and has no behaviour.
