/**
  The decision logic of the Kakao login service: the phone-number region
  check, lookup-or-create of a member by email, and the status-dependent
  commit of a withdrawal. The pure functions are the specification; the
  classes `MembersRepository` and `KakaoMembersService` are the imperative
  service, proved against them.
*/
module MembersService {
  import opened Members

  /** The only country calling-code prefix accepted on a provider phone number. */
  const KoreanPrefix: string := "+82 "

  /** The one status the token and profile endpoints are accepted with. */
  const HttpOk: int := 200

  /** The member table of the relational store, keyed by email. */
  type Table = map<string, Member>

  /** Every record is stored under its own email, so no email has two records. */
  ghost predicate WellKeyed(t: Table) {
    forall e :: e in t ==> t[e].email == e
  }

  /** Java's `startsWith("+82 ")`: the first four characters are '+', '8', '2' and a space. */
  predicate HasKoreanPrefix(p: string): (b: bool)
    ensures b <==> 4 <= |p| && p[0] == '+' && p[1] == '8' && p[2] == '2' && p[3] == ' '
  {
    |KoreanPrefix| <= |p| && p[..|KoreanPrefix|] == KoreanPrefix
  }

  /** A status of the 2xx class (Spring's `is2xxSuccessful`: the hundreds digit is 2). */
  predicate Is2xx(status: int): (b: bool)
    ensures b <==> status / 100 == 2
  {
    200 <= status < 300
  }

  /**
    Region check and normalisation of the provider's phone number: only the
    "+82 " prefix is accepted, and it is replaced by a domestic leading zero.
  */
  function NormalizePhone(p: string): (r: Result<string>)
    ensures r.Err? <==> !HasKoreanPrefix(p)
    ensures r.Err? ==> r.error == UnsupportedRegion
    ensures r.Ok? ==> |r.value| == |p| - 3 && r.value[0] == '0'
    ensures r.Ok? ==> r.value[1..] == p[|KoreanPrefix|..]
  {
    if !HasKoreanPrefix(p) then Err(UnsupportedRegion)
    else Ok("0" + p[|KoreanPrefix|..])
  }

  /**
    The profile step of login: a non-OK status from the profile endpoint is
    an upstream error; otherwise the phone number is region-checked and the
    member-info record is built from the account's fields.
  */
  function FetchProfile(status: int, account: KakaoAccount): (r: Result<KakaoMemberInfo>)
    ensures r.Ok? <==> status == HttpOk && HasKoreanPrefix(account.phoneNumber)
    ensures status != HttpOk ==> r == Err(UpstreamError(status))
    ensures status == HttpOk && !HasKoreanPrefix(account.phoneNumber) ==> r == Err(UnsupportedRegion)
    ensures r.Ok? ==>
      && r.value.name == account.nickname
      && r.value.email == account.email
      && r.value.gender == account.gender
      && r.value.birth == account.birth
      && NormalizePhone(account.phoneNumber) == Ok(r.value.phoneNumber)
  {
    if status != HttpOk then Err(UpstreamError(status))
    else
      match NormalizePhone(account.phoneNumber)
      case Err(e) => Err(e)
      case Ok(phone) =>
        Ok(KakaoMemberInfo(account.nickname, account.email, account.gender, account.birth, phone))
  }

  /** The member that first login with the provider creates; `password` is an opaque placeholder. */
  function NewKakaoMember(info: KakaoMemberInfo, password: string): (m: Member)
    ensures m.email == info.email && m.isKakaoEmail && m.modifiedAt == None
    ensures m.name == info.name && m.gender == info.gender && m.birth == info.birth
    ensures m.phoneNumber == info.phoneNumber && m.password == password
  {
    Member(info.email, password, info.gender, info.name, info.birth, info.phoneNumber, true, None)
  }

  /** The table after lookup-or-create, and the member it resolved. */
  datatype Registration = Registration(table: Table, member: Member)

  /**
    Lookup-or-create by email: an absent email gets a new linked member, a
    present unlinked member gets its flag set, a present linked member is
    left as it is.
  */
  function Register(t: Table, info: KakaoMemberInfo, password: string): (r: Registration)
    requires WellKeyed(t)
    ensures WellKeyed(r.table)
    ensures r.member.email == info.email && r.member.isKakaoEmail
    ensures r.table.Keys == t.Keys + {info.email}
    ensures r.table[info.email] == r.member
    ensures forall e :: e in t && e != info.email ==> r.table[e] == t[e]
    ensures info.email !in t ==> r.member == NewKakaoMember(info, password)
    ensures info.email in t ==> r.member == t[info.email].(isKakaoEmail := true)
    ensures info.email in t && t[info.email].isKakaoEmail ==> r.table == t
  {
    if info.email !in t then
      var m := NewKakaoMember(info, password);
      Registration(t[info.email := m], m)
    else if !t[info.email].isKakaoEmail then
      var m := t[info.email].(isKakaoEmail := true);
      Registration(t[info.email := m], m)
    else
      Registration(t, t[info.email])
  }

  /**
    Login as the code runs it: the profile fetch (given the authorisation
    code directly, no token exchange), then lookup-or-create.
  */
  function Login(t: Table, profileStatus: int, account: KakaoAccount, password: string): (r: Result<Registration>)
    requires WellKeyed(t)
    ensures r.Ok? <==> profileStatus == HttpOk && HasKoreanPrefix(account.phoneNumber)
    ensures r.Err? ==> r.error == (if profileStatus != HttpOk then UpstreamError(profileStatus) else UnsupportedRegion)
    ensures r.Ok? ==>
      && r.value.member.email == account.email
      && r.value.member.isKakaoEmail
      && r.value.table.Keys == t.Keys + {account.email}
      && forall e :: e in t && e != account.email ==> r.value.table[e] == t[e]
    ensures r.Ok? ==>
      && FetchProfile(profileStatus, account).Ok?
      && r.value == Register(t, FetchProfile(profileStatus, account).value, password)
  {
    match FetchProfile(profileStatus, account)
    case Err(e) => Err(e)
    case Ok(info) => Ok(Register(t, info, password))
  }

  /**
    Withdrawal: a non-OK token exchange is an upstream error, a non-2xx unlink
    a client error, both with the table untouched; otherwise the given member,
    with its audit timestamp set to `now`, is saved under its email.
  */
  function Withdraw(t: Table, member: Member, tokenStatus: int, unlinkStatus: int, now: Timestamp): (r: Result<Table>)
    ensures r.Ok? <==> tokenStatus == HttpOk && Is2xx(unlinkStatus)
    ensures tokenStatus != HttpOk ==> r == Err(UpstreamError(tokenStatus))
    ensures tokenStatus == HttpOk && !Is2xx(unlinkStatus) ==> r == Err(ClientError(unlinkStatus))
    ensures r.Ok? ==>
      && r.value.Keys == t.Keys + {member.email}
      && r.value[member.email] == member.(modifiedAt := Some(now))
      && forall e :: e in t && e != member.email ==> r.value[e] == t[e]
  {
    if tokenStatus != HttpOk then Err(UpstreamError(tokenStatus))
    else if Is2xx(unlinkStatus) then Ok(t[member.email := member.(modifiedAt := Some(now))])
    else Err(ClientError(unlinkStatus))
  }

  /** The member repository: a table of members keyed by email. */
  class MembersRepository {
    var table: Table

    ghost predicate Valid()
      reads this
    {
      WellKeyed(table)
    }

    constructor (initial: Table)
      requires WellKeyed(initial)
      ensures Valid() && table == initial
    {
      table := initial;
    }

    /** `findByEmail`: the record stored under `email`, if any. */
    method FindByEmail(email: string) returns (r: Option<Member>)
      requires Valid()
      ensures r.Some? <==> email in table
      ensures r.Some? ==> r.value == table[email] && r.value.email == email
    {
      if email in table {
        r := Some(table[email]);
      } else {
        r := None;
      }
    }

    /** `save`: insert or overwrite the record under its email. */
    method Save(m: Member)
      requires Valid()
      modifies this
      ensures Valid()
      ensures table == old(table)[m.email := m]
    {
      table := table[m.email := m];
    }
  }

  /** The service: orchestrates the provider's answers and the repository. */
  class KakaoMembersService {
    const repository: MembersRepository

    ghost predicate Valid()
      reads this, repository
    {
      repository.Valid()
    }

    constructor (repository: MembersRepository)
      requires repository.Valid()
      ensures Valid() && this.repository == repository
    {
      this.repository := repository;
    }

    /** Lookup-or-create of the member for a provider profile. */
    method RegisterKakaoMemberIfNeeded(info: KakaoMemberInfo, password: string) returns (m: Member)
      requires Valid()
      modifies repository
      ensures Valid()
      ensures Registration(repository.table, m) == Register(old(repository.table), info, password)
    {
      var found := repository.FindByEmail(info.email);
      if found.None? {
        m := NewKakaoMember(info, password);
        repository.Save(m);
      } else {
        m := found.value;
        if !m.isKakaoEmail {
          m := m.(isKakaoEmail := true);
          repository.Save(m);
        }
      }
    }

    /**
      `kakaoLogin` up to the member it resolves: profile, normalisation,
      lookup-or-create. On an error the repository is left as it was.
    */
    method KakaoLogin(profileStatus: int, account: KakaoAccount, password: string) returns (r: Result<Member>)
      requires Valid()
      modifies repository
      ensures Valid()
      ensures var l := Login(old(repository.table), profileStatus, account, password);
        && (l.Ok? ==> r == Ok(l.value.member) && repository.table == l.value.table)
        && (l.Err? ==> r == Err(l.error) && repository.table == old(repository.table))
    {
      var info := FetchProfile(profileStatus, account);
      if info.Err? {
        return Err(info.error);
      }
      var m := RegisterKakaoMemberIfNeeded(info.value, password);
      r := Ok(m);
    }

    /**
      `kakaoWithdrawal`: token exchange status, then unlink status; only on
      success is the member's audit timestamp updated and the member saved.
    */
    method KakaoWithdrawal(member: Member, tokenStatus: int, unlinkStatus: int, now: Timestamp) returns (r: Result<()>)
      requires Valid()
      modifies repository
      ensures Valid()
      ensures var w := Withdraw(old(repository.table), member, tokenStatus, unlinkStatus, now);
        && (w.Ok? ==> r == Ok(()) && repository.table == w.value)
        && (w.Err? ==> r == Err(w.error) && repository.table == old(repository.table))
    {
      if tokenStatus != HttpOk {
        return Err(UpstreamError(tokenStatus));
      }
      if Is2xx(unlinkStatus) {
        var updated := member.(modifiedAt := Some(now));
        repository.Save(updated);
        r := Ok(());
      } else {
        r := Err(ClientError(unlinkStatus));
      }
    }
  }
}
