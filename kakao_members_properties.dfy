/**
  Properties of the Kakao login service's decision logic: the phone-number
  normalisation is undone by re-adding the country prefix, lookup-or-create
  keeps one record per email and is idempotent (also over whole sequences of
  logins), and a withdrawal touches nothing but the member's audit timestamp.
*/
module MembersServiceProperties {
  import opened Members
  import opened MembersService

  // ---------------------------------------------------------------------------
  // Phone numbers
  // ---------------------------------------------------------------------------

  /** A domestic number: a leading zero. */
  predicate IsDomestic(d: string) {
    |d| >= 1 && d[0] == '0'
  }

  /** The inverse of normalisation: the domestic zero replaced by the country prefix. */
  function Internationalize(d: string): (p: string)
    requires IsDomestic(d)
    ensures HasKoreanPrefix(p) && |p| == |d| + 3
  {
    KoreanPrefix + d[1..]
  }

  /** Normalisation and re-adding the prefix are inverse to each other on accepted numbers. */
  lemma PhoneRoundTrip(p: string, d: string)
    ensures HasKoreanPrefix(p) ==> IsDomestic(NormalizePhone(p).value) && Internationalize(NormalizePhone(p).value) == p
    ensures IsDomestic(d) ==> NormalizePhone(Internationalize(d)) == Ok(d)
  {
    if HasKoreanPrefix(p) {
      var n := NormalizePhone(p).value;
      assert p == p[..|KoreanPrefix|] + p[|KoreanPrefix|..];
      assert Internationalize(n) == KoreanPrefix + n[1..];
    }
    if IsDomestic(d) {
      var q := Internationalize(d);
      assert q[|KoreanPrefix|..] == d[1..];
      assert d == [d[0]] + d[1..];
    }
  }

  /** A number without the "+82 " prefix fails login before the member table is consulted. */
  lemma ForeignNumberIsRejected(t: Table, account: KakaoAccount, password: string)
    requires WellKeyed(t)
    requires !HasKoreanPrefix(account.phoneNumber)
    ensures Login(t, HttpOk, account, password) == Err(UnsupportedRegion)
  {
  }

  /** A login that succeeds stores the member with its phone number in domestic form. */
  lemma LoginStoresDomesticNumber(t: Table, status: int, account: KakaoAccount, password: string)
    requires WellKeyed(t)
    requires account.email !in t
    requires Login(t, status, account, password).Ok?
    ensures var m := Login(t, status, account, password).value.member;
      && IsDomestic(m.phoneNumber)
      && Internationalize(m.phoneNumber) == account.phoneNumber
      && m.name == account.nickname && m.gender == account.gender && m.birth == account.birth
  {
  }

  // ---------------------------------------------------------------------------
  // Lookup-or-create
  // ---------------------------------------------------------------------------

  /** One lookup-or-create adds a record exactly when the email was absent. */
  lemma RegisterCount(t: Table, info: KakaoMemberInfo, password: string)
    requires WellKeyed(t)
    ensures |Register(t, info, password).table| == if info.email in t then |t| else |t| + 1
  {
  }

  /**
    A second lookup-or-create for the same profile writes nothing and resolves
    the same member, whatever placeholder password it is given.
  */
  lemma RegisterIdempotent(t: Table, info: KakaoMemberInfo, password1: string, password2: string)
    requires WellKeyed(t)
    ensures var r := Register(t, info, password1);
      Register(r.table, info, password2) == r
  {
  }

  /** Logging in twice with the same profile leaves the table as one login did. */
  lemma LoginIdempotent(t: Table, status: int, account: KakaoAccount, password1: string, password2: string)
    requires WellKeyed(t)
    requires Login(t, status, account, password1).Ok?
    ensures var first := Login(t, status, account, password1).value;
      Login(first.table, status, account, password2) == Ok(first)
  {
  }

  /** Lookup-or-create applied to a sequence of (profile, placeholder password) logins. */
  function RegisterAll(t: Table, logins: seq<(KakaoMemberInfo, string)>): (r: Table)
    requires WellKeyed(t)
    ensures WellKeyed(r)
    decreases |logins|
  {
    if logins == [] then t
    else RegisterAll(Register(t, logins[0].0, logins[0].1).table, logins[1..])
  }

  /** The emails a sequence of logins presents. */
  function Emails(logins: seq<(KakaoMemberInfo, string)>): set<string> {
    set i | 0 <= i < |logins| :: logins[i].0.email
  }

  lemma EmailsCons(logins: seq<(KakaoMemberInfo, string)>)
    requires logins != []
    ensures Emails(logins) == {logins[0].0.email} + Emails(logins[1..])
  {
  }

  /** After any sequence of logins the table holds exactly the old emails and the logged-in ones. */
  lemma {:induction false} RegisterAllKeys(t: Table, logins: seq<(KakaoMemberInfo, string)>)
    requires WellKeyed(t)
    ensures RegisterAll(t, logins).Keys == t.Keys + Emails(logins)
    decreases |logins|
  {
    if logins != [] {
      var t1 := Register(t, logins[0].0, logins[0].1).table;
      RegisterAllKeys(t1, logins[1..]);
      EmailsCons(logins);
    }
  }

  /** A record that is already linked is never written again by later logins. */
  lemma {:induction false} RegisterAllKeepsLinked(t: Table, logins: seq<(KakaoMemberInfo, string)>, e: string)
    requires WellKeyed(t)
    requires e in t && t[e].isKakaoEmail
    ensures e in RegisterAll(t, logins) && RegisterAll(t, logins)[e] == t[e]
    decreases |logins|
  {
    if logins != [] {
      var t1 := Register(t, logins[0].0, logins[0].1).table;
      RegisterAllKeepsLinked(t1, logins[1..], e);
    }
  }

  /**
    A record that existed before a sequence of logins is never replaced: it
    keeps every field, and only its flag is set when its email logged in.
  */
  lemma {:induction false} RegisterAllKeepsExisting(t: Table, logins: seq<(KakaoMemberInfo, string)>, e: string)
    requires WellKeyed(t)
    requires e in t
    ensures e in RegisterAll(t, logins)
    ensures RegisterAll(t, logins)[e] == t[e].(isKakaoEmail := t[e].isKakaoEmail || e in Emails(logins))
    decreases |logins|
  {
    if logins == [] {
      assert e !in Emails(logins);
    } else {
      var t1 := Register(t, logins[0].0, logins[0].1).table;
      RegisterAllKeepsExisting(t1, logins[1..], e);
      EmailsCons(logins);
    }
  }

  /** Every email that logged in ends up with a linked record. */
  lemma {:induction false} RegisterAllLinks(t: Table, logins: seq<(KakaoMemberInfo, string)>, i: nat)
    requires WellKeyed(t)
    requires i < |logins|
    ensures var r := RegisterAll(t, logins);
      logins[i].0.email in r && r[logins[i].0.email].isKakaoEmail
    decreases |logins|
  {
    var t1 := Register(t, logins[0].0, logins[0].1).table;
    if i == 0 {
      RegisterAllKeepsLinked(t1, logins[1..], logins[0].0.email);
    } else {
      RegisterAllLinks(t1, logins[1..], i - 1);
      assert logins[1..][i - 1] == logins[i];
    }
  }

  /** Every email of the sequence already has a linked record in `t`. */
  ghost predicate AllLinked(t: Table, logins: seq<(KakaoMemberInfo, string)>) {
    forall i :: 0 <= i < |logins| ==> logins[i].0.email in t && t[logins[i].0.email].isKakaoEmail
  }

  /** Logins whose members are all linked already perform no write. */
  lemma {:induction false} RegisterAllNoWrite(t: Table, logins: seq<(KakaoMemberInfo, string)>)
    requires WellKeyed(t)
    requires AllLinked(t, logins)
    ensures RegisterAll(t, logins) == t
    decreases |logins|
  {
    if logins != [] {
      assert Register(t, logins[0].0, logins[0].1).table == t;
      assert AllLinked(t, logins[1..]) by {
        forall i | 0 <= i < |logins[1..]|
          ensures logins[1..][i].0.email in t && t[logins[1..][i].0.email].isKakaoEmail
        {
          assert logins[1..][i] == logins[i + 1];
        }
      }
      RegisterAllNoWrite(t, logins[1..]);
    }
  }

  /** After a sequence of logins, any further logins for emails among them write nothing. */
  lemma RegisterAllReplay(t: Table, logins: seq<(KakaoMemberInfo, string)>, again: seq<(KakaoMemberInfo, string)>)
    requires WellKeyed(t)
    requires Emails(again) <= Emails(logins)
    ensures RegisterAll(RegisterAll(t, logins), again) == RegisterAll(t, logins)
  {
    var r := RegisterAll(t, logins);
    forall j | 0 <= j < |again|
      ensures again[j].0.email in r && r[again[j].0.email].isKakaoEmail
    {
      assert again[j].0.email in Emails(again);
      var i :| 0 <= i < |logins| && logins[i].0.email == again[j].0.email;
      RegisterAllLinks(t, logins, i);
    }
    RegisterAllNoWrite(r, again);
  }

  // ---------------------------------------------------------------------------
  // Withdrawal
  // ---------------------------------------------------------------------------

  /**
    A successful withdrawal of the stored member changes exactly that member's
    audit timestamp: no key is added or removed, no other field changes
    (in particular the provider link stays set), no other record changes.
  */
  lemma WithdrawOnlyTouchesTimestamp(t: Table, member: Member, tokenStatus: int, unlinkStatus: int, now: Timestamp)
    requires member.email in t && t[member.email] == member
    requires tokenStatus == HttpOk && Is2xx(unlinkStatus)
    ensures var r := Withdraw(t, member, tokenStatus, unlinkStatus, now);
      && r.Ok?
      && r.value.Keys == t.Keys
      && r.value == t[member.email := t[member.email].(modifiedAt := Some(now))]
      && r.value[member.email].isKakaoEmail == t[member.email].isKakaoEmail
  {
  }

  /**
    Withdrawing the stored member keeps every record's provider-link flag:
    for the stored member, the link is sticky.
  */
  lemma WithdrawKeepsLinks(t: Table, member: Member, tokenStatus: int, unlinkStatus: int, now: Timestamp, e: string)
    requires member.email in t && t[member.email] == member
    requires e in t
    requires Withdraw(t, member, tokenStatus, unlinkStatus, now).Ok?
    ensures var r := Withdraw(t, member, tokenStatus, unlinkStatus, now).value;
      e in r && r[e].isKakaoEmail == t[e].isKakaoEmail
  {
  }

  /**
    Withdrawal saves the member it is given, not the stored record, so a
    given member whose flag is clear un-links a stored record that is linked.
  */
  lemma WithdrawStaleMemberUnlinks(t: Table, member: Member, tokenStatus: int, unlinkStatus: int, now: Timestamp)
    requires member.email in t && t[member.email].isKakaoEmail && !member.isKakaoEmail
    requires tokenStatus == HttpOk && Is2xx(unlinkStatus)
    ensures var r := Withdraw(t, member, tokenStatus, unlinkStatus, now);
      r.Ok? && member.email in r.value && !r.value[member.email].isKakaoEmail
  {
  }

  // ---------------------------------------------------------------------------
  // The end-to-end scenarios of the login flow
  // ---------------------------------------------------------------------------

  /** A new email with phone "+82 1012345678" yields one new linked member with "01012345678". */
  lemma ScenarioNewMember(t: Table, gender: Gender, birth: Date, password: string)
    requires WellKeyed(t)
    requires "new@x.com" !in t
    ensures var account := KakaoAccount("nick", "new@x.com", gender, birth, "+82 1012345678");
      var l := Login(t, HttpOk, account, password);
      && l.Ok?
      && l.value.member.phoneNumber == "01012345678"
      && l.value.member.isKakaoEmail
      && l.value.table == t["new@x.com" := l.value.member]
  {
  }

  /** An existing unlinked record for the email is linked in place; no record is added. */
  lemma ScenarioExistingUnlinked(t: Table, account: KakaoAccount, password: string)
    requires WellKeyed(t)
    requires account.email in t && !t[account.email].isKakaoEmail
    requires Login(t, HttpOk, account, password).Ok?
    ensures var l := Login(t, HttpOk, account, password).value;
      && l.table.Keys == t.Keys
      && l.table == t[account.email := t[account.email].(isKakaoEmail := true)]
  {
  }
}
