/** `PasswordResetService`: issuing a six-digit OTP for a known email and
    resetting the password with it. */
module PasswordReset {
  import opened Text
  import opened Errors
  import opened UserEntity
  import opened Users
  import opened Otps

  const ResetRequested := "If the email exists, a password reset OTP has been sent."
  const ResetDone := "Password has been reset successfully"
  const UserNotFound := "User not found"
  const InvalidOtp := "Invalid or expired OTP"
  const ExpiredOtp := "OTP has expired"

  /** Fifteen minutes, in milliseconds. */
  const OtpLifetime := 15 * 60 * 1000

  /** `generateOtp`: `randomInt(100000, 999999)` as decimal text. The upper
      bound is exclusive, so 999999 itself is never drawn; `random` stands
      for the drawn value. */
  function GenerateOtp(random: int): (otp: string)
    requires 100000 <= random < 999999
    ensures |otp| == 6 && AllDigits(otp) && otp[0] != '0'
    ensures ParseInt(otp) == Some(random)
  {
    assert Pow10(5) == 100000 && Pow10(6) == 1000000;
    NatToStringLength(random, 6);
    ParseIntOfNatToString(random);
    NatToString(random)
  }

  class PasswordResetService {
    const users: UserRepository
    const otps: OtpRepository

    ghost predicate Valid()
      reads this, users, otps
    {
      users.Valid() && otps.Valid()
    }

    constructor (users: UserRepository, otps: OtpRepository)
      requires users.Valid() && otps.Valid()
      ensures this.users == users && this.otps == otps && Valid()
    {
      this.users := users;
      this.otps := otps;
    }

    /** `requestPasswordReset`: the same message whether or not the email is
        known. For a known user, every earlier unused OTP is invalidated
        first, and then one new OTP is stored that expires fifteen minutes
        after `now`. An unknown email changes nothing. */
    method RequestPasswordReset(email: string, random: int, now: int, newId: string) returns (message: string)
      requires Valid()
      requires 100000 <= random < 999999
      requires forall i :: 0 <= i < |otps.rows| ==> otps.rows[i].id != newId
      modifies otps
      ensures Valid()
      ensures message == ResetRequested
      ensures users.FindByEmail(email).None? ==> otps.rows == old(otps.rows)
      ensures users.FindByEmail(email).Some? ==>
        var u := users.FindByEmail(email).value;
        otps.rows == Invalidated(old(otps.rows), u.id) + [OtpRow(newId, u.id, GenerateOtp(random), now + OtpLifetime, false)]
    {
      var user := users.FindByEmail(email);
      if user.None? {
        return ResetRequested;
      }
      var otp := GenerateOtp(random);
      var expiresAt := now + OtpLifetime;
      otps.InvalidateUserOtps(user.value.id);
      var _ := otps.CreateOtp(user.value.id, otp, expiresAt, newId);
      message := ResetRequested;
    }

    /** `resetPassword`: NotFound for an unknown email; BadRequest when no
        unused OTP of the user has that code; BadRequest when it expired
        before `now` (an OTP at exactly its expiry instant is accepted).
        Every rejection comes before any write. On success the password hash
        is replaced, the OTP is marked used and every other unused OTP of
        the user is invalidated. */
    method ResetPassword(email: string, otp: string, newPassword: string, now: int) returns (r: Result<string>)
      requires Valid()
      modifies users, otps
      ensures Valid()
      ensures var u := old(users.FindByEmail(email));
        && (u.None? ==> r == Err(NotFound(UserNotFound)))
        && (u.Some? && old(otps.FindValidOtp(u.value.id, otp)).None? ==> r == Err(BadRequest(InvalidOtp)))
        && ((u.Some? && old(otps.FindValidOtp(u.value.id, otp)).Some?
             && old(otps.FindValidOtp(u.value.id, otp)).value.expiresAt < now) ==> r == Err(BadRequest(ExpiredOtp)))
      ensures var u := old(users.FindByEmail(email));
        r.Ok? <==> (u.Some? && old(otps.FindValidOtp(u.value.id, otp)).Some?
                    && old(otps.FindValidOtp(u.value.id, otp)).value.expiresAt >= now)
      ensures r.Err? ==> users.users == old(users.users) && otps.rows == old(otps.rows)
      ensures r.Ok? ==>
        && r.value == ResetDone
        && var u := old(users.FindByEmail(email)).value;
           var row := old(otps.FindValidOtp(u.id, otp)).value;
           && row.expiresAt >= now
           && users.users == old(users.users)[u.id := u.(password := HashPassword(newPassword))]
           && otps.rows == Invalidated(MarkedUsed(old(otps.rows), row.id), u.id)
           && NoUnusedOtp(otps.rows, u.id)
    {
      var user := users.FindByEmail(email);
      if user.None? {
        return Err(NotFound(UserNotFound));
      }
      var row := otps.FindValidOtp(user.value.id, otp);
      if row.None? {
        return Err(BadRequest(InvalidOtp));
      }
      if row.value.expiresAt < now {
        return Err(BadRequest(ExpiredOtp));
      }
      users.UpdatePassword(user.value.id, HashPassword(newPassword));
      otps.MarkOtpAsUsed(row.value.id);
      otps.InvalidateUserOtps(user.value.id);
      InvalidatedLeavesNoValidOtp(MarkedUsed(old(otps.rows), row.value.id), user.value.id, otp);
      r := Ok(ResetDone);
    }
  }

  /** A reset right after a request, with the code that was issued and
      before the expiry, succeeds: the issued row is the only valid row of
      the user with that code. */
  lemma {:induction false} IssuedOtpIsFound(rows: seq<OtpRow>, userId: string, otp: string, newId: string, expiresAt: int)
    ensures var after := Invalidated(rows, userId) + [OtpRow(newId, userId, otp, expiresAt, false)];
      FirstValid(after, userId, otp) == Some(OtpRow(newId, userId, otp, expiresAt, false))
  {
    var inv := Invalidated(rows, userId);
    var row := OtpRow(newId, userId, otp, expiresAt, false);
    InvalidatedLeavesNoValidOtp(rows, userId, otp);
    FirstValidSkipsPrefix(inv, [row], userId, otp);
  }

  lemma {:induction false} FirstValidSkipsPrefix(a: seq<OtpRow>, b: seq<OtpRow>, userId: string, otp: string)
    requires FirstValid(a, userId, otp).None?
    ensures FirstValid(a + b, userId, otp) == FirstValid(b, userId, otp)
    decreases |a|
  {
    if a != [] {
      assert (a + b)[1..] == a[1..] + b;
      FirstValidSkipsPrefix(a[1..], b, userId, otp);
    } else {
      assert a + b == b;
    }
  }
}
