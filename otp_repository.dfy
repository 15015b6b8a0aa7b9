/** `PasswordResetOtpRepository`: the table of one-time passwords for
    password resets, kept in insertion order. The columns are those the
    repository reads and writes. */
module Otps {
  import opened Text

  /** One OTP row. `expiresAt` is an instant in milliseconds. */
  datatype OtpRow = OtpRow(id: string, userId: string, otp: string, expiresAt: int, isUsed: bool)

  /** The first unused row of that user with that code. */
  function FirstValid(rows: seq<OtpRow>, userId: string, otp: string): (r: Option<OtpRow>)
    ensures r.Some? ==> r.value in rows && r.value.userId == userId && r.value.otp == otp && !r.value.isUsed
    ensures r.None? ==> forall i :: 0 <= i < |rows| ==> !(rows[i].userId == userId && rows[i].otp == otp && !rows[i].isUsed)
    decreases |rows|
  {
    if rows == [] then None
    else if rows[0].userId == userId && rows[0].otp == otp && !rows[0].isUsed then Some(rows[0])
    else FirstValid(rows[1..], userId, otp)
  }

  /** The table after every unused row of `userId` is marked used. */
  function Invalidated(rows: seq<OtpRow>, userId: string): (r: seq<OtpRow>)
    ensures |r| == |rows|
    ensures forall i :: 0 <= i < |rows| ==>
      r[i] == if rows[i].userId == userId then rows[i].(isUsed := true) else rows[i]
  {
    seq(|rows|, i requires 0 <= i < |rows| => if rows[i].userId == userId then rows[i].(isUsed := true) else rows[i])
  }

  /** The table after the rows with that id are marked used. */
  function MarkedUsed(rows: seq<OtpRow>, id: string): (r: seq<OtpRow>)
    ensures |r| == |rows|
    ensures forall i :: 0 <= i < |rows| ==> r[i] == if rows[i].id == id then rows[i].(isUsed := true) else rows[i]
  {
    seq(|rows|, i requires 0 <= i < |rows| => if rows[i].id == id then rows[i].(isUsed := true) else rows[i])
  }

  /** Rows that `cleanupExpiredOtps` deletes at instant `now`. */
  predicate CleanedUp(row: OtpRow, now: int) {
    row.expiresAt == now && !row.isUsed
  }

  /** The rows that survive a cleanup at `now`, in their order. */
  function Survivors(rows: seq<OtpRow>, now: int): (r: seq<OtpRow>)
    ensures forall x :: x in r <==> x in rows && !CleanedUp(x, now)
    ensures |r| <= |rows|
    ensures UniqueIds(rows) ==> UniqueIds(r)
    decreases |rows|
  {
    if rows == [] then []
    else if CleanedUp(rows[0], now) then Survivors(rows[1..], now)
    else
      var rest := Survivors(rows[1..], now);
      assert UniqueIds(rows) ==> forall k :: 0 <= k < |rest| ==> rest[k].id != rows[0].id by {
        if UniqueIds(rows) {
          forall k | 0 <= k < |rest| ensures rest[k].id != rows[0].id {
            assert rest[k] in rows[1..];
          }
        }
      }
      [rows[0]] + rest
  }

  predicate UniqueIds(rows: seq<OtpRow>) {
    forall i, j :: 0 <= i < j < |rows| ==> rows[i].id != rows[j].id
  }

  /** No unused row of that user is left. */
  predicate NoUnusedOtp(rows: seq<OtpRow>, userId: string) {
    forall i :: 0 <= i < |rows| ==> rows[i].userId == userId ==> rows[i].isUsed
  }

  /** After invalidation no unused OTP of the user remains, and so no code of
      that user is valid any more. */
  lemma {:induction false} InvalidatedLeavesNoValidOtp(rows: seq<OtpRow>, userId: string, otp: string)
    ensures NoUnusedOtp(Invalidated(rows, userId), userId)
    ensures FirstValid(Invalidated(rows, userId), userId, otp).None?
  {
  }

  /** Invalidating twice is invalidating once. */
  lemma {:induction false} InvalidateIdempotent(rows: seq<OtpRow>, userId: string)
    ensures Invalidated(Invalidated(rows, userId), userId) == Invalidated(rows, userId)
  {
  }

  /** The table of OTP rows. */
  class OtpRepository {
    var rows: seq<OtpRow>

    /** Row ids are unique. */
    ghost predicate Valid()
      reads this
    {
      UniqueIds(rows)
    }

    constructor ()
      ensures Valid() && rows == []
    {
      rows := [];
    }

    /** `createOtp`: appends one unused row under a fresh id. */
    method CreateOtp(userId: string, otp: string, expiresAt: int, newId: string) returns (row: OtpRow)
      requires Valid()
      requires forall i :: 0 <= i < |rows| ==> rows[i].id != newId
      modifies this
      ensures Valid()
      ensures row == OtpRow(newId, userId, otp, expiresAt, false)
      ensures rows == old(rows) + [row]
    {
      row := OtpRow(newId, userId, otp, expiresAt, false);
      rows := rows + [row];
    }

    /** `findValidOtp`: an unused row of that user with that code. The
        expiry is not part of the filter. */
    function FindValidOtp(userId: string, otp: string): (r: Option<OtpRow>)
      reads this
      ensures r.Some? <==> exists i :: 0 <= i < |rows| && rows[i].userId == userId && rows[i].otp == otp && !rows[i].isUsed
      ensures r.Some? ==> r.value in rows && r.value.userId == userId && r.value.otp == otp && !r.value.isUsed
    {
      FirstValid(rows, userId, otp)
    }

    /** `markOtpAsUsed`: only the row with that id changes. */
    method MarkOtpAsUsed(id: string)
      requires Valid()
      modifies this
      ensures Valid()
      ensures rows == MarkedUsed(old(rows), id)
    {
      rows := MarkedUsed(rows, id);
    }

    /** `invalidateUserOtps`: one update that marks every unused row of the
        user used; other users' rows are untouched. */
    method InvalidateUserOtps(userId: string)
      requires Valid()
      modifies this
      ensures Valid()
      ensures rows == Invalidated(old(rows), userId)
    {
      rows := Invalidated(rows, userId);
    }

    /** `cleanupExpiredOtps`: deletes the unused rows whose expiry equals
        the current instant; rows that expired earlier stay. */
    method CleanupExpiredOtps(now: int)
      requires Valid()
      modifies this
      ensures Valid()
      ensures rows == Survivors(old(rows), now)
    {
      rows := Survivors(rows, now);
    }
  }
}
