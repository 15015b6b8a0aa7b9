/** The `User` entity: an account that owns apps. Passwords are stored only
    as hashes; the hash function is abstract (see `PasswordHash`). */
module UserEntity {
  import opened Text

  datatype UserRole = UserRoleUser | UserRoleAdmin

  /** A bcrypt hash, kept abstract: it is made from the first
      `BcryptMaxLength` characters of the password only, and comparing a
      password against it succeeds exactly when that prefix is the same. */
  datatype PasswordHash = Hashed(secret: string)

  /** bcrypt reads at most 72 bytes of the password and ignores the rest. */
  const BcryptMaxLength := 72

  /** The part of a password bcrypt reads. */
  function BcryptInput(password: string): (s: string)
    ensures |password| <= BcryptMaxLength ==> s == password
    ensures |password| > BcryptMaxLength ==> |s| == BcryptMaxLength && s == password[..BcryptMaxLength]
  {
    if |password| <= BcryptMaxLength then password else password[..BcryptMaxLength]
  }

  function HashPassword(password: string): (h: PasswordHash)
    ensures ComparePassword(password, h)
  {
    Hashed(BcryptInput(password))
  }

  predicate ComparePassword(password: string, h: PasswordHash): (ok: bool)
    ensures ok ==> StartsWith(password, h.secret) && |h.secret| <= BcryptMaxLength
    ensures |password| <= BcryptMaxLength ==> (ok <==> h.secret == password)
  {
    h == Hashed(BcryptInput(password))
  }

  /** A hash matches exactly the passwords that agree with the one it was
      made from on the characters bcrypt reads. */
  lemma {:induction false} HashMatchesOnlyItsPassword(p: string, q: string)
    ensures ComparePassword(q, HashPassword(p)) <==> BcryptInput(p) == BcryptInput(q)
  {
  }

  /** Below the limit, a hash matches only the very password it was made
      from. (At exactly 72 characters, any longer password with the same
      first 72 matches too.) */
  lemma {:induction false} ShortPasswordMatchesOnlyItself(p: string, q: string)
    requires |p| < BcryptMaxLength
    ensures ComparePassword(q, HashPassword(p)) <==> p == q
  {
  }

  /** Beyond the limit, every password that shares the first 72 characters
      matches: the tail of a long password is not checked. */
  lemma {:induction false} LongPasswordTailIgnored(p: string, tail: string)
    requires |p| >= BcryptMaxLength
    ensures ComparePassword(p + tail, HashPassword(p))
  {
    assert (p + tail)[..BcryptMaxLength] == p[..BcryptMaxLength];
  }

  /** A row of the `users` table. */
  datatype User = User(
    id: string,
    email: string,
    password: PasswordHash,
    firstName: Option<string>,
    lastName: Option<string>,
    role: UserRole,
    isActive: bool,
    emailVerifiedAt: Option<int>,
    createdAt: int)

  /** A new row with the column defaults: role USER, active, not verified. */
  function NewUser(id: string, email: string, password: PasswordHash,
                   firstName: Option<string>, lastName: Option<string>, now: int): (u: User)
    ensures u.role == UserRoleUser && u.isActive && u.emailVerifiedAt.None?
    ensures u.id == id && u.email == email && u.password == password
    ensures u.firstName == firstName && u.lastName == lastName
  {
    User(id, email, password, firstName, lastName, UserRoleUser, true, None, now)
  }

  /** The `fullName` getter: first and last name joined by a blank, each
      empty when absent, then trimmed. */
  function FullName(u: User): (s: string)
    ensures !TruthyStr(u.firstName) && !TruthyStr(u.lastName) ==> s == ""
  {
    var joined := OrElse(u.firstName, "") + " " + OrElse(u.lastName, "");
    assert !TruthyStr(u.firstName) && !TruthyStr(u.lastName) ==> Trim(joined) == "" by {
      if !TruthyStr(u.firstName) && !TruthyStr(u.lastName) {
        assert joined == " ";
        TrimAllSpace(joined);
      }
    }
    Trim(joined)
  }

  /** With two names that neither start nor end with whitespace, the full
      name is exactly "first last". */
  lemma {:induction false} FullNameOfTwoNames(u: User, first: string, last: string)
    requires u.firstName == Some(first) && u.lastName == Some(last)
    requires first != "" && !IsJsSpace(first[0]) && !IsJsSpace(first[|first| - 1])
    requires last != "" && !IsJsSpace(last[0]) && !IsJsSpace(last[|last| - 1])
    ensures FullName(u) == first + " " + last
  {
    var joined := first + " " + last;
    assert OrElse(u.firstName, "") + " " + OrElse(u.lastName, "") == joined;
    assert joined[0] == first[0];
    assert joined[|joined| - 1] == last[|last| - 1];
    TrimUnchanged(joined);
  }

  /** With only a first name, the full name is that name. */
  lemma {:induction false} FullNameOfFirstNameOnly(u: User, first: string)
    requires u.firstName == Some(first) && !TruthyStr(u.lastName)
    requires first != "" && !IsJsSpace(first[0])
    ensures FullName(u) == Trim(first)
  {
    var joined := first + " ";
    assert OrElse(u.firstName, "") + " " + OrElse(u.lastName, "") == joined;
    TrimEndDropsTrailingSpace(first);
  }

  /** With only a last name, the full name is that name: the blank before
      it is trimmed away. */
  lemma {:induction false} FullNameOfLastNameOnly(u: User, last: string)
    requires !TruthyStr(u.firstName) && u.lastName == Some(last)
    ensures FullName(u) == Trim(last)
  {
    var joined := " " + last;
    assert OrElse(u.firstName, "") + " " + OrElse(u.lastName, "") == joined;
    TrimDropsLeadingSpace(last);
  }

  lemma {:induction false} TrimDropsLeadingSpace(s: string)
    ensures Trim(" " + s) == Trim(s)
  {
    var t := " " + s;
    assert t[1..] == s;
    assert TrimStart(t) == TrimStart(s);
  }

  lemma {:induction false} TrimEndDropsTrailingSpace(s: string)
    requires s != [] && !IsJsSpace(s[0])
    ensures Trim(s + " ") == Trim(s)
  {
    var t := s + " ";
    assert TrimStart(t) == t;
    assert TrimStart(s) == s;
    assert t[..|t| - 1] == s;
  }

  /** The `isEmailVerified` getter. */
  predicate IsEmailVerified(u: User): (ok: bool)
    ensures ok ==> u != NewUser(u.id, u.email, u.password, u.firstName, u.lastName, u.createdAt)
  {
    u.emailVerifiedAt.Some?
  }
}
