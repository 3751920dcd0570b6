/**
 * The user part of the data layer: the password value object, the account
 * validation rules, and how the user repository classifies what the
 * database reports. bcrypt, the email pattern and the database are given
 * as parameters.
 */
module Data {
  import opened Base
  import opened Validation

  /** The bcrypt cost the password hash is generated with. */
  const BCRYPT_COST := 12

  /** What `bcrypt.GenerateFromPassword` returns. */
  datatype HashResult = Hashed(hash: Bytes) | HashFailed(err: Error)

  /**
   * Stand-in for the bcrypt package: `generate(plaintext, cost)` and
   * `compare(hash, plaintext)`, which reports nil when the plaintext matches.
   */
  datatype Bcrypt = Bcrypt(
    generate: (Bytes, int) -> HashResult,
    compare: (Option<Bytes>, Bytes) -> Option<Error>)

  /** The comparison accepts every plaintext against the hash generated from it. */
  ghost predicate RoundTrips(bcrypt: Bcrypt) {
    forall p: Bytes :: bcrypt.generate(p, BCRYPT_COST).Hashed? ==>
      bcrypt.compare(Some(bcrypt.generate(p, BCRYPT_COST).hash), p) == None
  }

  /** A user's password: the plaintext it was set from, if kept, and its hash. */
  class Password {
    var plaintext: Option<Bytes>
    var hash: Option<Bytes>

    /** The zero value: neither a plaintext nor a hash. */
    constructor ()
      ensures plaintext == None && hash == None
    {
      plaintext, hash := None, None;
    }

    /** Hash `plaintextPassword`; keep both only when hashing succeeds. */
    method Set(plaintextPassword: Bytes, bcrypt: Bcrypt) returns (err: Option<Error>)
      modifies this
      ensures err == None <==> bcrypt.generate(plaintextPassword, BCRYPT_COST).Hashed?
      ensures err == None ==>
        plaintext == Some(plaintextPassword) &&
        hash == Some(bcrypt.generate(plaintextPassword, BCRYPT_COST).hash)
      ensures err != None ==>
        err == Some(bcrypt.generate(plaintextPassword, BCRYPT_COST).err) &&
        plaintext == old(plaintext) && hash == old(hash)
    {
      var result := bcrypt.generate(plaintextPassword, BCRYPT_COST);
      if result.HashFailed? {
        return Some(result.err);
      }
      plaintext := Some(plaintextPassword);
      hash := Some(result.hash);
      return None;
    }

    /**
     * Whether `plaintextPassword` matches the stored hash: a match, a
     * mismatch (false and no error), or the comparison's other error.
     */
    function Matches(plaintextPassword: Bytes, bcrypt: Bcrypt): (r: (bool, Option<Error>))
      reads this
      ensures r.0 ==> r.1 == None
      ensures r.0 <==> bcrypt.compare(hash, plaintextPassword) == None
      ensures r.1 != None <==>
        (bcrypt.compare(hash, plaintextPassword) != None &&
         !Is(bcrypt.compare(hash, plaintextPassword).value, MismatchedHashAndPassword))
      ensures r.1 != None ==> r.1 == bcrypt.compare(hash, plaintextPassword)
    {
      var err := bcrypt.compare(hash, plaintextPassword);
      if err != None then
        if Is(err.value, MismatchedHashAndPassword) then (false, None) else (false, err)
      else (true, None)
    }
  }

  /**
   * Hashing a password and then checking the same plaintext against it
   * reports a match, provided bcrypt's comparison accepts its own hashes.
   */
  method SetThenMatches(plaintextPassword: Bytes, bcrypt: Bcrypt) returns (setErr: Option<Error>, matched: bool, err: Option<Error>)
    requires RoundTrips(bcrypt)
    ensures setErr == None <==> bcrypt.generate(plaintextPassword, BCRYPT_COST).Hashed?
    ensures setErr == None ==> matched && err == None
  {
    var password := new Password();
    setErr := password.Set(plaintextPassword, bcrypt);
    matched, err := false, None;
    if setErr == None {
      var r := password.Matches(plaintextPassword, bcrypt);
      matched, err := r.0, r.1;
    }
  }

  /** A user as the registration path builds it; the fields read back from the database are not modelled. */
  class User {
    var name: Bytes
    var email: Bytes
    var activated: bool
    const password: Password

    constructor (name: Bytes, email: Bytes, activated: bool)
      ensures this.name == name && this.email == email && this.activated == activated
      ensures fresh(password) && password.plaintext == None && password.hash == None
    {
      this.name, this.email, this.activated := name, email, activated;
      password := new Password();
    }
  }

  // ---------------------------------------------------------------------
  // Validation rules

  const MAX_NAME_BYTES := 500
  const MIN_PASSWORD_BYTES := 8
  const MAX_PASSWORD_BYTES := 72
  const MISSING_HASH_PANIC := "missing password hash for user"

  /** The checks `ValidateEmail` makes. */
  function EmailChecks(email: Bytes, matchesEmail: Bytes -> bool): seq<Condition> {
    [Condition(email != [], "email", "must be provided"),
     Condition(matchesEmail(email), "email", "must be a valid address")]
  }

  /** The checks `ValidatePasswordPlaintext` makes. */
  function PasswordChecks(password: Bytes): seq<Condition> {
    [Condition(password != [], "password", "must be provided"),
     Condition(|password| >= MIN_PASSWORD_BYTES, "password", "must be at least 8 bytes long"),
     Condition(|password| <= MAX_PASSWORD_BYTES, "password", "must not be more that 72 bytes long")]
  }

  /** The checks `validateUser` makes on the name. */
  function NameChecks(name: Bytes): seq<Condition> {
    [Condition(name != [], "name", "must be provided"),
     Condition(|name| <= MAX_NAME_BYTES, "name", "must be not more than 500 bytes long")]
  }

  /** The checks `validateUser` makes, in order; the password is checked only while its plaintext is kept. */
  function UserChecks(name: Bytes, email: Bytes, plaintext: Option<Bytes>, matchesEmail: Bytes -> bool): seq<Condition> {
    NameChecks(name) + EmailChecks(email, matchesEmail) +
    (if plaintext != None then PasswordChecks(plaintext.value) else [])
  }

  method ValidateEmail(v: Validator, email: Bytes, matchesEmail: Bytes -> bool)
    modifies v
    ensures v.errors == ApplyChecks(old(v.errors), EmailChecks(email, matchesEmail))
  {
    ghost var checks := EmailChecks(email, matchesEmail);
    v.Check(email != [], "email", "must be provided");
    assert v.errors == ApplyChecks(old(v.errors), checks[..1]);
    v.Check(matchesEmail(email), "email", "must be a valid address");
    ApplyOneMore(old(v.errors), checks[..1], checks[1]);
    assert checks[..1] + [checks[1]] == checks;
  }

  method ValidatePasswordPlaintext(v: Validator, password: Bytes)
    modifies v
    ensures v.errors == ApplyChecks(old(v.errors), PasswordChecks(password))
  {
    ghost var checks := PasswordChecks(password);
    v.Check(password != [], "password", "must be provided");
    assert v.errors == ApplyChecks(old(v.errors), checks[..1]);
    v.Check(|password| >= MIN_PASSWORD_BYTES, "password", "must be at least 8 bytes long");
    ApplyOneMore(old(v.errors), checks[..1], checks[1]);
    assert checks[..1] + [checks[1]] == checks[..2];
    v.Check(|password| <= MAX_PASSWORD_BYTES, "password", "must not be more that 72 bytes long");
    ApplyOneMore(old(v.errors), checks[..2], checks[2]);
    assert checks[..2] + [checks[2]] == checks;
  }

  /**
   * `validateUser`: records the name, email and (when the plaintext is kept)
   * password errors, then panics when the user has no password hash,
   * whatever the checks found.
   */
  method ValidateUser(v: Validator, user: User, matchesEmail: Bytes -> bool) returns (panic: Option<string>)
    modifies v
    ensures v.errors == ApplyChecks(old(v.errors),
      UserChecks(user.name, user.email, user.password.plaintext, matchesEmail))
    ensures panic != None <==> user.password.hash == None
    ensures panic != None ==> panic.value == MISSING_HASH_PANIC
  {
    ghost var names := NameChecks(user.name);
    v.Check(user.name != [], "name", "must be provided");
    assert v.errors == ApplyChecks(old(v.errors), names[..1]);
    v.Check(|user.name| <= MAX_NAME_BYTES, "name", "must be not more than 500 bytes long");
    ApplyOneMore(old(v.errors), names[..1], names[1]);
    assert names[..1] + [names[1]] == names;

    ghost var afterName := v.errors;
    ValidateEmail(v, user.email, matchesEmail);
    ApplyConcat(old(v.errors), names, EmailChecks(user.email, matchesEmail));

    ghost var afterEmail := v.errors;
    ghost var checked := names + EmailChecks(user.email, matchesEmail);
    if user.password.plaintext != None {
      ValidatePasswordPlaintext(v, user.password.plaintext.value);
      ApplyConcat(old(v.errors), checked, PasswordChecks(user.password.plaintext.value));
    } else {
      assert checked + [] == checked;
    }

    panic := None;
    if user.password.hash == None {
      panic := Some(MISSING_HASH_PANIC);
    }
  }

  /** `ValidateEmail` records an email error iff the email is empty or does not match the pattern, and nothing else. */
  lemma EmailRule(errors: map<string, string>, email: Bytes, matchesEmail: Bytes -> bool)
    ensures ApplyChecks(errors, EmailChecks(email, matchesEmail)).Keys ==
      errors.Keys + (if email == [] || !matchesEmail(email) then {"email"} else {})
  {
    KeysRecorded(errors, EmailChecks(email, matchesEmail));
  }

  /** `ValidatePasswordPlaintext` records a password error iff the password is under 8 or over 72 bytes, and nothing else. */
  lemma PasswordRule(errors: map<string, string>, password: Bytes)
    ensures ApplyChecks(errors, PasswordChecks(password)).Keys ==
      errors.Keys + (if |password| < MIN_PASSWORD_BYTES || |password| > MAX_PASSWORD_BYTES then {"password"} else {})
  {
    KeysRecorded(errors, PasswordChecks(password));
  }

  /** The password bounds are inclusive: 8 and 72 bytes pass, 0, 7 and 73 bytes fail. */
  lemma PasswordBoundaries(password: Bytes)
    ensures |password| in {MIN_PASSWORD_BYTES, MAX_PASSWORD_BYTES} ==>
      ApplyChecks(map[], PasswordChecks(password)) == map[]
    ensures |password| in {0, MIN_PASSWORD_BYTES - 1, MAX_PASSWORD_BYTES + 1} ==>
      "password" in ApplyChecks(map[], PasswordChecks(password))
  {
    PasswordRule(map[], password);
  }

  /**
   * The error keys `validateUser` adds: "name" iff the name is empty or over
   * 500 bytes, "email" iff the email is empty or does not match, "password"
   * iff a plaintext is kept and it is under 8 or over 72 bytes.
   */
  lemma UserRules(errors: map<string, string>, name: Bytes, email: Bytes, plaintext: Option<Bytes>, matchesEmail: Bytes -> bool)
    ensures ApplyChecks(errors, UserChecks(name, email, plaintext, matchesEmail)).Keys ==
      errors.Keys
      + (if name == [] || |name| > MAX_NAME_BYTES then {"name"} else {})
      + (if email == [] || !matchesEmail(email) then {"email"} else {})
      + (if plaintext != None && (|plaintext.value| < MIN_PASSWORD_BYTES || |plaintext.value| > MAX_PASSWORD_BYTES)
         then {"password"} else {})
  {
    var names, emails := NameChecks(name), EmailChecks(email, matchesEmail);
    var passwords := if plaintext != None then PasswordChecks(plaintext.value) else [];
    assert UserChecks(name, email, plaintext, matchesEmail) == names + emails + passwords;
    KeysRecorded(errors, names + emails + passwords);
    FailedKeysConcat(names + emails, passwords);
    FailedKeysConcat(names, emails);
    NameFailures(name);
    EmailFailures(email, matchesEmail);
    if plaintext != None {
      PasswordFailures(plaintext.value);
    } else {
      assert FailedKeys(passwords) == {};
    }
  }

  lemma NameFailures(name: Bytes)
    ensures FailedKeys(NameChecks(name)) == if name == [] || |name| > MAX_NAME_BYTES then {"name"} else {}
  {
  }

  lemma EmailFailures(email: Bytes, matchesEmail: Bytes -> bool)
    ensures FailedKeys(EmailChecks(email, matchesEmail)) == if email == [] || !matchesEmail(email) then {"email"} else {}
  {
  }

  lemma PasswordFailures(password: Bytes)
    ensures FailedKeys(PasswordChecks(password)) ==
      if |password| < MIN_PASSWORD_BYTES || |password| > MAX_PASSWORD_BYTES then {"password"} else {}
  {
  }

  /** A user without a kept plaintext never gets a password error. */
  lemma NoPlaintextNoPasswordError(errors: map<string, string>, name: Bytes, email: Bytes, matchesEmail: Bytes -> bool)
    ensures "password" in ApplyChecks(errors, UserChecks(name, email, None, matchesEmail)) <==> "password" in errors
  {
    UserRules(errors, name, email, None, matchesEmail);
  }

  /** The name bound is inclusive: 500 bytes pass, 501 bytes fail. */
  lemma NameBoundaries(name: Bytes, email: Bytes, plaintext: Option<Bytes>, matchesEmail: Bytes -> bool)
    ensures |name| == MAX_NAME_BYTES ==> "name" !in ApplyChecks(map[], UserChecks(name, email, plaintext, matchesEmail))
    ensures |name| == MAX_NAME_BYTES + 1 ==> "name" in ApplyChecks(map[], UserChecks(name, email, plaintext, matchesEmail))
  {
    UserRules(map[], name, email, plaintext, matchesEmail);
  }

  // ---------------------------------------------------------------------
  // Repository

  /** The `Error()` text the Postgres driver gives a violation of the unique email constraint. */
  const UNIQUE_EMAIL_VIOLATION := "pq: duplicate key value violates unique constraint \"users_email_key\""

  /** The values bound to the insert statement's parameters $1..$4. */
  datatype InsertArgs = InsertArgs(name: Bytes, email: Bytes, passwordHash: Option<Bytes>, activated: bool)

  /** A users row as the database delivers it to a lookup. */
  datatype StoredUser = StoredUser(id: int, name: Bytes, email: Bytes, passwordHash: Option<Bytes>, activated: bool, version: int)

  /** What the lookup by email reports: the row, or an error (`sql.ErrNoRows` when there is none). */
  datatype Lookup = RowFound(user: StoredUser) | LookupFailed(err: Error)

  /** Stand-in for the database handle: what the insert statement and the lookup by email report. */
  datatype Database = Database(
    insertUser: InsertArgs -> Option<Error>,
    userByEmail: Bytes -> Lookup)

  /** The arguments `Insert` sends for `user`. */
  function InsertArguments(user: User): (args: InsertArgs)
    reads user, user.password
    ensures args.name == user.name && args.email == user.email
    ensures args.passwordHash == user.password.hash
    ensures !args.activated
  {
    InsertArgs(user.name, user.email, user.password.hash, false)
  }

  /** Whatever the user's activated flag and kept plaintext, only name, email and hash reach the database. */
  lemma InsertSendsNoPlaintext(u1: User, u2: User)
    requires u1.name == u2.name && u1.email == u2.email && u1.password.hash == u2.password.hash
    ensures InsertArguments(u1) == InsertArguments(u2)
  {
  }

  /** How `Insert` turns the database's report into its result. */
  function InsertError(reported: Option<Error>): (err: Option<Error>)
    ensures reported == None ==> err == None
    ensures reported != None && Text(reported.value) == UNIQUE_EMAIL_VIOLATION ==> err == Some(DuplicateEmail)
    ensures reported != None && Text(reported.value) != UNIQUE_EMAIL_VIOLATION ==> err == reported
  {
    match reported
    case None => None
    case Some(e) => if Text(e) == UNIQUE_EMAIL_VIOLATION then Some(DuplicateEmail) else reported
  }

  /** `Insert` fails iff the database reports an error, and reports a duplicate email exactly for the unique violation. */
  lemma InsertErrorClassification(reported: Option<Error>)
    ensures InsertError(reported) == None <==> reported == None
    ensures InsertError(reported) == Some(DuplicateEmail) <==>
      reported != None && (Text(reported.value) == UNIQUE_EMAIL_VIOLATION || reported.value == DuplicateEmail)
  {
  }

  /** How `GetByEmail` turns the lookup's report into its result. */
  function LookupResult(reported: Lookup): (r: (Option<StoredUser>, Option<Error>))
    ensures (r.0 == None) != (r.1 == None)
    ensures reported.RowFound? ==> r == (Some(reported.user), None)
    ensures reported.LookupFailed? && Is(reported.err, NoRows) ==> r == (None, Some(UserNotFound))
    ensures reported.LookupFailed? && !Is(reported.err, NoRows) ==> r == (None, Some(reported.err))
  {
    match reported
    case RowFound(u) => (Some(u), None)
    case LookupFailed(e) => if Is(e, NoRows) then (None, Some(UserNotFound)) else (None, Some(e))
  }

  /** The user repository over a database handle. */
  datatype UserModel = UserModel(db: Database) {

    /** Insert `user`: the database sees only name, email, hash and activated = false. */
    function Insert(user: User): (err: Option<Error>)
      reads user, user.password
      ensures err == InsertError(db.insertUser(InsertArgs(user.name, user.email, user.password.hash, false)))
    {
      InsertError(db.insertUser(InsertArguments(user)))
    }

    /** Look a user up by email; a missing row is `ErrUserNotFound`. */
    function GetByEmail(email: Bytes): (r: (Option<StoredUser>, Option<Error>))
      ensures (r.0 == None) != (r.1 == None)
      ensures r.1 == Some(UserNotFound) <==>
        db.userByEmail(email).LookupFailed? &&
        (Is(db.userByEmail(email).err, NoRows) || db.userByEmail(email).err == UserNotFound)
      ensures r.0 != None ==> db.userByEmail(email) == RowFound(r.0.value)
    {
      LookupResult(db.userByEmail(email))
    }
  }
}
