/**
 * The database tables: the `profile` table of content profiles and the `user`,
 * `account`, `session` and `verificationToken` tables of the auth adapter, with
 * their not-null, length, default, key and foreign-key constraints. Tables are
 * sequences of rows in insertion order; an insert is checked against the
 * constraints and either appends one row or fails with the violated constraint.
 */
module Schema {
  import opened Wrappers
  import opened Rows

  /** Lengths of the bounded `varchar` columns of `profile`. */
  const VarcharMax: nat := 255
  const LanguageMax: nat := 50

  /** The value `language` takes when an insert leaves it out. */
  const DefaultLanguage: string := "English"

  /** Timestamps are instants on an abstract clock. */
  type Timestamp = int

  datatype UserRow = UserRow(
    id: string, name: Option<string>, email: string, emailVerified: Option<Timestamp>, image: Option<string>)

  datatype ProfileRow = ProfileRow(
    id: string,
    userId: string,
    name: string,
    isDefault: bool,
    projectType: string,
    niche: string,
    targetAudience: string,
    contentTypes: string,
    primaryGoal: string,
    brandVoice: string,
    language: string,
    createdAt: Timestamp,
    updatedAt: Timestamp)

  datatype AccountRow = AccountRow(
    userId: string,
    accountType: string,
    provider: string,
    providerAccountId: string,
    refreshToken: Option<string>,
    accessToken: Option<string>,
    expiresAt: Option<int>,
    tokenType: Option<string>,
    scope: Option<string>,
    idToken: Option<string>,
    sessionState: Option<string>)

  datatype SessionRow = SessionRow(sessionToken: string, userId: string, expires: Timestamp)

  datatype VerificationTokenRow = VerificationTokenRow(identifier: string, token: string, expires: Timestamp)

  /**
   * The values an insert into `profile` supplies. `None` is a column the insert
   * leaves undefined, which then takes its default or, without one, is null.
   * `id`, `createdAt` and `updatedAt` are never supplied and always defaulted.
   */
  datatype ProfileValues = ProfileValues(
    userId: string,
    name: string,
    isDefault: Option<bool>,
    projectType: Option<string>,
    niche: Option<string>,
    targetAudience: Option<string>,
    contentTypes: Option<string>,
    primaryGoal: Option<string>,
    brandVoice: Option<string>,
    language: Option<string>)

  /** Why the database refused a statement. */
  datatype DbError =
    | NotNullViolation(column: string)
    | ValueTooLong(column: string)
    /** A text value holding U+0000, which PostgreSQL text cannot store. */
    | NulCharacter(column: string)
    | UniqueViolation(columns: seq<string>)
    | ForeignKeyViolation(column: string)

  // Keys of the tables
  function UserKey(u: UserRow): string { u.id }
  function ProfileKey(p: ProfileRow): string { p.id }
  function ProfileOwner(p: ProfileRow): string { p.userId }
  function AccountKey(a: AccountRow): (string, string) { (a.provider, a.providerAccountId) }
  function SessionKey(s: SessionRow): string { s.sessionToken }
  function TokenKey(v: VerificationTokenRow): (string, string) { (v.identifier, v.token) }

  /** Text holding the character U+0000. */
  predicate HasNul(s: string)
  {
    '\0' in s
  }

  /** A supplied text value holding U+0000. */
  predicate SuppliedNul(o: Option<string>)
  {
    o.Some? && HasNul(o.value)
  }

  /** Every character of `s` is a space (U+0020); other white space does not count. */
  predicate AllSpaces(s: string)
  {
    forall i :: 0 <= i < |s| ==> s[i] == ' '
  }

  /**
   * The value a `varchar(n)` column stores for `s`: `s` itself when it fits; when
   * it is longer but everything past the first `n` characters is spaces, those
   * spaces are dropped; otherwise nothing, and the insert fails as too long.
   */
  function VarcharValue(s: string, n: nat): (r: Option<string>)
    ensures r.Some? <==> |s| <= n || AllSpaces(s[n..])
    ensures r.Some? ==> |r.value| <= n && |r.value| <= |s|
    ensures r.Some? ==> r.value == s[..|r.value|] && AllSpaces(s[|r.value|..])
    ensures |s| <= n ==> r == Some(s)
    ensures r.Some? && |s| > n ==> r.value == s[..n]
  {
    if |s| <= n then Some(s)
    else if AllSpaces(s[n..]) then Some(s[..n])
    else None
  }

  /** Spaces padding a value past its column's bound are dropped, and the value is stored whole. */
  lemma PaddingPastBoundIsDropped(s: string, padding: string, n: nat)
    requires |s| == n && AllSpaces(padding)
    ensures VarcharValue(s + padding, n) == Some(s)
  {
    assert (s + padding)[n..] == padding;
    assert (s + padding)[..n] == s;
  }

  /** A profile row meets the column constraints of `profile`: lengths, and no U+0000 in any text. */
  predicate ProfileRowFits(p: ProfileRow)
  {
    && |p.name| <= VarcharMax && |p.projectType| <= VarcharMax && |p.niche| <= VarcharMax
    && |p.contentTypes| <= VarcharMax && |p.primaryGoal| <= VarcharMax && |p.brandVoice| <= VarcharMax
    && |p.language| <= LanguageMax
    && !HasNul(p.id) && !HasNul(p.userId) && !HasNul(p.name)
    && !HasNul(p.projectType) && !HasNul(p.niche) && !HasNul(p.targetAudience)
    && !HasNul(p.contentTypes) && !HasNul(p.primaryGoal) && !HasNul(p.brandVoice)
    && !HasNul(p.language)
  }

  /** Every not-null column without a default is supplied. */
  predicate RequiredSupplied(v: ProfileValues)
  {
    && v.projectType.Some? && v.niche.Some? && v.targetAudience.Some?
    && v.contentTypes.Some? && v.primaryGoal.Some? && v.brandVoice.Some?
  }

  /** The `language` an insert sends: the supplied one, or the column default when left out. */
  function LanguageOf(v: ProfileValues): (r: string)
    ensures v.language.Some? ==> r == v.language.value
    ensures v.language.None? ==> r == DefaultLanguage && !HasNul(r)
  {
    if v.language.Some? then v.language.value else DefaultLanguage
  }

  /** No text the insert sends, the generated `id` included, holds U+0000. */
  predicate NulFree(v: ProfileValues, id: string)
  {
    && !HasNul(id) && !HasNul(v.userId) && !HasNul(v.name)
    && !SuppliedNul(v.projectType) && !SuppliedNul(v.niche) && !SuppliedNul(v.targetAudience)
    && !SuppliedNul(v.contentTypes) && !SuppliedNul(v.primaryGoal) && !SuppliedNul(v.brandVoice)
    && !SuppliedNul(v.language)
  }

  /** Each supplied `varchar` value fits its column once trailing spaces past the bound are dropped. */
  predicate LengthsFit(v: ProfileValues)
    requires RequiredSupplied(v)
  {
    && VarcharValue(v.name, VarcharMax).Some?
    && VarcharValue(v.projectType.value, VarcharMax).Some? && VarcharValue(v.niche.value, VarcharMax).Some?
    && VarcharValue(v.contentTypes.value, VarcharMax).Some? && VarcharValue(v.primaryGoal.value, VarcharMax).Some?
    && VarcharValue(v.brandVoice.value, VarcharMax).Some? && VarcharValue(LanguageOf(v), LanguageMax).Some?
  }

  /**
   * The row an insert of `v` produces, with `id` and the timestamps taken from the
   * generated id and the clock: it fails when a required column is missing, when
   * some text holds U+0000 or when a value is too long for its column; otherwise
   * it fills in the defaults and stores each `varchar` value as the column does.
   */
  function BuildProfileRow(v: ProfileValues, id: string, now: Timestamp): (r: Result<ProfileRow, DbError>)
    ensures r.Success? <==> RequiredSupplied(v) && NulFree(v, id) && LengthsFit(v)
    ensures r.Success? ==> ProfileRowFits(r.value)
    ensures r.Success? ==> r.value == ProfileRow(
      id, v.userId, VarcharValue(v.name, VarcharMax).value, v.isDefault == Some(true),
      VarcharValue(v.projectType.value, VarcharMax).value, VarcharValue(v.niche.value, VarcharMax).value,
      v.targetAudience.value,
      VarcharValue(v.contentTypes.value, VarcharMax).value, VarcharValue(v.primaryGoal.value, VarcharMax).value,
      VarcharValue(v.brandVoice.value, VarcharMax).value, VarcharValue(LanguageOf(v), LanguageMax).value,
      now, now)
    ensures r.Failure? && !RequiredSupplied(v) ==> r.error.NotNullViolation?
    ensures r.Failure? && RequiredSupplied(v) && !NulFree(v, id) ==> r.error.NulCharacter?
  {
    if v.projectType.None? then Failure(NotNullViolation("projectType"))
    else if v.niche.None? then Failure(NotNullViolation("niche"))
    else if v.targetAudience.None? then Failure(NotNullViolation("targetAudience"))
    else if v.contentTypes.None? then Failure(NotNullViolation("contentTypes"))
    else if v.primaryGoal.None? then Failure(NotNullViolation("primaryGoal"))
    else if v.brandVoice.None? then Failure(NotNullViolation("brandVoice"))
    else if HasNul(id) then Failure(NulCharacter("id"))
    else if HasNul(v.userId) then Failure(NulCharacter("userId"))
    else if HasNul(v.name) then Failure(NulCharacter("name"))
    else if HasNul(v.projectType.value) then Failure(NulCharacter("projectType"))
    else if HasNul(v.niche.value) then Failure(NulCharacter("niche"))
    else if HasNul(v.targetAudience.value) then Failure(NulCharacter("targetAudience"))
    else if HasNul(v.contentTypes.value) then Failure(NulCharacter("contentTypes"))
    else if HasNul(v.primaryGoal.value) then Failure(NulCharacter("primaryGoal"))
    else if HasNul(v.brandVoice.value) then Failure(NulCharacter("brandVoice"))
    else if HasNul(LanguageOf(v)) then Failure(NulCharacter("language"))
    else
      var name := VarcharValue(v.name, VarcharMax);
      var projectType := VarcharValue(v.projectType.value, VarcharMax);
      var niche := VarcharValue(v.niche.value, VarcharMax);
      var contentTypes := VarcharValue(v.contentTypes.value, VarcharMax);
      var primaryGoal := VarcharValue(v.primaryGoal.value, VarcharMax);
      var brandVoice := VarcharValue(v.brandVoice.value, VarcharMax);
      var language := VarcharValue(LanguageOf(v), LanguageMax);
      if name.None? then Failure(ValueTooLong("name"))
      else if projectType.None? then Failure(ValueTooLong("projectType"))
      else if niche.None? then Failure(ValueTooLong("niche"))
      else if contentTypes.None? then Failure(ValueTooLong("contentTypes"))
      else if primaryGoal.None? then Failure(ValueTooLong("primaryGoal"))
      else if brandVoice.None? then Failure(ValueTooLong("brandVoice"))
      else if language.None? then Failure(ValueTooLong("language"))
      else
        Success(ProfileRow(
          id, v.userId, name.value, if v.isDefault.Some? then v.isDefault.value else false,
          projectType.value, niche.value, v.targetAudience.value, contentTypes.value,
          primaryGoal.value, brandVoice.value, language.value, now, now))
  }

  /** The whole database at one moment. */
  datatype Tables = Tables(
    users: seq<UserRow>,
    profiles: seq<ProfileRow>,
    accounts: seq<AccountRow>,
    sessions: seq<SessionRow>,
    verificationTokens: seq<VerificationTokenRow>)

  /** The user with this id exists. */
  predicate UserExists(t: Tables, id: string)
  {
    KeyTaken(t.users, UserKey, id)
  }

  /**
   * The constraints the database enforces: every primary key is unique, every
   * profile row fits its columns, and every `userId` references an existing user.
   */
  ghost predicate TablesValid(t: Tables)
  {
    && UniqueBy(t.users, UserKey)
    && UniqueBy(t.profiles, ProfileKey)
    && UniqueBy(t.accounts, AccountKey)
    && UniqueBy(t.sessions, SessionKey)
    && UniqueBy(t.verificationTokens, TokenKey)
    && (forall p :: p in t.profiles ==> ProfileRowFits(p) && UserExists(t, p.userId))
    && (forall a :: a in t.accounts ==> UserExists(t, a.userId))
    && (forall s :: s in t.sessions ==> UserExists(t, s.userId))
  }

  /** The outcome of inserting `v` into `profile`: the new row, or the constraint it breaks. */
  function ProfileInsert(t: Tables, v: ProfileValues, id: string, now: Timestamp): (r: Result<ProfileRow, DbError>)
    ensures r.Success? <==>
      && BuildProfileRow(v, id, now).Success?
      && !KeyTaken(t.profiles, ProfileKey, id)
      && UserExists(t, v.userId)
    ensures r.Success? ==> r == BuildProfileRow(v, id, now)
    ensures r.Failure? && BuildProfileRow(v, id, now).Success? && KeyTaken(t.profiles, ProfileKey, id) ==>
      r.error == UniqueViolation(["id"])
  {
    match BuildProfileRow(v, id, now)
    case Failure(e) => Failure(e)
    case Success(row) =>
      if KeyTaken(t.profiles, ProfileKey, id) then Failure(UniqueViolation(["id"]))
      else if !UserExists(t, row.userId) then Failure(ForeignKeyViolation("userId"))
      else Success(row)
  }

  /** A successful profile insert keeps every constraint. */
  lemma ProfileInsertKeepsValid(t: Tables, v: ProfileValues, id: string, now: Timestamp)
    requires TablesValid(t) && ProfileInsert(t, v, id, now).Success?
    ensures TablesValid(t.(profiles := t.profiles + [ProfileInsert(t, v, id, now).value]))
  {
    var row := ProfileInsert(t, v, id, now).value;
    AppendPreservesUniqueBy(t.profiles, ProfileKey, row);
  }

  /** Deleting a user and, by cascade, every profile, account and session that references it. */
  function DeleteUserCascade(t: Tables, id: string): (r: Tables)
    ensures forall u :: u in r.users <==> u in t.users && u.id != id
    ensures forall p :: p in r.profiles <==> p in t.profiles && p.userId != id
    ensures forall a :: a in r.accounts <==> a in t.accounts && a.userId != id
    ensures forall s :: s in r.sessions <==> s in t.sessions && s.userId != id
    ensures r.verificationTokens == t.verificationTokens
  {
    Tables(
      Filter(t.users, (u: UserRow) => u.id != id),
      Filter(t.profiles, (p: ProfileRow) => p.userId != id),
      Filter(t.accounts, (a: AccountRow) => a.userId != id),
      Filter(t.sessions, (s: SessionRow) => s.userId != id),
      t.verificationTokens)
  }

  /** The cascade leaves no dangling reference: every constraint still holds. */
  lemma DeleteUserKeepsValid(t: Tables, id: string)
    requires TablesValid(t)
    ensures TablesValid(DeleteUserCascade(t, id))
  {
    var r := DeleteUserCascade(t, id);
    FilterPreservesUniqueBy(t.users, (u: UserRow) => u.id != id, UserKey);
    FilterPreservesUniqueBy(t.profiles, (p: ProfileRow) => p.userId != id, ProfileKey);
    FilterPreservesUniqueBy(t.accounts, (a: AccountRow) => a.userId != id, AccountKey);
    FilterPreservesUniqueBy(t.sessions, (s: SessionRow) => s.userId != id, SessionKey);
    forall owner: string | owner != id && UserExists(t, owner) ensures UserExists(r, owner) {
      var i :| 0 <= i < |t.users| && t.users[i].id == owner;
      var j :| 0 <= j < |r.users| && r.users[j] == t.users[i];
    }
  }

  /** The outcome of inserting a row keyed by `key`: the row, or the key it duplicates. */
  function KeyedInsert<T, K(==)>(rows: seq<T>, key: T -> K, row: T, columns: seq<string>,
                                 ownerExists: bool): (r: Result<T, DbError>)
    ensures r.Success? <==> !KeyTaken(rows, key, key(row)) && ownerExists
    ensures r.Success? ==> r.value == row
  {
    if KeyTaken(rows, key, key(row)) then Failure(UniqueViolation(columns))
    else if !ownerExists then Failure(ForeignKeyViolation("userId"))
    else Success(row)
  }

  class Database {
    var users: seq<UserRow>
    var profiles: seq<ProfileRow>
    var accounts: seq<AccountRow>
    var sessions: seq<SessionRow>
    var verificationTokens: seq<VerificationTokenRow>

    function Snapshot(): Tables
      reads this
    {
      Tables(users, profiles, accounts, sessions, verificationTokens)
    }

    ghost predicate Valid()
      reads this
    {
      TablesValid(Snapshot())
    }

    constructor ()
      ensures Snapshot() == Tables([], [], [], [], []) && Valid()
    {
      users, profiles, accounts, sessions, verificationTokens := [], [], [], [], [];
    }

    /** `INSERT INTO user`: fails when the id is taken. */
    method InsertUser(row: UserRow) returns (r: Result<UserRow, DbError>)
      requires Valid()
      modifies this`users
      ensures Valid()
      ensures r == KeyedInsert(old(users), UserKey, row, ["id"], true)
      ensures users == if r.Success? then old(users) + [row] else old(users)
    {
      r := KeyedInsert(users, UserKey, row, ["id"], true);
      if r.Success? {
        AppendPreservesUniqueBy(users, UserKey, row);
        users := users + [row];
        assert forall p :: p in profiles ==> UserExists(Snapshot(), p.userId) by {
          forall p | p in profiles ensures UserExists(Snapshot(), p.userId) {
            var i :| 0 <= i < |old(users)| && old(users)[i].id == p.userId;
            assert users[i] == old(users)[i];
          }
        }
        assert forall a :: a in accounts ==> UserExists(Snapshot(), a.userId) by {
          forall a | a in accounts ensures UserExists(Snapshot(), a.userId) {
            var i :| 0 <= i < |old(users)| && old(users)[i].id == a.userId;
            assert users[i] == old(users)[i];
          }
        }
        assert forall s :: s in sessions ==> UserExists(Snapshot(), s.userId) by {
          forall s | s in sessions ensures UserExists(Snapshot(), s.userId) {
            var i :| 0 <= i < |old(users)| && old(users)[i].id == s.userId;
            assert users[i] == old(users)[i];
          }
        }
      }
    }

    /**
     * `INSERT INTO profile ... RETURNING *` with the generated id `id` and the
     * current time `now`: on success exactly one row is appended and returned.
     */
    method InsertProfile(v: ProfileValues, id: string, now: Timestamp) returns (r: Result<ProfileRow, DbError>)
      requires Valid()
      modifies this`profiles
      ensures Valid()
      ensures r == ProfileInsert(old(Snapshot()), v, id, now)
      ensures profiles == if r.Success? then old(profiles) + [r.value] else old(profiles)
    {
      r := ProfileInsert(Snapshot(), v, id, now);
      if r.Success? {
        ProfileInsertKeepsValid(Snapshot(), v, id, now);
        profiles := profiles + [r.value];
      }
    }

    /** `INSERT INTO account`: fails on a taken (provider, providerAccountId) or an unknown user. */
    method InsertAccount(row: AccountRow) returns (r: Result<AccountRow, DbError>)
      requires Valid()
      modifies this`accounts
      ensures Valid()
      ensures r == KeyedInsert(old(accounts), AccountKey, row, ["provider", "providerAccountId"],
                               UserExists(Snapshot(), row.userId))
      ensures accounts == if r.Success? then old(accounts) + [row] else old(accounts)
    {
      r := KeyedInsert(accounts, AccountKey, row, ["provider", "providerAccountId"], UserExists(Snapshot(), row.userId));
      if r.Success? {
        AppendPreservesUniqueBy(accounts, AccountKey, row);
        accounts := accounts + [row];
      }
    }

    /** `INSERT INTO session`: fails on a taken session token or an unknown user. */
    method InsertSession(row: SessionRow) returns (r: Result<SessionRow, DbError>)
      requires Valid()
      modifies this`sessions
      ensures Valid()
      ensures r == KeyedInsert(old(sessions), SessionKey, row, ["sessionToken"], UserExists(Snapshot(), row.userId))
      ensures sessions == if r.Success? then old(sessions) + [row] else old(sessions)
    {
      r := KeyedInsert(sessions, SessionKey, row, ["sessionToken"], UserExists(Snapshot(), row.userId));
      if r.Success? {
        AppendPreservesUniqueBy(sessions, SessionKey, row);
        sessions := sessions + [row];
      }
    }

    /** `INSERT INTO verificationToken`: fails on a taken (identifier, token). */
    method InsertVerificationToken(row: VerificationTokenRow) returns (r: Result<VerificationTokenRow, DbError>)
      requires Valid()
      modifies this`verificationTokens
      ensures Valid()
      ensures r == KeyedInsert(old(verificationTokens), TokenKey, row, ["identifier", "token"], true)
      ensures verificationTokens == if r.Success? then old(verificationTokens) + [row] else old(verificationTokens)
    {
      r := KeyedInsert(verificationTokens, TokenKey, row, ["identifier", "token"], true);
      if r.Success? {
        AppendPreservesUniqueBy(verificationTokens, TokenKey, row);
        verificationTokens := verificationTokens + [row];
      }
    }

    /** `DELETE FROM user WHERE id = ...`, cascading to the rows that reference it. */
    method DeleteUser(id: string)
      requires Valid()
      modifies this
      ensures Valid()
      ensures Snapshot() == DeleteUserCascade(old(Snapshot()), id)
    {
      DeleteUserKeepsValid(Snapshot(), id);
      var after := DeleteUserCascade(Snapshot(), id);
      users, profiles, accounts, sessions := after.users, after.profiles, after.accounts, after.sessions;
    }
  }
}
