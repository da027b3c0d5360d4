/**
 * The `/api/profiles` route. POST creates a profile for the signed-in user from
 * the intake answers, marking it the default when it is the user's first; GET
 * lists the user's profiles ordered by `(isDefault, createdAt)`.
 *
 * The session lookup is a parameter: the user id of the session, `None` when
 * there is no session or no user on it. The generated id and the clock reading
 * of the insert are parameters too.
 */
module ProfilesRoute {
  import opened Wrappers
  import opened Rows
  import opened Schema
  import opened IntakeQuestions
  import opened IntakeChat

  datatype Response =
    | Plain(status: int, message: string)
    | ProfileList(profiles: seq<ProfileRow>)
    | CreatedProfile(profile: ProfileRow)

  const Unauthorized: Response := Plain(401, "Unauthorized")
  const MissingFields: Response := Plain(400, "Missing required fields")
  const InternalError: Response := Plain(500, "Internal Server Error")

  /** The session's user id when it is truthy, i.e. present and not empty. */
  function SessionUser(sessionUserId: Option<string>): (r: Option<string>)
    ensures r.Some? <==> sessionUserId.Some? && sessionUserId.value != ""
    ensures r.Some? ==> r.value == sessionUserId.value
  {
    if sessionUserId.Some? && sessionUserId.value != "" then sessionUserId else None
  }

  /**
   * A POST body: one that is not JSON, or the `answers` and `profileName`
   * properties, `None` standing for any falsy value.
   */
  datatype PostBody =
    | Unparsable
    | Json(answers: Option<map<string, string>>, profileName: Option<string>)

  /** `answers[key]`: undefined when the key is absent. */
  function Field(answers: map<string, string>, key: string): (r: Option<string>)
    ensures r.Some? <==> key in answers
    ensures r.Some? ==> r.value == answers[key]
  {
    if key in answers then Some(answers[key]) else None
  }

  /** The values POST inserts: the caller, the name, the default flag and seven answers. */
  function ProfileValuesFor(userId: string, answers: map<string, string>, name: string, isDefault: bool)
    : (v: ProfileValues)
    ensures v.userId == userId && v.name == name && v.isDefault == Some(isDefault)
    ensures RequiredSupplied(v) <==>
      "projectType" in answers && "niche" in answers && "targetAudience" in answers
      && "contentTypes" in answers && "primaryGoal" in answers && "brandVoice" in answers
    ensures v.language == Field(answers, "language")
  {
    ProfileValues(userId, name, Some(isDefault),
      Field(answers, "projectType"), Field(answers, "niche"), Field(answers, "targetAudience"),
      Field(answers, "contentTypes"), Field(answers, "primaryGoal"), Field(answers, "brandVoice"),
      Field(answers, "language"))
  }

  /** The inserted values depend on the answers only through the catalog's answer fields. */
  lemma ProfileValuesReadOnlyAnswerFields(userId: string, a: map<string, string>, b: map<string, string>,
                                          name: string, isDefault: bool)
    requires forall k :: k in ProfileAnswerFields ==> Field(a, k) == Field(b, k)
    ensures ProfileValuesFor(userId, a, name, isDefault) == ProfileValuesFor(userId, b, name, isDefault)
  {
    assert Field(a, "projectType") == Field(b, "projectType");
    assert Field(a, "niche") == Field(b, "niche");
    assert Field(a, "targetAudience") == Field(b, "targetAudience");
    assert Field(a, "contentTypes") == Field(b, "contentTypes");
    assert Field(a, "primaryGoal") == Field(b, "primaryGoal");
    assert Field(a, "brandVoice") == Field(b, "brandVoice");
    assert Field(a, "language") == Field(b, "language");
  }

  /**
   * The checks POST makes before it touches the table: a signed-in user first,
   * then a body that parses, then truthy `answers` and `profileName`.
   */
  function CheckPost(sessionUserId: Option<string>, body: PostBody)
    : (r: Result<(string, map<string, string>, string), Response>)
    ensures r.Success? <==>
      SessionUser(sessionUserId).Some? && body.Json? && body.answers.Some?
      && body.profileName.Some? && body.profileName.value != ""
    ensures SessionUser(sessionUserId).None? ==> r == Failure(Unauthorized)
    ensures SessionUser(sessionUserId).Some? && body.Unparsable? ==> r == Failure(InternalError)
    ensures SessionUser(sessionUserId).Some? && body.Json? && !r.Success? ==> r == Failure(MissingFields)
    ensures r.Success? ==>
      r.value == (sessionUserId.value, body.answers.value, body.profileName.value)
  {
    match SessionUser(sessionUserId)
    case None => Failure(Unauthorized)
    case Some(userId) =>
      if body.Unparsable? then Failure(InternalError)
      else if body.answers.None? || body.profileName.None? || body.profileName.value == "" then
        Failure(MissingFields)
      else Success((userId, body.answers.value, body.profileName.value))
  }

  /** The user owns at least one profile row. */
  predicate OwnsProfile(profiles: seq<ProfileRow>, userId: string)
  {
    KeyTaken(profiles, ProfileOwner, userId)
  }

  /**
   * The response POST gives and the tables it leaves: every refusal and every
   * database error leaves the tables as they were, and once the checks pass any
   * failure is a 500; a success appends exactly the returned row, which belongs to
   * the caller, carries the requested name, is the default exactly when the caller
   * owned no profile before, and copies the answer columns from the same-named
   * answers, each stored as its column stores it.
   */
  function PostOutcome(t: Tables, sessionUserId: Option<string>, body: PostBody, id: string, now: Timestamp)
    : (r: (Response, Tables))
    ensures r.0.CreatedProfile? || r.0 in {Unauthorized, MissingFields, InternalError}
    ensures !r.0.CreatedProfile? ==> r.1 == t
    ensures SessionUser(sessionUserId).None? ==> r.0 == Unauthorized
    ensures CheckPost(sessionUserId, body).Failure? ==> r.0 == CheckPost(sessionUserId, body).error
    ensures r.0.CreatedProfile? ==>
      && CheckPost(sessionUserId, body).Success?
      && var (userId, answers, name) := CheckPost(sessionUserId, body).value;
      && r.1 == t.(profiles := t.profiles + [r.0.profile])
      && r.0.profile.id == id && r.0.profile.userId == userId
      && Some(r.0.profile.name) == VarcharValue(name, VarcharMax)
      && (r.0.profile.isDefault <==> !OwnsProfile(t.profiles, userId))
      && "projectType" in answers && "niche" in answers && "targetAudience" in answers
      && "contentTypes" in answers && "primaryGoal" in answers && "brandVoice" in answers
      && Some(r.0.profile.projectType) == VarcharValue(answers["projectType"], VarcharMax)
      && Some(r.0.profile.niche) == VarcharValue(answers["niche"], VarcharMax)
      && r.0.profile.targetAudience == answers["targetAudience"]
      && Some(r.0.profile.contentTypes) == VarcharValue(answers["contentTypes"], VarcharMax)
      && Some(r.0.profile.primaryGoal) == VarcharValue(answers["primaryGoal"], VarcharMax)
      && Some(r.0.profile.brandVoice) == VarcharValue(answers["brandVoice"], VarcharMax)
      && Some(r.0.profile.language) ==
         VarcharValue(if "language" in answers then answers["language"] else DefaultLanguage, LanguageMax)
      && r.0.profile.createdAt == now && r.0.profile.updatedAt == now
    ensures CheckPost(sessionUserId, body).Success? && !r.0.CreatedProfile? ==> r.0 == InternalError
    ensures CheckPost(sessionUserId, body).Success? ==>
      var (userId, answers, name) := CheckPost(sessionUserId, body).value;
      var v := ProfileValuesFor(userId, answers, name, !OwnsProfile(t.profiles, userId));
      (r.0.CreatedProfile? <==> ProfileInsert(t, v, id, now).Success?)
  {
    match CheckPost(sessionUserId, body)
    case Failure(response) => (response, t)
    case Success((userId, answers, name)) =>
      var v := ProfileValuesFor(userId, answers, name, !OwnsProfile(t.profiles, userId));
      match ProfileInsert(t, v, id, now)
      case Failure(_) => (InternalError, t)
      case Success(row) => (CreatedProfile(row), t.(profiles := t.profiles + [row]))
  }

  /** POST keeps every database constraint. */
  lemma PostKeepsValid(t: Tables, sessionUserId: Option<string>, body: PostBody, id: string, now: Timestamp)
    requires TablesValid(t)
    ensures TablesValid(PostOutcome(t, sessionUserId, body, id, now).1)
  {
    if CheckPost(sessionUserId, body).Success? {
      var (userId, answers, name) := CheckPost(sessionUserId, body).value;
      var v := ProfileValuesFor(userId, answers, name, !OwnsProfile(t.profiles, userId));
      if ProfileInsert(t, v, id, now).Success? {
        ProfileInsertKeepsValid(t, v, id, now);
      }
    }
  }

  /** `userId` owns a default row. */
  ghost predicate HasDefault(profiles: seq<ProfileRow>, userId: string)
  {
    exists d :: d in profiles && d.userId == userId && d.isDefault
  }

  /** Every owner of a row in `profiles` owns a default row. */
  ghost predicate EveryOwnerHasDefault(profiles: seq<ProfileRow>)
  {
    forall p :: p in profiles ==> HasDefault(profiles, p.userId)
  }

  /** No owner owns two different default rows. */
  ghost predicate NoOwnerHasTwoDefaults(profiles: seq<ProfileRow>)
  {
    forall p, q :: p in profiles && q in profiles && p.isDefault && q.isDefault && p.userId == q.userId ==> p == q
  }

  /** Every user who owns a profile owns exactly one default profile. */
  ghost predicate OneDefaultPerOwner(profiles: seq<ProfileRow>)
  {
    EveryOwnerHasDefault(profiles) && NoOwnerHasTwoDefaults(profiles)
  }

  lemma AppendKeepsEveryOwnerHasDefault(profiles: seq<ProfileRow>, row: ProfileRow)
    requires EveryOwnerHasDefault(profiles)
    requires !row.isDefault ==> OwnsProfile(profiles, row.userId)
    ensures EveryOwnerHasDefault(profiles + [row])
  {
    var after := profiles + [row];
    forall p | p in after ensures HasDefault(after, p.userId) {
      if p != row {
        assert p in profiles;
        var d :| d in profiles && d.userId == p.userId && d.isDefault;
        assert d in after;
      } else if row.isDefault {
        assert row in after;
      } else {
        var i :| 0 <= i < |profiles| && profiles[i].userId == row.userId;
        assert profiles[i] in profiles;
        var d :| d in profiles && d.userId == row.userId && d.isDefault;
        assert d in after;
      }
    }
  }

  lemma AppendKeepsNoOwnerHasTwoDefaults(profiles: seq<ProfileRow>, row: ProfileRow)
    requires NoOwnerHasTwoDefaults(profiles)
    requires row.isDefault ==> !OwnsProfile(profiles, row.userId)
    ensures NoOwnerHasTwoDefaults(profiles + [row])
  {
    var after := profiles + [row];
    forall p, q | p in after && q in after && p.isDefault && q.isDefault && p.userId == q.userId
      ensures p == q
    {
      if p != row && q != row {
        assert p in profiles && q in profiles;
      }
    }
  }

  /** Appending a row that is the default exactly when its owner had none keeps one default per owner. */
  lemma AppendKeepsOneDefaultPerOwner(profiles: seq<ProfileRow>, row: ProfileRow)
    requires OneDefaultPerOwner(profiles)
    requires row.isDefault <==> !OwnsProfile(profiles, row.userId)
    ensures OneDefaultPerOwner(profiles + [row])
  {
    AppendKeepsEveryOwnerHasDefault(profiles, row);
    AppendKeepsNoOwnerHasTwoDefaults(profiles, row);
  }

  /** The first-profile rule keeps exactly one default profile per owner. */
  lemma PostKeepsOneDefaultPerOwner(t: Tables, sessionUserId: Option<string>, body: PostBody, id: string,
                                    now: Timestamp)
    requires OneDefaultPerOwner(t.profiles)
    ensures OneDefaultPerOwner(PostOutcome(t, sessionUserId, body, id, now).1.profiles)
  {
    var (response, after) := PostOutcome(t, sessionUserId, body, id, now);
    if response.CreatedProfile? {
      AppendKeepsOneDefaultPerOwner(t.profiles, response.profile);
    }
  }

  /** Deleting a user, with its profiles, keeps one default per remaining owner. */
  lemma DeleteUserKeepsOneDefaultPerOwner(t: Tables, userId: string)
    requires OneDefaultPerOwner(t.profiles)
    ensures OneDefaultPerOwner(DeleteUserCascade(t, userId).profiles)
  {
    var profiles := DeleteUserCascade(t, userId).profiles;
    assert NoOwnerHasTwoDefaults(profiles);
    forall p | p in profiles ensures HasDefault(profiles, p.userId) {
      var d :| d in t.profiles && d.userId == p.userId && d.isDefault;
      assert d in profiles;
    }
  }

  /**
   * `POST /api/profiles` against the database `db`. It reads whether the caller
   * owns a profile, then inserts one row; the database keeps its constraints.
   */
  method Post(db: Database, sessionUserId: Option<string>, body: PostBody, id: string, now: Timestamp)
    returns (response: Response)
    requires db.Valid()
    modifies db`profiles
    ensures db.Valid()
    ensures (response, db.Snapshot()) == PostOutcome(old(db.Snapshot()), sessionUserId, body, id, now)
    ensures OneDefaultPerOwner(old(db.profiles)) ==> OneDefaultPerOwner(db.profiles)
  {
    if OneDefaultPerOwner(db.profiles) {
      PostKeepsOneDefaultPerOwner(db.Snapshot(), sessionUserId, body, id, now);
    }
    var check := CheckPost(sessionUserId, body);
    if check.Failure? {
      return check.error;
    }
    var (userId, answers, name) := check.value;
    var isFirstProfile := !OwnsProfile(db.profiles, userId);
    var inserted := db.InsertProfile(ProfileValuesFor(userId, answers, name, isFirstProfile), id, now);
    if inserted.Failure? {
      return InternalError;
    }
    response := CreatedProfile(inserted.value);
  }

  // ---------------------------------------------------------------------------
  // GET: the caller's rows, ordered by (isDefault, createdAt)
  // ---------------------------------------------------------------------------

  /**
   * `a` may come before `b` when ordering by `isDefault` and then `createdAt`,
   * ascending. With `defaultFirst` false the order is SQL's on booleans (false
   * first); with it true the default profile sorts first.
   */
  predicate Before(a: ProfileRow, b: ProfileRow, defaultFirst: bool)
  {
    if a.isDefault == b.isDefault then a.createdAt <= b.createdAt else a.isDefault == defaultFirst
  }

  predicate Sorted(s: seq<ProfileRow>, defaultFirst: bool)
  {
    forall i, j :: 0 <= i < j < |s| ==> Before(s[i], s[j], defaultFirst)
  }

  /** The rows owned by `userId`, in table order. */
  function OwnedBy(profiles: seq<ProfileRow>, userId: string): (r: seq<ProfileRow>)
    ensures forall p :: p in r <==> p in profiles && p.userId == userId
  {
    Filter(profiles, (p: ProfileRow) => p.userId == userId)
  }

  /** Inserts `x` into sorted `s` after every row it may not precede. */
  function InsertSorted(x: ProfileRow, s: seq<ProfileRow>, defaultFirst: bool): (r: seq<ProfileRow>)
    ensures multiset(r) == multiset(s) + multiset{x}
  {
    if s == [] || Before(x, s[0], defaultFirst) then [x] + s
    else
      assert s == [s[0]] + s[1..];
      [s[0]] + InsertSorted(x, s[1..], defaultFirst)
  }

  /** An ordering of `s` by `Before`: the database's ORDER BY. */
  function SortRows(s: seq<ProfileRow>, defaultFirst: bool): (r: seq<ProfileRow>)
    ensures multiset(r) == multiset(s)
  {
    if s == [] then []
    else
      assert s == [s[0]] + s[1..];
      InsertSorted(s[0], SortRows(s[1..], defaultFirst), defaultFirst)
  }

  lemma BeforeTransitive(a: ProfileRow, b: ProfileRow, c: ProfileRow, defaultFirst: bool)
    requires Before(a, b, defaultFirst) && Before(b, c, defaultFirst)
    ensures Before(a, c, defaultFirst)
  {
  }

  /** A row that may precede every row of a sorted sequence can be put in front of it. */
  lemma ConsSorted(h: ProfileRow, s: seq<ProfileRow>, defaultFirst: bool)
    requires Sorted(s, defaultFirst)
    requires forall j :: 0 <= j < |s| ==> Before(h, s[j], defaultFirst)
    ensures Sorted([h] + s, defaultFirst)
  {
    var r := [h] + s;
    forall i, j | 0 <= i < j < |r| ensures Before(r[i], r[j], defaultFirst) {
      assert r[j] == s[j - 1];
      if i > 0 {
        assert r[i] == s[i - 1];
      }
    }
  }

  /** The head of a sorted sequence may precede whatever is inserted into its tail after it. */
  lemma HeadPrecedesInsertion(x: ProfileRow, s: seq<ProfileRow>, defaultFirst: bool)
    requires Sorted(s, defaultFirst) && s != [] && !Before(x, s[0], defaultFirst)
    ensures forall j :: 0 <= j < |InsertSorted(x, s[1..], defaultFirst)| ==>
      Before(s[0], InsertSorted(x, s[1..], defaultFirst)[j], defaultFirst)
  {
    var rest := InsertSorted(x, s[1..], defaultFirst);
    forall j | 0 <= j < |rest| ensures Before(s[0], rest[j], defaultFirst) {
      assert rest[j] in multiset(rest);
      if rest[j] != x {
        assert rest[j] in multiset(s[1..]);
        var k :| 0 <= k < |s[1..]| && s[1..][k] == rest[j];
        assert s[k + 1] == rest[j];
      }
    }
  }

  lemma {:induction false} InsertSortedKeepsSorted(x: ProfileRow, s: seq<ProfileRow>, defaultFirst: bool)
    requires Sorted(s, defaultFirst)
    ensures Sorted(InsertSorted(x, s, defaultFirst), defaultFirst)
  {
    if s == [] {
    } else if Before(x, s[0], defaultFirst) {
      forall j | 0 <= j < |s| ensures Before(x, s[j], defaultFirst) {
        if j > 0 {
          BeforeTransitive(x, s[0], s[j], defaultFirst);
        }
      }
      ConsSorted(x, s, defaultFirst);
    } else {
      assert Sorted(s[1..], defaultFirst);
      InsertSortedKeepsSorted(x, s[1..], defaultFirst);
      HeadPrecedesInsertion(x, s, defaultFirst);
      ConsSorted(s[0], InsertSorted(x, s[1..], defaultFirst), defaultFirst);
    }
  }

  lemma {:induction false} SortRowsSorted(s: seq<ProfileRow>, defaultFirst: bool)
    ensures Sorted(SortRows(s, defaultFirst), defaultFirst)
  {
    if s != [] {
      SortRowsSorted(s[1..], defaultFirst);
      InsertSortedKeepsSorted(s[0], SortRows(s[1..], defaultFirst), defaultFirst);
    }
  }

  /** GET with the order key as a parameter; `Get` is the route as written. */
  function ListProfiles(profiles: seq<ProfileRow>, sessionUserId: Option<string>, defaultFirst: bool)
    : (r: Response)
    ensures SessionUser(sessionUserId).None? <==> r == Unauthorized
    ensures r != Unauthorized ==> r.ProfileList?
  {
    match SessionUser(sessionUserId)
    case None => Unauthorized
    case Some(userId) => ProfileList(SortRows(OwnedBy(profiles, userId), defaultFirst))
  }

  /** `GET /api/profiles`: ordered by `isDefault` ascending, then `createdAt`. */
  function Get(profiles: seq<ProfileRow>, sessionUserId: Option<string>): (r: Response)
    ensures SessionUser(sessionUserId).None? <==> r == Unauthorized
    ensures r != Unauthorized ==> r.ProfileList?
  {
    ListProfiles(profiles, sessionUserId, false)
  }

  /** GET with the default profile first, as the route's comment intends. */
  function GetDefaultFirst(profiles: seq<ProfileRow>, sessionUserId: Option<string>): (r: Response)
    ensures SessionUser(sessionUserId).None? <==> r == Unauthorized
    ensures r != Unauthorized ==> r.ProfileList?
  {
    ListProfiles(profiles, sessionUserId, true)
  }

  /** The listing holds exactly the caller's rows, each as often as in the table, in order. */
  lemma ListProfilesIsCallersRowsInOrder(profiles: seq<ProfileRow>, sessionUserId: Option<string>,
                                         defaultFirst: bool)
    requires SessionUser(sessionUserId).Some?
    ensures var r := ListProfiles(profiles, sessionUserId, defaultFirst);
      && multiset(r.profiles) == multiset(OwnedBy(profiles, sessionUserId.value))
      && (forall p :: p in r.profiles <==> p in profiles && p.userId == sessionUserId.value)
      && Sorted(r.profiles, defaultFirst)
  {
    var owned := OwnedBy(profiles, sessionUserId.value);
    SortRowsSorted(owned, defaultFirst);
    var r := SortRows(owned, defaultFirst);
    forall p ensures p in r <==> p in owned {
      assert p in r <==> p in multiset(r);
      assert p in owned <==> p in multiset(owned);
    }
  }

  /** Sorted with `false` first, a list holding a default and a non-default row starts and ends as they rank. */
  lemma SortedPutsDefaultLast(r: seq<ProfileRow>, i: nat, j: nat)
    requires Sorted(r, false) && i < |r| && j < |r| && r[i].isDefault && !r[j].isDefault
    ensures |r| >= 2 && !r[0].isDefault && r[|r| - 1].isDefault
  {
  }

  /** Sorted with the default first, a list holding a default row starts with one. */
  lemma SortedPutsDefaultFirst(r: seq<ProfileRow>, i: nat)
    requires Sorted(r, true) && i < |r| && r[i].isDefault
    ensures r[0].isDefault
  {
  }

  /**
   * As written, a caller who owns a default profile and a non-default one gets
   * the default profile LAST: `false` sorts before `true`.
   */
  lemma GetListsDefaultLast(profiles: seq<ProfileRow>, userId: string, d: ProfileRow, n: ProfileRow)
    requires userId != ""
    requires d in profiles && d.userId == userId && d.isDefault
    requires n in profiles && n.userId == userId && !n.isDefault
    ensures var r := Get(profiles, Some(userId)).profiles;
      |r| >= 2 && !r[0].isDefault && r[|r| - 1].isDefault
  {
    ListProfilesIsCallersRowsInOrder(profiles, Some(userId), false);
    var r := Get(profiles, Some(userId)).profiles;
    assert d in r && n in r;
    var i :| 0 <= i < |r| && r[i] == d;
    var j :| 0 <= j < |r| && r[j] == n;
    SortedPutsDefaultLast(r, i, j);
  }

  /** With the intended order, a caller who owns a default profile gets it first. */
  lemma GetDefaultFirstListsDefaultFirst(profiles: seq<ProfileRow>, userId: string, d: ProfileRow)
    requires userId != ""
    requires d in profiles && d.userId == userId && d.isDefault
    ensures var r := GetDefaultFirst(profiles, Some(userId)).profiles;
      |r| >= 1 && r[0].isDefault
  {
    ListProfilesIsCallersRowsInOrder(profiles, Some(userId), true);
    var r := GetDefaultFirst(profiles, Some(userId)).profiles;
    assert d in r;
    var i :| 0 <= i < |r| && r[i] == d;
    SortedPutsDefaultFirst(r, i);
  }

  // ---------------------------------------------------------------------------
  // The intake conversation's save, as the route receives it
  // ---------------------------------------------------------------------------

  /**
   * A POST from a signed-in user whose answers hold every required field, each
   * fitting its column and free of U+0000, creates the profile row holding them.
   */
  lemma PostStoresAnswers(t: Tables, userId: string, answers: map<string, string>, name: string, id: string,
                          now: Timestamp)
    requires userId != "" && UserExists(t, userId) && !KeyTaken(t.profiles, ProfileKey, id)
    requires 0 < |name| <= VarcharMax
    requires forall k :: k in ProfileAnswerFields ==> k in answers && !HasNul(answers[k])
    requires !HasNul(userId) && !HasNul(name) && !HasNul(id)
    requires |answers["projectType"]| <= VarcharMax && |answers["niche"]| <= VarcharMax
    requires |answers["contentTypes"]| <= VarcharMax && |answers["primaryGoal"]| <= VarcharMax
    requires |answers["brandVoice"]| <= VarcharMax && |answers["language"]| <= LanguageMax
    ensures PostOutcome(t, Some(userId), Json(Some(answers), Some(name)), id, now).0 == CreatedProfile(ProfileRow(
      id, userId, name, !OwnsProfile(t.profiles, userId),
      answers["projectType"], answers["niche"], answers["targetAudience"], answers["contentTypes"],
      answers["primaryGoal"], answers["brandVoice"], answers["language"], now, now))
  {
    assert "projectType" in ProfileAnswerFields && "niche" in ProfileAnswerFields;
    assert "targetAudience" in ProfileAnswerFields && "contentTypes" in ProfileAnswerFields;
    assert "primaryGoal" in ProfileAnswerFields && "brandVoice" in ProfileAnswerFields;
    assert "language" in ProfileAnswerFields;
  }

  /** An answer holding U+0000 in any of the seven stored fields makes POST fail with 500 and store nothing. */
  lemma NulAnswerIsRefused(t: Tables, userId: string, answers: map<string, string>, name: string, id: string,
                           now: Timestamp, key: string)
    requires userId != "" && name != ""
    requires key in ProfileAnswerFields && key in answers && HasNul(answers[key])
    ensures PostOutcome(t, Some(userId), Json(Some(answers), Some(name)), id, now) == (InternalError, t)
  {
  }

  /**
   * `PostStoresAnswers` for the request a completed conversation posts: the seven
   * answers keyed as the catalog keys them, and the name the user gave or accepted.
   */
  lemma PostStoresConversation(t: Tables, userId: string, req: SaveRequest, answers: seq<string>,
                               reply: PromptReply, id: string, now: Timestamp)
    requires |answers| == 7 && req.answers.Keys == ProfileAnswerFields
    requires req.answers["projectType"] == answers[0] && req.answers["niche"] == answers[1]
    requires req.answers["targetAudience"] == answers[2] && req.answers["contentTypes"] == answers[3]
    requires req.answers["primaryGoal"] == answers[4] && req.answers["brandVoice"] == answers[5]
    requires req.answers["language"] == answers[6]
    requires !reply.Cancelled?
    requires req.profileName == Some(if reply.Entered? then reply.text else answers[1] + " Project")
    requires |answers[0]| <= VarcharMax && |answers[1]| <= VarcharMax && |answers[3]| <= VarcharMax
    requires |answers[4]| <= VarcharMax && |answers[5]| <= VarcharMax && |answers[6]| <= LanguageMax
    requires forall i :: 0 <= i < |answers| ==> !HasNul(answers[i])
    requires reply.Entered? ==> 0 < |reply.text| <= VarcharMax && !HasNul(reply.text)
    requires reply.AcceptedDefault? ==> |answers[1]| + 8 <= VarcharMax
    requires userId != "" && UserExists(t, userId) && !KeyTaken(t.profiles, ProfileKey, id)
    requires !HasNul(userId) && !HasNul(id)
    ensures var name := if reply.Entered? then reply.text else answers[1] + " Project";
      PostOutcome(t, Some(userId), Json(Some(req.answers), req.profileName), id, now).0 == CreatedProfile(ProfileRow(
        id, userId, name, !OwnsProfile(t.profiles, userId),
        answers[0], answers[1], answers[2], answers[3], answers[4], answers[5], answers[6], now, now))
  {
    var name := if reply.Entered? then reply.text else answers[1] + " Project";
    assert !HasNul(answers[0]) && !HasNul(answers[1]) && !HasNul(answers[2]) && !HasNul(answers[3]);
    assert !HasNul(answers[4]) && !HasNul(answers[5]) && !HasNul(answers[6]);
    if !reply.Entered? {
      assert !HasNul(answers[1] + " Project");
    }
    PostStoresAnswers(t, userId, req.answers, name, id, now);
  }

  /**
   * A conversation answered to the end, whose profile name the user gave or
   * accepted, creates one profile holding the seven answers in their columns,
   * provided each fits its column and none holds U+0000.
   */
  lemma CompletedIntakeBecomesProfile(stored: Option<string>, answers: seq<string>, reply: PromptReply,
                                      t: Tables, userId: string, id: string, now: Timestamp)
    requires |answers| == 7
    requires |answers[0]| <= VarcharMax && |answers[1]| <= VarcharMax && |answers[3]| <= VarcharMax
    requires |answers[4]| <= VarcharMax && |answers[5]| <= VarcharMax && |answers[6]| <= LanguageMax
    requires forall i :: 0 <= i < |answers| ==> !HasNul(answers[i])
    requires reply.Entered? ==> 0 < |reply.text| <= VarcharMax && !HasNul(reply.text)
    requires reply.AcceptedDefault? ==> |answers[1]| + 8 <= VarcharMax
    requires !reply.Cancelled?
    requires userId != "" && UserExists(t, userId) && !KeyTaken(t.profiles, ProfileKey, id)
    requires !HasNul(userId) && !HasNul(id)
    ensures SaveRequestAfter(Flow, Run(Flow, stored, answers[..6]), answers[6], reply).Some?
    ensures var req := SaveRequestAfter(Flow, Run(Flow, stored, answers[..6]), answers[6], reply).value;
      var name := if reply.Entered? then reply.text else answers[1] + " Project";
      PostOutcome(t, Some(userId), Json(Some(req.answers), req.profileName), id, now).0 == CreatedProfile(ProfileRow(
        id, userId, name, !OwnsProfile(t.profiles, userId),
        answers[0], answers[1], answers[2], answers[3], answers[4], answers[5], answers[6], now, now))
  {
    CompletedRunPostsEveryAnswer(stored, answers, reply);
    var req := SaveRequestAfter(Flow, Run(Flow, stored, answers[..6]), answers[6], reply).value;
    PostStoresConversation(t, userId, req, answers, reply, id, now);
  }

  /** Cancelling the name prompt still posts, with a null name, and the route refuses it. */
  lemma CancelledNameIsRefused(stored: Option<string>, answers: seq<string>, t: Tables, userId: string,
                               id: string, now: Timestamp)
    requires |answers| == 7 && userId != ""
    ensures SaveRequestAfter(Flow, Run(Flow, stored, answers[..6]), answers[6], Cancelled).Some?
    ensures var req := SaveRequestAfter(Flow, Run(Flow, stored, answers[..6]), answers[6], Cancelled).value;
      PostOutcome(t, Some(userId), Json(Some(req.answers), req.profileName), id, now) == (MissingFields, t)
  {
    CompletedRunPostsEveryAnswer(stored, answers, Cancelled);
  }
}
