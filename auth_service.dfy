/** `AuthService`: account registration and credential checks, the
    ownership-checked app operations, and the api-key lookup the ingestion
    guard relies on. Token signing is not part of this model. */
module Auth {
  import opened Text
  import opened Errors
  import opened AppEntity
  import opened UserEntity
  import opened Apps
  import opened Users
  import Sorting

  const EmailTaken := "User with this email already exists"
  const AppNotFound := "App not found"
  const UserNotFound := "User not found"
  const WrongPassword := "Current password is incorrect"
  /** What the database reports when an update would repeat a unique key. */
  const UniqueViolation := "duplicate key value violates unique constraint"

  class AuthService {
    const users: UserRepository
    const apps: AppRepository

    ghost predicate Valid()
      reads this, users, apps
    {
      users.Valid() && apps.Valid()
    }

    constructor (users: UserRepository, apps: AppRepository)
      requires users.Valid() && apps.Valid()
      ensures this.users == users && this.apps == apps && Valid()
    {
      this.users := users;
      this.apps := apps;
    }

    /** `validateApiKey`: the app with that api key when it is ACTIVE. */
    function ValidateApiKey(apiKey: string): (r: Option<App>)
      reads this, users, apps
      requires Valid()
      ensures r.Some? <==> exists id :: id in apps.apps && apps.apps[id].apiKey == apiKey && IsActive(apps.apps[id])
      ensures r.Some? ==> r.value in apps.apps.Values && r.value.apiKey == apiKey && IsActive(r.value)
    {
      var app := apps.FindByApiKey(apiKey);
      if app.None? || app.value.status != Active then None else app
    }

    /** `register`: refuses a taken email with Conflict and stores nothing;
        otherwise stores a new user whose password is kept only as a hash. */
    method Register(email: string, password: string, firstName: Option<string>, lastName: Option<string>,
                    newId: string, now: int) returns (r: Result<User>)
      requires Valid()
      requires newId !in users.users
      modifies users
      ensures Valid()
      ensures var taken := exists id :: id in old(users.users) && old(users.users)[id].email == email;
        && (taken ==> r == Err(Conflict(EmailTaken)) && users.users == old(users.users))
        && (!taken ==> r.Ok? && r.value == NewUser(newId, email, HashPassword(password), firstName, lastName, now)
                       && users.users == old(users.users)[newId := r.value])
    {
      var existing := users.FindByEmail(email);
      if existing.Some? {
        return Err(Conflict(EmailTaken));
      }
      var user := NewUser(newId, email, HashPassword(password), firstName, lastName, now);
      users.Create(user);
      r := Ok(user);
    }

    /** `validateUser`: the user, unless the email is unknown, the account is
        inactive or the password does not match. */
    function ValidateUser(email: string, password: string): (r: Option<User>)
      reads this, users, apps
      requires Valid()
      ensures r.Some? <==> exists id :: id in users.users && users.users[id].email == email
                                     && users.users[id].isActive && ComparePassword(password, users.users[id].password)
      ensures r.Some? ==> r.value in users.users.Values && r.value.email == email
    {
      var user := users.FindByEmail(email);
      if user.None? || !user.value.isActive then None
      else if !ComparePassword(password, user.value.password) then None
      else user
    }

    /** `createApp`: a new app owned by the calling user. */
    method CreateApp(userId: string, draft: AppDraft, id: string, keyHex: string, appIdHex: string, now: int)
      returns (a: App)
      requires Valid()
      requires id !in apps.apps
      requires |keyHex| == 64 && IsHex(keyHex) && |appIdHex| == 32 && IsHex(appIdHex)
      requires forall i :: i in apps.apps ==> apps.apps[i].apiKey != "eh_" + keyHex && apps.apps[i].appId != "app_" + appIdHex
      modifies apps
      ensures Valid()
      ensures a == NewApp(id, draft, GenerateApiKey(keyHex), GenerateAppId(appIdHex), userId, now)
      ensures a.userId == userId && a.id == id && IsActive(a) && a.eventCount == 0
      ensures IsGeneratedApiKey(a.apiKey) && IsGeneratedAppId(a.appId)
      ensures apps.apps == old(apps.apps)[id := a]
    {
      a := apps.Create(draft, userId, id, keyHex, appIdHex, now);
    }

    /** `getUserApps`: the user's apps, newest first. */
    method GetUserApps(userId: string) returns (r: seq<App>)
      requires Valid()
      ensures forall a :: a in r <==> a in apps.apps.Values && a.userId == userId
      ensures Sorting.SortedDesc(r, CreatedAt)
    {
      r := apps.FindByUserId(userId);
    }

    /** `getAppById`: the app when it exists and belongs to the user;
        NotFound in both other cases, so a caller cannot tell them apart. */
    function GetAppById(userId: string, appId: string): (r: Result<App>)
      reads this, users, apps
      ensures r.Ok? <==> appId in apps.apps && apps.apps[appId].userId == userId
      ensures r.Ok? ==> r.value == apps.apps[appId]
      ensures r.Err? ==> r.error == NotFound(AppNotFound)
    {
      var app := apps.FindById(appId);
      if app.None? || app.value.userId != userId then Err(NotFound(AppNotFound)) else Ok(app.value)
    }

    /** `updateApp`: ownership first; a foreign or missing app changes
        nothing. */
    method UpdateApp(userId: string, appId: string, patch: AppPatch) returns (r: Result<App>)
      requires Valid()
      modifies apps
      ensures Valid()
      ensures r.Ok? <==> (old(GetAppById(userId, appId)).Ok? &&
        (patch.apiKey.None? || forall i :: i in old(apps.apps) && i != appId ==> old(apps.apps)[i].apiKey != patch.apiKey.value))
      ensures old(GetAppById(userId, appId)).Err? ==> r == old(GetAppById(userId, appId)) && apps.apps == old(apps.apps)
      ensures old(GetAppById(userId, appId)).Ok? && r.Err? ==> r.error == PlainError(UniqueViolation)
      ensures r.Ok? ==> appId in old(apps.apps) && apps.apps == old(apps.apps)[appId := ApplyPatch(old(apps.apps)[appId], patch)]
                        && r.value == apps.apps[appId]
      ensures r.Err? ==> apps.apps == old(apps.apps)
    {
      var owned := GetAppById(userId, appId);
      if owned.Err? {
        return owned;
      }
      var ok := apps.Update(appId, patch);
      if !ok {
        return Err(PlainError(UniqueViolation));
      }
      var updated := apps.FindById(appId);
      r := Ok(updated.value);
    }

    /** `deleteApp`: ownership first; only the user's own app is removed. */
    method DeleteApp(userId: string, appId: string) returns (r: Result<()>)
      requires Valid()
      modifies apps
      ensures Valid()
      ensures r.Ok? <==> old(GetAppById(userId, appId)).Ok?
      ensures r.Ok? ==> apps.apps == old(apps.apps) - {appId}
      ensures r.Err? ==> r.error == NotFound(AppNotFound) && apps.apps == old(apps.apps)
    {
      var owned := GetAppById(userId, appId);
      if owned.Err? {
        return Err(owned.error);
      }
      apps.Delete(appId);
      r := Ok(());
    }

    /** `regenerateApiKey`: ownership first; then only the api key of that
        app changes, to a fresh `eh_…` key, which is returned. */
    method RegenerateApiKey(userId: string, appId: string, keyHex: string) returns (r: Result<string>)
      requires Valid()
      requires |keyHex| == 64 && IsHex(keyHex)
      requires forall i :: i in apps.apps ==> apps.apps[i].apiKey != "eh_" + keyHex
      modifies apps
      ensures Valid()
      ensures r.Ok? <==> old(GetAppById(userId, appId)).Ok?
      ensures r.Ok? ==> IsGeneratedApiKey(r.value) && r.value == GenerateApiKey(keyHex)
      ensures r.Ok? ==> apps.apps == old(apps.apps)[appId := old(apps.apps)[appId].(apiKey := r.value)]
      ensures r.Err? ==> apps.apps == old(apps.apps)
    {
      var owned := GetAppById(userId, appId);
      if owned.Err? {
        return Err(owned.error);
      }
      var newKey := GenerateApiKey(keyHex);
      var ok := apps.Update(appId, AppPatch(None, None, None, None, Some(newKey)));
      assert ok;
      r := Ok(newKey);
    }

    /** `changePassword`: NotFound for an unknown user, Unauthorized when the
        current password does not match; otherwise only that user's hash
        changes. */
    method ChangePassword(userId: string, currentPassword: string, newPassword: string) returns (r: Result<()>)
      requires Valid()
      modifies users
      ensures Valid()
      ensures userId !in old(users.users) ==> r == Err(NotFound(UserNotFound))
      ensures userId in old(users.users) && !ComparePassword(currentPassword, old(users.users)[userId].password) ==>
                r == Err(Unauthorized(WrongPassword))
      ensures r.Ok? <==> userId in old(users.users) && ComparePassword(currentPassword, old(users.users)[userId].password)
      ensures r.Ok? ==> users.users == old(users.users)[userId := old(users.users)[userId].(password := HashPassword(newPassword))]
      ensures r.Err? ==> users.users == old(users.users)
    {
      var user := users.FindById(userId);
      if user.None? {
        return Err(NotFound(UserNotFound));
      }
      if !ComparePassword(currentPassword, user.value.password) {
        return Err(Unauthorized(WrongPassword));
      }
      users.UpdatePassword(userId, HashPassword(newPassword));
      r := Ok(());
    }

    /** `incrementEventCount`: delegates to the repository. */
    method IncrementEventCount(id: string, now: int) returns (r: Result<()>)
      requires Valid()
      modifies apps
      ensures Valid()
      ensures r.Err? <==> id !in old(apps.apps)
      ensures r.Ok? ==> apps.apps == old(apps.apps)[id := old(apps.apps)[id].(eventCount := old(apps.apps)[id].eventCount + 1, lastEventAt := Some(now))]
      ensures r.Err? ==> apps.apps == old(apps.apps)
    {
      r := apps.IncrementEventCount(id, now);
    }
  }
}
