/** `AppRepository`: the `apps` table, keyed by primary id, with the lookups,
    the key generation on create, and the usage counter. */
module Apps {
  import opened Text
  import opened Errors
  import opened AppEntity
  import opened Sorting

  /** The columns an update may set (`Partial<App>` as the services use it). */
  datatype AppPatch = AppPatch(
    name: Option<string>,
    description: Option<string>,
    platform: Option<AppPlatform>,
    status: Option<AppStatus>,
    apiKey: Option<string>)

  function ApplyPatch(a: App, p: AppPatch): (b: App)
    ensures b.id == a.id && b.appId == a.appId && b.userId == a.userId
    ensures b.eventCount == a.eventCount && b.lastEventAt == a.lastEventAt && b.createdAt == a.createdAt
    ensures b.name == (if p.name.Some? then p.name.value else a.name)
    ensures b.status == (if p.status.Some? then p.status.value else a.status)
    ensures b.apiKey == (if p.apiKey.Some? then p.apiKey.value else a.apiKey)
    ensures b.description == (if p.description.Some? then p.description else a.description)
    ensures b.platform == (if p.platform.Some? then p.platform.value else a.platform)
    ensures b.(name := a.name, description := a.description, platform := a.platform,
               status := a.status, apiKey := a.apiKey) == a
  {
    a.(name := if p.name.Some? then p.name.value else a.name,
       description := if p.description.Some? then p.description else a.description,
       platform := if p.platform.Some? then p.platform.value else a.platform,
       status := if p.status.Some? then p.status.value else a.status,
       apiKey := if p.apiKey.Some? then p.apiKey.value else a.apiKey)
  }

  /** Each element occurs at most once. */
  ghost predicate NoDuplicates<T(!new)>(s: seq<T>) {
    forall x :: multiset(s)[x] <= 1
  }

  lemma {:induction false} NoDuplicatesAppend<T(!new)>(s: seq<T>, x: T)
    requires NoDuplicates(s) && x !in s
    ensures NoDuplicates(s + [x])
  {
    assert multiset(s + [x]) == multiset(s) + multiset{x};
  }

  function CreatedAt(a: App): int {
    a.createdAt
  }

  /** The rows of a table that satisfy `p`, each once, in no particular order. */
  method Select(apps: map<string, App>, p: App -> bool) returns (r: seq<App>)
    requires forall id :: id in apps ==> apps[id].id == id
    ensures forall a :: a in r <==> a in apps.Values && p(a)
    ensures NoDuplicates(r)
  {
    var ids := apps.Keys;
    r := [];
    while ids != {}
      invariant ids <= apps.Keys
      invariant forall a :: a in r ==> a.id in apps && apps[a.id] == a && a.id !in ids && p(a)
      invariant forall id :: id in apps && id !in ids && p(apps[id]) ==> apps[id] in r
      invariant NoDuplicates(r)
      decreases |ids|
    {
      var id :| id in ids;
      if p(apps[id]) {
        NoDuplicatesAppend(r, apps[id]);
        r := r + [apps[id]];
      }
      ids := ids - {id};
    }
  }

  class AppRepository {
    var apps: map<string, App>

    /** Rows are stored under their own id, and api keys and app ids are
        unique columns. */
    ghost predicate Valid()
      reads this
    {
      && (forall id :: id in apps ==> apps[id].id == id)
      && (forall i, j :: i in apps && j in apps && apps[i].apiKey == apps[j].apiKey ==> i == j)
      && (forall i, j :: i in apps && j in apps && apps[i].appId == apps[j].appId ==> i == j)
    }

    constructor ()
      ensures Valid() && apps == map[]
    {
      apps := map[];
    }

    /** `findById`: the row with that primary id. */
    function FindById(id: string): (r: Option<App>)
      reads this
      ensures r.Some? <==> id in apps
      ensures r.Some? ==> r.value == apps[id]
    {
      if id in apps then Some(apps[id]) else None
    }

    /** `findByApiKey`: the one row with that api key, if any. */
    function FindByApiKey(apiKey: string): (r: Option<App>)
      reads this
      requires Valid()
      ensures r.Some? <==> exists id :: id in apps && apps[id].apiKey == apiKey
      ensures r.Some? ==> r.value.id in apps && apps[r.value.id] == r.value && r.value.apiKey == apiKey
    {
      if exists id :: id in apps && apps[id].apiKey == apiKey then
        var id :| id in apps && apps[id].apiKey == apiKey;
        Some(apps[id])
      else None
    }

    /** `findByAppId`: the one row with that public app id, if any. */
    function FindByAppId(appId: string): (r: Option<App>)
      reads this
      requires Valid()
      ensures r.Some? <==> exists id :: id in apps && apps[id].appId == appId
      ensures r.Some? ==> r.value.id in apps && apps[r.value.id] == r.value && r.value.appId == appId
    {
      if exists id :: id in apps && apps[id].appId == appId then
        var id :| id in apps && apps[id].appId == appId;
        Some(apps[id])
      else None
    }

    /** `findByUserId`: exactly the user's apps, newest first. */
    method FindByUserId(userId: string) returns (r: seq<App>)
      requires Valid()
      ensures forall a :: a in r <==> a in apps.Values && a.userId == userId
      ensures NoDuplicates(r)
      ensures SortedDesc(r, CreatedAt)
    {
      var owned := Select(apps, (a: App) => a.userId == userId);
      r := SortDesc(owned, CreatedAt);
      forall a
        ensures a in r <==> a in owned
        ensures multiset(r)[a] <= 1
      {
        SortDescSameElements(owned, CreatedAt, a);
      }
    }

    /** `findActiveApps`: exactly the apps whose status is ACTIVE. */
    method FindActiveApps() returns (r: seq<App>)
      requires Valid()
      ensures forall a :: a in r <==> a in apps.Values && IsActive(a)
      ensures NoDuplicates(r)
    {
      r := Select(apps, (a: App) => a.status == Active);
    }

    /** `create`: stores a new row from the draft. Whatever keys the caller
        had in mind, the row gets a fresh `eh_…` api key and a fresh
        `app_…` app id. The random hex texts and the new primary id come
        from the caller (they stand for the random sources, which never
        repeat a value in use). */
    method Create(draft: AppDraft, userId: string, id: string, keyHex: string, appIdHex: string, now: int)
      returns (a: App)
      requires Valid()
      requires id !in apps
      requires |keyHex| == 64 && IsHex(keyHex) && |appIdHex| == 32 && IsHex(appIdHex)
      requires forall i :: i in apps ==> apps[i].apiKey != "eh_" + keyHex && apps[i].appId != "app_" + appIdHex
      modifies this
      ensures Valid()
      ensures a == NewApp(id, draft, GenerateApiKey(keyHex), GenerateAppId(appIdHex), userId, now)
      ensures IsGeneratedApiKey(a.apiKey) && IsGeneratedAppId(a.appId)
      ensures apps == old(apps)[id := a]
    {
      a := NewApp(id, draft, GenerateApiKey(keyHex), GenerateAppId(appIdHex), userId, now);
      apps := apps[id := a];
    }

    /** `update`: applies the patch to the row with that id; an unknown id
        matches no row, so it succeeds and changes nothing. A patch that
        would give another row's api key breaks the unique column and fails
        without a change. */
    method Update(id: string, patch: AppPatch) returns (ok: bool)
      requires Valid()
      modifies this
      ensures Valid()
      ensures ok <==> (id !in old(apps) || patch.apiKey.None?
                       || forall i :: i in old(apps) && i != id ==> old(apps)[i].apiKey != patch.apiKey.value)
      ensures ok && id in old(apps) ==> apps == old(apps)[id := ApplyPatch(old(apps)[id], patch)]
      ensures !ok || id !in old(apps) ==> apps == old(apps)
    {
      ok := id !in apps || patch.apiKey.None? || forall i :: i in apps && i != id ==> apps[i].apiKey != patch.apiKey.value;
      if ok && id in apps {
        apps := apps[id := ApplyPatch(apps[id], patch)];
      }
    }

    /** `delete`: removes the row with that id, if any. */
    method Delete(id: string)
      requires Valid()
      modifies this
      ensures Valid()
      ensures apps == old(apps) - {id}
    {
      apps := apps - {id};
    }

    /** `incrementEventCount`: reads the row, then writes back its count plus
        one and the current instant; an unknown id throws. */
    method IncrementEventCount(id: string, now: int) returns (r: Result<()>)
      requires Valid()
      modifies this
      ensures Valid()
      ensures r.Err? <==> id !in old(apps)
      ensures r.Err? ==> r.error == PlainError("App with id " + id + " not found") && apps == old(apps)
      ensures r.Ok? ==> apps == old(apps)[id := old(apps)[id].(eventCount := old(apps)[id].eventCount + 1, lastEventAt := Some(now))]
    {
      var app := FindById(id);
      if app.None? {
        return Err(PlainError("App with id " + id + " not found"));
      }
      apps := apps[id := app.value.(eventCount := app.value.eventCount + 1, lastEventAt := Some(now))];
      r := Ok(());
    }
  }
}
