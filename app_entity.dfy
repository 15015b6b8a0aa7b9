/** The `App` entity: one registered application of a user, with the keys
    that identify it to the ingestion API and its usage counter. */
module AppEntity {
  import opened Text

  datatype AppPlatform = Android | Ios | Web | Desktop
  datatype AppStatus = Active | Inactive | Suspended

  /** The enum values as stored and as shown. */
  function PlatformName(p: AppPlatform): (s: string)
    ensures s in {"android", "ios", "web", "desktop"}
  {
    match p
    case Android => "android"
    case Ios => "ios"
    case Web => "web"
    case Desktop => "desktop"
  }

  function StatusName(s: AppStatus): (n: string)
    ensures n in {"active", "inactive", "suspended"}
  {
    match s
    case Active => "active"
    case Inactive => "inactive"
    case Suspended => "suspended"
  }

  /** Distinct enum members have distinct stored names. */
  lemma {:induction false} EnumNamesInjective(p: AppPlatform, q: AppPlatform, s: AppStatus, t: AppStatus)
    ensures PlatformName(p) == PlatformName(q) ==> p == q
    ensures StatusName(s) == StatusName(t) ==> s == t
  {
  }

  /** A row of the `apps` table. Times are integer instants; `eventCount`
      counts the events recorded for the app. */
  datatype App = App(
    id: string,
    name: string,
    description: Option<string>,
    platform: AppPlatform,
    status: AppStatus,
    apiKey: string,
    appId: string,
    bundleId: Option<string>,
    websiteUrl: Option<string>,
    iconUrl: Option<string>,
    eventCount: int,
    lastEventAt: Option<int>,
    createdAt: int,
    userId: string)

  /** The `isActive` getter. */
  predicate IsActive(a: App): (ok: bool)
    ensures ok <==> StatusName(a.status) == "active"
  {
    a.status == Active
  }

  /** The `displayName` getter: the name followed by the platform in
      parentheses. */
  function DisplayName(a: App): (s: string)
    ensures StartsWith(s, a.name)
    ensures s[|a.name|..] == " (" + PlatformName(a.platform) + ")"
  {
    a.name + " (" + PlatformName(a.platform) + ")"
  }

  /** The display name gives back the name and the platform. */
  lemma {:induction false} DisplayNameInjective(a: App, b: App)
    requires DisplayName(a) == DisplayName(b)
    ensures a.platform == b.platform || |a.name| != |b.name|
    ensures |a.name| == |b.name| ==> a.name == b.name
  {
    if |a.name| == |b.name| {
      assert a.name == DisplayName(a)[..|a.name|];
      assert b.name == DisplayName(b)[..|b.name|];
      var sa := " (" + PlatformName(a.platform) + ")";
      var sb := " (" + PlatformName(b.platform) + ")";
      assert sa == sb;
      assert PlatformName(a.platform) == sa[2..|sa| - 1];
      assert PlatformName(b.platform) == sb[2..|sb| - 1];
      EnumNamesInjective(a.platform, b.platform, Active, Active);
    }
  }

  /** The fields a caller supplies when creating an app (`CreateAppDto`). */
  datatype AppDraft = AppDraft(
    name: string,
    description: Option<string>,
    platform: AppPlatform,
    bundleId: Option<string>,
    websiteUrl: Option<string>,
    iconUrl: Option<string>)

  /** A new row from a draft, with the column defaults: status ACTIVE, event
      count 0 and no last event. */
  function NewApp(id: string, draft: AppDraft, apiKey: string, appId: string, userId: string, now: int): (a: App)
    ensures IsActive(a) && a.eventCount == 0 && a.lastEventAt.None?
    ensures a.id == id && a.apiKey == apiKey && a.appId == appId && a.userId == userId && a.createdAt == now
    ensures a.name == draft.name && a.platform == draft.platform && a.description == draft.description
    ensures a.bundleId == draft.bundleId && a.websiteUrl == draft.websiteUrl && a.iconUrl == draft.iconUrl
  {
    App(id, draft.name, draft.description, draft.platform, Active, apiKey, appId,
        draft.bundleId, draft.websiteUrl, draft.iconUrl, 0, None, now, userId)
  }

  /** Lower-case hexadecimal text, as `Buffer.toString('hex')` writes it. */
  predicate IsHexChar(c: char) {
    ('0' <= c <= '9') || ('a' <= c <= 'f')
  }

  predicate IsHex(s: string) {
    forall i :: 0 <= i < |s| ==> IsHexChar(s[i])
  }

  /** `eh_` followed by the hex text of 32 random bytes. */
  predicate IsGeneratedApiKey(k: string) {
    |k| == 67 && k[..3] == "eh_" && IsHex(k[3..])
  }

  /** `app_` followed by the hex text of 16 random bytes. */
  predicate IsGeneratedAppId(k: string) {
    |k| == 36 && k[..4] == "app_" && IsHex(k[4..])
  }

  function GenerateApiKey(randomHex: string): (k: string)
    requires |randomHex| == 64 && IsHex(randomHex)
    ensures IsGeneratedApiKey(k)
  {
    "eh_" + randomHex
  }

  function GenerateAppId(randomHex: string): (k: string)
    requires |randomHex| == 32 && IsHex(randomHex)
    ensures IsGeneratedAppId(k)
  {
    "app_" + randomHex
  }

  /** A generated api key is never a generated app id: the two formats have
      different lengths and different prefixes. */
  lemma {:induction false} GeneratedKeyIsNeverAppId(k: string)
    requires IsGeneratedApiKey(k)
    ensures !IsGeneratedAppId(k)
  {
  }
}
