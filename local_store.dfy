/**
 * The preferences store the onboarding, splash and daily-challenge reducers consume
 * (`LocalStoreProtocol`). UserDefaults and JSON coding are abstracted: the stored
 * preferences are either an encoding of a value or bytes that do not decode.
 */
module LocalStoreModel {
  import opened Wrappers
  import opened CommonApi

  datatype PrefsData = Encoded(prefs: UserPreferences) | Undecodable

  class LocalStore {
    /** The `userPreferences` key, when present. */
    var userPreferences: Option<PrefsData>
    /** The `hasLaunchedBefore` key; a missing key reads as false. */
    var hasLaunchedBefore: bool

    constructor (stored: Option<PrefsData>, launchedBefore: bool)
      ensures userPreferences == stored && hasLaunchedBefore == launchedBefore
    {
      userPreferences := stored;
      hasLaunchedBefore := launchedBefore;
    }

    /** `isFirstLaunch()`: true until `markFirstLaunch()` has run. */
    function IsFirstLaunch(): bool
      reads this
    {
      !hasLaunchedBefore
    }

    /** `markFirstLaunch()` records that the app has been launched (despite its name). */
    method MarkFirstLaunch()
      modifies this`hasLaunchedBefore
      ensures hasLaunchedBefore && !IsFirstLaunch()
    {
      hasLaunchedBefore := true;
    }

    /** `loadUserPrefs()`: nil when the key is missing or its bytes do not decode. */
    function LoadUserPrefs(): (r: Option<UserPreferences>)
      reads this
      ensures r.Some? <==> userPreferences.Some? && userPreferences.value.Encoded?
      ensures r.Some? ==> userPreferences == Some(Encoded(r.value))
    {
      if userPreferences.Some? && userPreferences.value.Encoded? then Some(userPreferences.value.prefs) else None
    }

    /** `saveUserPrefs(_:)`; when encoding fails (`encodable` false) nothing is written. */
    method SaveUserPrefs(prefs: UserPreferences, encodable: bool)
      modifies this`userPreferences
      ensures encodable ==> userPreferences == Some(Encoded(prefs)) && LoadUserPrefs() == Some(prefs)
      ensures !encodable ==> userPreferences == old(userPreferences)
    {
      if encodable {
        userPreferences := Some(Encoded(prefs));
      }
    }
  }
}
