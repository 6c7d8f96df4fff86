/**
 * The daily challenge screen's own logic: the time-of-day greeting, read from the current hour
 * and the saved preferences, and the pull-to-refresh gate.
 */
module DailyViewModel {
  import opened Wrappers
  import opened CommonApi
  import DailyChallengeModel

  /** The four cases of the hour switch. */
  datatype DayPart = Morning | Afternoon | Evening | Other

  /** `5..<12`, `12..<17`, `17..<22`, and everything else. */
  function PartOf(hour: int): (p: DayPart)
    ensures p == Morning <==> 5 <= hour < 12
    ensures p == Afternoon <==> 12 <= hour < 17
    ensures p == Evening <==> 17 <= hour < 22
  {
    if 5 <= hour < 12 then Morning
    else if 12 <= hour < 17 then Afternoon
    else if 17 <= hour < 22 then Evening
    else Other
  }

  /** The salutation in front of a name; late and early hours say "Hello". */
  function NamedSalutation(p: DayPart): string {
    match p
    case Morning => "Good Morning"
    case Afternoon => "Good Afternoon"
    case Evening => "Good Evening"
    case Other => "Hello"
  }

  /** `greeting()`, for the hour of the day and the preferences the local store holds. */
  function Greeting(hour: int, prefs: Option<UserPreferences>): (r: string)
    ensures prefs.Some? && prefs.value.name != [] ==>
      r == NamedSalutation(PartOf(hour)) + ", " + prefs.value.name + "!"
    ensures !(prefs.Some? && prefs.value.name != []) && PartOf(hour) != Other ==>
      r == NamedSalutation(PartOf(hour)) + "!"
    ensures !(prefs.Some? && prefs.value.name != []) && PartOf(hour) == Other ==> r == "Hola, Amigo!"
  {
    if prefs.Some? && prefs.value.name != [] then
      var name := prefs.value.name;
      match PartOf(hour)
      case Morning => "Good Morning, " + name + "!"
      case Afternoon => "Good Afternoon, " + name + "!"
      case Evening => "Good Evening, " + name + "!"
      case Other => "Hello, " + name + "!"
    else
      match PartOf(hour)
      case Morning => "Good Morning!"
      case Afternoon => "Good Afternoon!"
      case Evening => "Good Evening!"
      case Other => "Hola, Amigo!"
  }

  /** Within a day, 5, 12 and 17 o'clock open a new greeting; 22 to 4 o'clock share the default one. */
  lemma GreetingBoundaries()
    ensures PartOf(4) == Other && PartOf(5) == Morning
    ensures PartOf(11) == Morning && PartOf(12) == Afternoon
    ensures PartOf(16) == Afternoon && PartOf(17) == Evening
    ensures PartOf(21) == Evening && PartOf(22) == Other
    ensures forall h | 0 <= h < 24 :: PartOf(h) == Other <==> h < 5 || h >= 22
  {
  }

  /**
   * A named greeting ends with ", name!", and apart from the late hours it is the anonymous one
   * with the name inserted before the closing "!".
   */
  lemma NamedGreetingInsertsName(hour: int, prefs: UserPreferences)
    requires prefs.name != []
    ensures var named := Greeting(hour, Some(prefs));
      var suffix := ", " + prefs.name + "!";
      |named| > |suffix| && named[|named| - |suffix|..] == suffix
      && (PartOf(hour) != Other ==> named[..|named| - |suffix|] + "!" == Greeting(hour, None))
  {
    var named := Greeting(hour, Some(prefs));
    var suffix := ", " + prefs.name + "!";
    var head := NamedSalutation(PartOf(hour));
    assert named == head + suffix;
    assert named[..|named| - |suffix|] == head;
  }

  /** An empty saved name greets exactly as no preferences at all. */
  lemma EmptyNameIsAnonymous(hour: int, prefs: UserPreferences)
    requires prefs.name == []
    ensures Greeting(hour, Some(prefs)) == Greeting(hour, None)
  {
  }

  /** The pull-to-refresh handler: the refresh it sends, if it sends one. */
  function RefreshPulled(s: DailyChallengeModel.State): (r: Option<DailyChallengeModel.Action>)
    ensures r.Some? <==> !s.isLoading && !s.inProgress
    ensures r.Some? ==> r.value == DailyChallengeModel.RefreshChallenge
  {
    if !s.isLoading && !s.inProgress then Some(DailyChallengeModel.RefreshChallenge) else None
  }

  /**
   * Once a challenge is accepted, pulling to refresh sends nothing until it is cancelled or
   * completed, after which a refresh goes through again (when not loading).
   */
  lemma NoRefreshWhileInProgress(s: DailyChallengeModel.State, env: DailyChallengeModel.Env)
    ensures RefreshPulled(DailyChallengeModel.Step(s, DailyChallengeModel.OnAccept, env).state).None?
    ensures var t := DailyChallengeModel.Step(s, DailyChallengeModel.OnCancel, env).state;
      RefreshPulled(t).Some? <==> !s.isLoading
    ensures var t := DailyChallengeModel.Step(s, DailyChallengeModel.OnComplete, env).state;
      RefreshPulled(t).Some? <==> !s.isLoading
  {
  }
}
