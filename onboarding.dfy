/**
 * The onboarding wizard: five pages (welcome, interests, difficulty, name, done), a Next
 * button gated page by page, and the preferences it saves when it finishes or is skipped.
 */
module OnboardingModel {
  import opened Wrappers
  import opened Text
  import opened CommonApi
  import opened LocalStoreModel

  datatype State = State(
    currentPage: int,
    interests: map<Interest, bool>,
    difficulty: Option<Difficulty>,
    name: string,
    isAnimating: bool,
    validationError: Option<string>)

  const Initial: State := State(0, map[], None, "", false, None)

  datatype Action =
    | OnAppear
    | NextTapped
    | BackTapped
    | SkipTapped
    | InterestTapped(interest: Interest)
    | DifficultySelected(level: Difficulty)
    | NameChanged(newName: string)
    | SetPreferences
    | OnboardingComplete
    | SetAnimating(animating: bool)
    | ClearValidationError

  /** Nothing, one action sent at once, or one action sent by a `.run` task after its delay. */
  datatype Effect = NoEffect | SendAction(action: Action) | AfterDelay(delayed: Action)

  /** A reducer step; `saved` holds the preferences written (followed by `markFirstLaunch()`), if any. */
  datatype Transition = Transition(state: State, effect: Effect, saved: Option<UserPreferences>)

  // ---------------------------------------------------------------------------
  // Computed properties

  predicate ShowsBackButton(s: State) { 1 < s.currentPage < 4 }

  predicate ShowsSkipButton(s: State) { 0 < s.currentPage < 4 }

  predicate ShowsStepper(s: State) { s.currentPage > 0 }

  function NextButtonTitle(s: State): string {
    if s.currentPage == 0 then "Get Started" else if s.currentPage == 4 then "Let's Go" else "Continue"
  }

  /** Some interest is selected (`interests.values.contains(true)`). */
  predicate AnySelected(m: map<Interest, bool>) {
    exists i | i in m :: m[i]
  }

  /** `canProceed`: whether Next may leave the current page. */
  predicate CanProceed(s: State) {
    if s.currentPage == 0 || s.currentPage == 4 then true
    else if s.currentPage == 1 then AnySelected(s.interests)
    else if s.currentPage == 2 then s.difficulty.Some?
    else if s.currentPage == 3 then Trim(s.name) != []
    else false
  }

  /** `getValidationError(for:)`. */
  function ValidationError(page: int): string {
    if page == 1 then "Please select at least one interest"
    else if page == 2 then "Please select a difficulty level"
    else if page == 3 then "Please enter your name"
    else ""
  }

  /** `onAppear`: every onboarding interest becomes a key, unselected unless it already was a key. */
  function WithAllCases(m: map<Interest, bool>): (r: map<Interest, bool>)
    ensures r.Keys == m.Keys + set i | 0 <= i < |AllCases| :: AllCases[i]
    ensures forall k | k in m :: r[k] == m[k]
    ensures forall k | k in r && k !in m :: !r[k]
  {
    WithCases(m, AllCases)
  }

  /** `m` with every key of `cases` it lacks added, switched off. */
  function WithCases(m: map<Interest, bool>, cases: seq<Interest>): (r: map<Interest, bool>)
    ensures r.Keys == m.Keys + set i | 0 <= i < |cases| :: cases[i]
    ensures forall k | k in m :: r[k] == m[k]
    ensures forall k | k in r && k !in m :: !r[k]
  {
    map k | k in m.Keys + (set i | 0 <= i < |cases| :: cases[i]) :: if k in m then m[k] else false
  }

  /** `interests[interest]?.toggle()`: flips an existing key; an absent key is left absent. */
  function Toggled(m: map<Interest, bool>, i: Interest): (r: map<Interest, bool>)
    ensures r.Keys == m.Keys
    ensures i in m ==> r[i] == !m[i]
    ensures forall k | k in m && k != i :: r[k] == m[k]
  {
    if i in m then m[i := !m[i]] else m
  }

  /** The selected interests (`compactMap` over the dictionary; its order is unspecified, so a set). */
  function Selected(m: map<Interest, bool>): (r: set<Interest>)
    ensures forall i :: i in r <==> i in m && m[i]
  {
    set i | i in m && m[i]
  }

  /** `setPreferences(state:)`'s value: the trimmed name or "Friend", the selected interests, the level or medium. */
  function PreferencesFrom(s: State): (p: UserPreferences)
    ensures Trim(s.name) != [] ==> p.name == Trim(s.name)
    ensures Trim(s.name) == [] ==> p.name == "Friend"
    ensures forall i :: i in p.interests <==> i in s.interests && s.interests[i]
    ensures s.difficulty.Some? ==> p.difficulty == s.difficulty.value
    ensures s.difficulty.None? ==> p.difficulty == Medium
  {
    UserPreferences(if Trim(s.name) == [] then "Friend" else Trim(s.name), Selected(s.interests), s.difficulty.GetOr(Medium))
  }

  // ---------------------------------------------------------------------------
  // The reducer

  function Step(s: State, a: Action): Transition {
    match a
    case OnAppear => Transition(s.(interests := WithAllCases(s.interests)), NoEffect, None)
    case NextTapped =>
      if !CanProceed(s) then
        Transition(s.(validationError := Some(ValidationError(s.currentPage))), NoEffect, None)
      else if s.currentPage < 4 then
        Transition(s.(validationError := None, isAnimating := true, currentPage := s.currentPage + 1),
                   AfterDelay(SetAnimating(false)), None)
      else
        Transition(s.(validationError := None), SendAction(OnboardingComplete), Some(PreferencesFrom(s)))
    case BackTapped =>
      if s.currentPage > 0 then
        Transition(s.(isAnimating := true, currentPage := s.currentPage - 1, validationError := None),
                   AfterDelay(SetAnimating(false)), None)
      else Transition(s, NoEffect, None)
    case SkipTapped => Transition(s, SendAction(OnboardingComplete), Some(PreferencesFrom(s)))
    case InterestTapped(interest) =>
      Transition(s.(interests := Toggled(s.interests, interest), validationError := None), NoEffect, None)
    case DifficultySelected(level) => Transition(s.(difficulty := Some(level), validationError := None), NoEffect, None)
    case NameChanged(newName) => Transition(s.(name := newName, validationError := None), NoEffect, None)
    case SetAnimating(animating) => Transition(s.(isAnimating := animating), NoEffect, None)
    case ClearValidationError => Transition(s.(validationError := None), NoEffect, None)
    case SetPreferences => Transition(s, NoEffect, None)
    case OnboardingComplete => Transition(s, NoEffect, None)
  }

  // ---------------------------------------------------------------------------
  // Properties

  /** The page starts at 0, stays within 0...4, and moves by at most one per action. */
  lemma PageStaysInRange(s: State, a: Action)
    requires 0 <= s.currentPage <= 4
    ensures 0 <= Step(s, a).state.currentPage <= 4
    ensures -1 <= Step(s, a).state.currentPage - s.currentPage <= 1
    ensures Step(s, a).state.currentPage > s.currentPage ==> a == NextTapped && CanProceed(s)
  {
  }

  /** A blocked Next on a reachable page only records that page's (non-empty) message. */
  lemma BlockedNextExplains(s: State)
    requires 0 <= s.currentPage <= 4 && !CanProceed(s)
    ensures 1 <= s.currentPage <= 3 && ValidationError(s.currentPage) != ""
    ensures Step(s, NextTapped) == Transition(s.(validationError := Some(ValidationError(s.currentPage))), NoEffect, None)
  {
  }

  /** Next on the last page saves the preferences and completes onboarding without leaving the page. */
  lemma FinishSaves(s: State)
    requires s.currentPage == 4
    ensures var t := Step(s, NextTapped);
      t.saved == Some(PreferencesFrom(s)) && t.effect == SendAction(OnboardingComplete)
      && t.state.currentPage == 4 && t.state.validationError.None?
  {
  }

  /** Skipping saves the same preferences Next on the last page would, from any page. */
  lemma SkipSavesLikeFinish(s: State)
    ensures Step(s, SkipTapped).saved == Some(PreferencesFrom(s))
    ensures Step(s, SkipTapped).effect == SendAction(OnboardingComplete)
    ensures Step(s, SkipTapped).state == s
  {
  }

  /** `onAppear` keeps every existing choice, adds the onboarding interests unselected, and is idempotent. */
  lemma OnAppearIdempotent(s: State)
    ensures var t := Step(s, OnAppear).state;
      Step(t, OnAppear).state == t
      && (forall i | 0 <= i < |AllCases| :: AllCases[i] in t.interests)
      && (forall k | k in s.interests :: k in t.interests && t.interests[k] == s.interests[k])
      && (AnySelected(t.interests) <==> AnySelected(s.interests))
  {
    var t := Step(s, OnAppear).state;
    assert WithAllCases(t.interests) == t.interests;
    if AnySelected(t.interests) {
      var k :| k in t.interests && t.interests[k];
      assert k in s.interests;
    }
    if AnySelected(s.interests) {
      var k :| k in s.interests && s.interests[k];
      assert t.interests[k];
    }
  }

  /** Tapping an interest twice restores the selection; tapping an unknown one changes no choice. */
  lemma InterestTappedTwiceRestores(s: State, i: Interest)
    ensures var t := Step(Step(s, InterestTapped(i)).state, InterestTapped(i)).state;
      t.interests == s.interests && t.validationError.None?
    ensures i !in s.interests ==> Step(s, InterestTapped(i)).state == s.(validationError := None)
  {
    var once := Toggled(s.interests, i);
    assert Toggled(once, i) == s.interests;
  }

  /** The header: back implies skip implies stepper, and the Next title names the last page. */
  lemma HeaderControls(s: State)
    ensures ShowsBackButton(s) ==> ShowsSkipButton(s)
    ensures ShowsSkipButton(s) ==> ShowsStepper(s)
    ensures NextButtonTitle(s) == "Let's Go" <==> s.currentPage == 4
    ensures NextButtonTitle(s) == "Get Started" <==> s.currentPage == 0
    ensures ShowsBackButton(s) ==> Step(s, BackTapped).state.currentPage == s.currentPage - 1
  {
  }

  // ---------------------------------------------------------------------------
  // The reducer holding its state in place

  class OnboardingSession {
    var currentPage: int
    var interests: map<Interest, bool>
    var difficulty: Option<Difficulty>
    var name: string
    var isAnimating: bool
    var validationError: Option<string>
    const store: LocalStore

    function Snapshot(): State
      reads this
    {
      State(currentPage, interests, difficulty, name, isAnimating, validationError)
    }

    constructor (store: LocalStore)
      ensures Snapshot() == Initial && this.store == store
    {
      currentPage := 0;
      interests := map[];
      difficulty := None;
      name := "";
      isAnimating := false;
      validationError := None;
      this.store := store;
    }

    /**
     * One reducer case. A save writes the preferences (unless they cannot be encoded,
     * `encodable` false) and marks the first launch done.
     */
    method Reduce(a: Action, encodable: bool) returns (effect: Effect)
      modifies this, store
      ensures Snapshot() == Step(old(Snapshot()), a).state
      ensures effect == Step(old(Snapshot()), a).effect
      ensures var saved := Step(old(Snapshot()), a).saved;
        (saved.Some? ==>
          store.hasLaunchedBefore
          && store.userPreferences == (if encodable then Some(Encoded(saved.value)) else old(store.userPreferences)))
        && (saved.None? ==>
          store.hasLaunchedBefore == old(store.hasLaunchedBefore) && store.userPreferences == old(store.userPreferences))
    {
      effect := NoEffect;
      match a
      case OnAppear =>
        AddAllCases();
      case NextTapped =>
        if !CanProceed(Snapshot()) {
          validationError := Some(ValidationError(currentPage));
          return;
        }
        validationError := None;
        if currentPage < 4 {
          isAnimating := true;
          currentPage := currentPage + 1;
          effect := AfterDelay(SetAnimating(false));
        } else {
          SavePreferences(encodable);
          effect := SendAction(OnboardingComplete);
        }
      case BackTapped =>
        if currentPage > 0 {
          isAnimating := true;
          currentPage := currentPage - 1;
          validationError := None;
          effect := AfterDelay(SetAnimating(false));
        }
      case SkipTapped =>
        SavePreferences(encodable);
        effect := SendAction(OnboardingComplete);
      case InterestTapped(interest) =>
        if interest in interests {
          interests := interests[interest := !interests[interest]];
        }
        validationError := None;
      case DifficultySelected(level) =>
        difficulty := Some(level);
        validationError := None;
      case NameChanged(newName) =>
        name := newName;
        validationError := None;
      case SetAnimating(animating) =>
        isAnimating := animating;
      case ClearValidationError =>
        validationError := None;
      case SetPreferences =>
      case OnboardingComplete =>
    }

    /** The `onAppear` loop over `Interest.allCases`. */
    method AddAllCases()
      modifies this`interests
      ensures interests == WithAllCases(old(interests))
    {
      AddCases(AllCases);
    }

    /** The loop itself, over any list of cases. */
    method AddCases(cases: seq<Interest>)
      modifies this`interests
      ensures interests == WithCases(old(interests), cases)
    {
      var i := 0;
      while i < |cases|
        invariant 0 <= i <= |cases|
        invariant interests.Keys == old(interests).Keys + set j | 0 <= j < i :: cases[j]
        invariant forall k | k in old(interests) :: interests[k] == old(interests)[k]
        invariant forall k | k in interests && k !in old(interests) :: !interests[k]
      {
        if cases[i] !in interests {
          interests := interests[cases[i] := false];
        }
        i := i + 1;
      }
      assert interests == WithCases(old(interests), cases);
    }

    /** `setPreferences(state:)`: save the preferences, then mark the first launch done. */
    method SavePreferences(encodable: bool)
      modifies store
      ensures store.hasLaunchedBefore
      ensures store.userPreferences == if encodable then Some(Encoded(PreferencesFrom(Snapshot()))) else old(store.userPreferences)
    {
      var selected := Selected(interests);
      var trimmed := Trim(name);
      var prefs := UserPreferences(if trimmed == [] then "Friend" else trimmed, selected, difficulty.GetOr(Medium));
      store.SaveUserPrefs(prefs, encodable);
      store.MarkFirstLaunch();
    }
  }
}
