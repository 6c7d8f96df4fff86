/**
 * The daily challenge: nine generated challenges per challenge interest, a once-a-day choice
 * steered by the saved preferences, and the accept / cancel / complete flags.
 *
 * Preferences hold interests from `Interest.allCases`, while the challenges carry interests
 * from `CommonConstants.interests`; as `Interest` equality includes the id, the preference
 * filter never matches a generated challenge (`PreferencesNeverFilter`).
 */
module DailyChallengeModel {
  import opened Wrappers
  import opened Seqs
  import opened Text
  import opened CommonApi
  import opened LocalStoreModel

  /** `Challenge`; `id` stands for its fresh UUID. */
  datatype Challenge = Challenge(id: nat, title: string, description: string, estimatedTime: string,
                                 difficulty: Difficulty, interest: Interest)

  /** `Challenge ==`: only the ids are compared. */
  predicate SameChallenge(a: Challenge, b: Challenge) {
    a.id == b.id
  }

  // ---------------------------------------------------------------------------
  // Generation (`loadChallenges`)

  /** The level of the `j`-th template: three easy, three medium, then three hard. */
  function Level(j: nat): Difficulty {
    if j < 3 then Easy else if j < 6 then Medium else Hard
  }

  /** The title of the `j`-th template for an interest named `n`. */
  function Title(n: string, j: nat): string {
    match j
    case 0 => "Quick " + n + " Warm-up"
    case 1 => n + " Inspiration"
    case 2 => n + " Journal Entry"
    case 3 => n + " Practice Session"
    case 4 => n + " Challenge"
    case 5 => n + " Deep Practice"
    case 6 => "Advanced " + n + " Task"
    case 7 => n + " Mastery Session"
    case _ => n + " Endurance Challenge"
  }

  /** The description of the `j`-th template for an interest whose lowered name is `l`. */
  function Description(l: string, j: nat): string {
    match j
    case 0 => "Spend 10 minutes doing a light " + l + " activity."
    case 1 => "Read or watch a short piece to get inspired in " + l + "."
    case 2 => "Write down 3 things you like or learned about " + l + "."
    case 3 => "Spend focused time improving a specific skill in " + l + "."
    case 4 => "Try a new technique or tool in " + l + "."
    case 5 => "Work on a moderate project or routine for " + l + "."
    case 6 => "Take on a complex or time-intensive project related to " + l + "."
    case 7 => "Challenge yourself with a high-difficulty task in " + l + "."
    case _ => "Sustain focus on one difficult " + l + " task without breaks."
  }

  /** The minutes the nine templates estimate, in template order. */
  const TemplateMinutes: seq<nat> := [10, 5, 7, 25, 30, 20, 45, 60, 50]

  /** The estimated time of the `j`-th template, "N mins". */
  function TemplateTime(j: nat): string
    requires j < 9
  {
    NatToString(TemplateMinutes[j]) + " mins"
  }

  /** The templates' estimated times are the literals "10 mins", "5 mins", ..., "50 mins". */
  lemma TemplateTimesAsWritten()
    ensures [TemplateTime(0), TemplateTime(1), TemplateTime(2), TemplateTime(3), TemplateTime(4),
             TemplateTime(5), TemplateTime(6), TemplateTime(7), TemplateTime(8)]
         == ["10 mins", "5 mins", "7 mins", "25 mins", "30 mins", "20 mins", "45 mins", "60 mins", "50 mins"]
  {
    EasyTimesAsWritten();
    MediumTimesAsWritten();
    HardTimesAsWritten();
  }

  lemma EasyTimesAsWritten()
    ensures TemplateTime(0) == "10 mins" && TemplateTime(1) == "5 mins" && TemplateTime(2) == "7 mins"
  {
    TwoDigits(10);
    assert NatToString(5) == "5" && NatToString(7) == "7";
  }

  lemma MediumTimesAsWritten()
    ensures TemplateTime(3) == "25 mins" && TemplateTime(4) == "30 mins" && TemplateTime(5) == "20 mins"
  {
    TwoDigits(25);
    TwoDigits(30);
    TwoDigits(20);
  }

  lemma HardTimesAsWritten()
    ensures TemplateTime(6) == "45 mins" && TemplateTime(7) == "60 mins" && TemplateTime(8) == "50 mins"
  {
    TwoDigits(45);
    TwoDigits(60);
    TwoDigits(50);
  }

  /** A two-digit number renders as its tens digit followed by its units digit. */
  lemma TwoDigits(n: nat)
    requires 10 <= n < 100
    ensures NatToString(n) == [DigitChar(n / 10), DigitChar(n % 10)]
  {
    assert n / 10 < 10;
    assert NatToString(n / 10) == [DigitChar(n / 10)];
  }

  /** The `j`-th template instantiated for an interest, with id `id`. */
  function FromTemplate(interest: Interest, id: nat, j: nat): (c: Challenge)
    requires j < 9
    ensures c.id == id && c.interest == interest && c.difficulty == Level(j) && c.estimatedTime == TemplateTime(j)
  {
    Challenge(id, Title(interest.name, j), Description(Lower(interest.name), j), TemplateTime(j), Level(j), interest)
  }

  /** The nine challenges of one interest, easy to hard, with ids `firstId`, `firstId + 1`, ... */
  function ChallengesFor(interest: Interest, firstId: nat): (r: seq<Challenge>)
    ensures |r| == 9
    ensures forall j | 0 <= j < 9 :: r[j] == FromTemplate(interest, firstId + j, j)
  {
    seq(9, j requires 0 <= j < 9 => FromTemplate(interest, firstId + j, j))
  }

  /** `CommonConstants.interests.flatMap { ... }`. */
  function Generated(interests: seq<Interest>, firstId: nat): seq<Challenge>
    decreases |interests|
  {
    if interests == [] then [] else ChallengesFor(interests[0], firstId) + Generated(interests[1..], firstId + 9)
  }

  /**
   * Generation yields nine challenges per interest, grouped by interest in list order, three of
   * each level in turn, with consecutive (so pairwise different) ids.
   */
  lemma GeneratedShape(interests: seq<Interest>, firstId: nat)
    ensures var r := Generated(interests, firstId);
      |r| == 9 * |interests|
      && (forall i | 0 <= i < |r| :: r[i] == FromTemplate(interests[i / 9], firstId + i, i % 9))
      && (forall i | 0 <= i < |r| :: r[i].id == firstId + i)
  {
    GeneratedLength(interests, firstId);
    forall i | 0 <= i < 9 * |interests|
      ensures Generated(interests, firstId)[i] == FromTemplate(interests[i / 9], firstId + i, i % 9)
    {
      var k, j := i / 9, i % 9;
      assert i == 9 * k + j;
      GeneratedAt(interests, firstId, k, j);
    }
  }

  lemma {:induction false} GeneratedLength(interests: seq<Interest>, firstId: nat)
    ensures |Generated(interests, firstId)| == 9 * |interests|
    decreases |interests|
  {
    if interests != [] {
      GeneratedLength(interests[1..], firstId + 9);
    }
  }

  /** Template `j` of interest number `k` sits at index `9 k + j`, with id `firstId + 9 k + j`. */
  lemma {:induction false} GeneratedAt(interests: seq<Interest>, firstId: nat, k: nat, j: nat)
    requires k < |interests| && j < 9
    ensures 9 * k + j < |Generated(interests, firstId)|
      && Generated(interests, firstId)[9 * k + j] == FromTemplate(interests[k], firstId + 9 * k + j, j)
    decreases k
  {
    if k == 0 {
      GeneratedHead(interests, firstId, j);
    } else {
      GeneratedAt(interests[1..], firstId + 9, k - 1, j);
      GeneratedTail(interests, firstId, 9 * (k - 1) + j);
      assert interests[1..][k - 1] == interests[k];
    }
  }

  lemma GeneratedHead(interests: seq<Interest>, firstId: nat, j: nat)
    requires interests != [] && j < 9
    ensures j < |Generated(interests, firstId)|
      && Generated(interests, firstId)[j] == FromTemplate(interests[0], firstId + j, j)
  {
    var head := ChallengesFor(interests[0], firstId);
    assert Generated(interests, firstId) == head + Generated(interests[1..], firstId + 9);
    assert Generated(interests, firstId)[j] == head[j];
  }

  lemma GeneratedTail(interests: seq<Interest>, firstId: nat, t: nat)
    requires interests != [] && t < |Generated(interests[1..], firstId + 9)|
    ensures 9 + t < |Generated(interests, firstId)|
      && Generated(interests, firstId)[9 + t] == Generated(interests[1..], firstId + 9)[t]
  {
    var head := ChallengesFor(interests[0], firstId);
    var rest := Generated(interests[1..], firstId + 9);
    assert Generated(interests, firstId) == head + rest;
    assert (head + rest)[9 + t] == rest[t];
  }

  /** Every generated challenge carries one of the interests it was generated for. */
  lemma {:induction false} GeneratedInterests(interests: seq<Interest>, firstId: nat)
    ensures forall c | c in Generated(interests, firstId) :: c.interest in interests
    decreases |interests|
  {
    if interests != [] {
      GeneratedInterests(interests[1..], firstId + 9);
      var head := ChallengesFor(interests[0], firstId);
      forall c | c in Generated(interests, firstId) ensures c.interest in interests {
        if c in head {
          var j :| 0 <= j < 9 && head[j] == c;
        } else {
          assert c in Generated(interests[1..], firstId + 9);
        }
      }
    }
  }

  // ---------------------------------------------------------------------------
  // Selection (`selectTodayChallenge`)

  function MatchesPrefs(prefs: UserPreferences): Challenge -> bool {
    (c: Challenge) => c.interest in prefs.interests && c.difficulty == prefs.difficulty
  }

  function HasInterest(interest: Interest): Challenge -> bool {
    (c: Challenge) => c.interest == interest
  }

  /** The challenges a preference-guided pick draws from: the matching ones, or all when none match. */
  function Candidates(all: seq<Challenge>, prefs: UserPreferences): (r: seq<Challenge>)
    ensures forall c | c in r :: c in all
    ensures (exists i | 0 <= i < |all| :: MatchesPrefs(prefs)(all[i])) ==> forall c | c in r :: MatchesPrefs(prefs)(c)
    ensures (forall i | 0 <= i < |all| :: !MatchesPrefs(prefs)(all[i])) ==> r == all
  {
    var available := Filter(all, MatchesPrefs(prefs));
    if available == [] then all else (assert available[0] in all && MatchesPrefs(prefs)(available[0]); available)
  }

  /**
   * What the stores read at selection time: the day `lastChallengeOn` names (None when it is
   * missing or does not parse), the saved preferences, today, and the two random picks.
   */
  datatype Env = Env(lastChallengeDay: Option<int>, prefs: Option<UserPreferences>, today: int,
                     pick: nat, interestPick: nat, firstId: nat)

  datatype State = State(currentChallenge: Option<Challenge>, isLoading: bool, isCompleted: bool,
                         inProgress: bool, allChallenges: seq<Challenge>)

  const Initial: State := State(None, false, false, false, [])

  /** The pick does not depend on the ids generation would start from. */
  lemma SelectTodayIgnoresIds(s: State, env: Env)
    ensures SelectToday(s, env) == SelectToday(s, env.(firstId := 0))
  {
  }

  function SelectToday(s: State, env: Env): State {
    if env.lastChallengeDay == Some(env.today) then s
    else if env.prefs.None? then
      var defaultInterest := AllCases[env.interestPick % |AllCases|];
      var challenges := Filter(s.allChallenges, HasInterest(defaultInterest));
      s.(currentChallenge := RandomElement(challenges, env.pick), isCompleted := false)
    else
      s.(currentChallenge := RandomElement(Candidates(s.allChallenges, env.prefs.value), env.pick), isCompleted := false)
  }

  // ---------------------------------------------------------------------------
  // The reducer

  datatype Action =
    | OnAppear
    | LoadChallenges
    | SelectTodayChallenge
    | OnComplete
    | RefreshChallenge
    | SetLoading(loading: bool)
    | SetChallenge(challenge: Option<Challenge>)
    | SetCompleted(completed: bool)
    | OnAccept
    | OnCancel

  /** Nothing, or a `.run` task that sends the actions in order. */
  datatype Effect = NoEffect | Run(actions: seq<Action>)

  /** A reducer step; `completedOn` is the day written to `lastChallengeOn`, if any. */
  datatype Transition = Transition(state: State, effect: Effect, completedOn: Option<int>)

  function Step(s: State, a: Action, env: Env): Transition {
    match a
    case OnAppear => Transition(s, Run([LoadChallenges, SelectTodayChallenge]), None)
    case LoadChallenges => Transition(s.(allChallenges := Generated(ConstantInterests, env.firstId)), NoEffect, None)
    case SelectTodayChallenge => Transition(SelectToday(s, env), NoEffect, None)
    case OnComplete => Transition(s.(inProgress := false, isCompleted := true), NoEffect, Some(env.today))
    case RefreshChallenge => Transition(s, Run([SetLoading(true), SelectTodayChallenge, SetLoading(false)]), None)
    case SetLoading(loading) => Transition(s.(isLoading := loading), NoEffect, None)
    case SetChallenge(challenge) => Transition(s.(currentChallenge := challenge), NoEffect, None)
    case SetCompleted(completed) => Transition(s.(isCompleted := completed), NoEffect, None)
    case OnAccept => Transition(s.(inProgress := true), NoEffect, None)
    case OnCancel => Transition(s.(inProgress := false), NoEffect, None)
  }

  // ---------------------------------------------------------------------------
  // Properties

  /** The generated catalogue: ninety challenges, nine per challenge interest, none of them an onboarding interest. */
  lemma Catalogue(firstId: nat)
    ensures var all := Generated(ConstantInterests, firstId);
      |all| == 90
      && (forall i | 0 <= i < |all| ::
           all[i].interest == ConstantInterests[i / 9] && all[i].difficulty == Level(i % 9))
      && (forall c | c in all :: c.interest !in AllCases)
  {
    GeneratedShape(ConstantInterests, firstId);
    GeneratedInterests(ConstantInterests, firstId);
    TablesShareNoInterest();
    var all := Generated(ConstantInterests, firstId);
    forall c | c in all ensures c.interest !in AllCases {
      var k :| 0 <= k < |ConstantInterests| && ConstantInterests[k] == c.interest;
    }
  }

  /** Loading yields ninety challenges, nine per challenge interest, none of them an onboarding interest. */
  lemma LoadedChallenges(s: State, env: Env)
    ensures var all := Step(s, LoadChallenges, env).state.allChallenges;
      |all| == 90
      && (forall i | 0 <= i < |all| ::
           all[i].interest == ConstantInterests[i / 9] && all[i].difficulty == Level(i % 9))
      && (forall c | c in all :: c.interest !in AllCases)
  {
    assert Step(s, LoadChallenges, env).state.allChallenges == Generated(ConstantInterests, env.firstId);
    Catalogue(env.firstId);
  }

  /** A challenge already chosen today stays: selection is a no-op. */
  lemma SelectOncePerDay(s: State, env: Env)
    requires env.lastChallengeDay == Some(env.today)
    ensures Step(s, SelectTodayChallenge, env).state == s
  {
  }

  /**
   * With preferences, the pick is a challenge of a preferred interest at the preferred level when
   * one exists, else any challenge; there always is one when challenges are loaded. The new
   * challenge starts uncompleted.
   */
  lemma SelectWithPreferences(s: State, env: Env)
    requires env.lastChallengeDay != Some(env.today) && env.prefs.Some?
    ensures var t := Step(s, SelectTodayChallenge, env).state;
      !t.isCompleted
      && (t.currentChallenge.Some? <==> s.allChallenges != [])
      && (t.currentChallenge.Some? ==> t.currentChallenge.value in s.allChallenges)
      && ((exists i | 0 <= i < |s.allChallenges| :: MatchesPrefs(env.prefs.value)(s.allChallenges[i])) ==>
           t.currentChallenge.Some? && MatchesPrefs(env.prefs.value)(t.currentChallenge.value))
  {
  }

  /** Without preferences, the pick is filtered by an onboarding interest. */
  lemma NoPreferencesFilter(s: State, env: Env)
    requires env.lastChallengeDay != Some(env.today) && env.prefs.None?
    requires forall c | c in s.allChallenges :: c.interest !in AllCases
    ensures Step(s, SelectTodayChallenge, env).state == s.(currentChallenge := None, isCompleted := false)
  {
    var all := s.allChallenges;
    var defaultInterest := AllCases[env.interestPick % |AllCases|];
    assert defaultInterest in AllCases;
    forall i | 0 <= i < |all| ensures !HasInterest(defaultInterest)(all[i]) {
      assert all[i] in all;
    }
    FilterNone(all, HasInterest(defaultInterest));
  }

  /**
   * No generated challenge carries an onboarding interest, so without preferences there is no
   * challenge for today once the challenges are loaded.
   */
  lemma NoPreferencesNoChallenge(s: State, env: Env)
    requires env.lastChallengeDay != Some(env.today) && env.prefs.None?
    requires s.allChallenges == Generated(ConstantInterests, env.firstId)
    ensures Step(s, SelectTodayChallenge, env).state == s.(currentChallenge := None, isCompleted := false)
  {
    LoadedChallenges(s, env);
    NoPreferencesFilter(s, env);
  }

  /**
   * Preferences saved by onboarding name onboarding interests only, so the preference filter
   * never matches and the pick is drawn from every loaded challenge, whatever the level chosen.
   */
  lemma PreferencesNeverFilter(s: State, env: Env)
    requires env.prefs.Some? && forall i | i in env.prefs.value.interests :: i in AllCases
    requires s.allChallenges == Generated(ConstantInterests, env.firstId)
    ensures Candidates(s.allChallenges, env.prefs.value) == s.allChallenges
  {
    LoadedChallenges(s, env);
  }

  /** Accepting and cancelling move only `inProgress`; completing also marks completion and records today. */
  lemma ProgressFlags(s: State, env: Env)
    ensures Step(s, OnAccept, env) == Transition(s.(inProgress := true), NoEffect, None)
    ensures Step(s, OnCancel, env) == Transition(s.(inProgress := false), NoEffect, None)
    ensures var t := Step(s, OnComplete, env);
      !t.state.inProgress && t.state.isCompleted && t.completedOn == Some(env.today)
      && t.state.currentChallenge == s.currentChallenge && t.state.allChallenges == s.allChallenges
  {
  }

  /** Each setter assigns its own field and nothing else. */
  lemma SettersAssignOwnField(s: State, env: Env, loading: bool, challenge: Option<Challenge>, completed: bool)
    ensures Step(s, SetLoading(loading), env) == Transition(s.(isLoading := loading), NoEffect, None)
    ensures Step(s, SetChallenge(challenge), env) == Transition(s.(currentChallenge := challenge), NoEffect, None)
    ensures Step(s, SetCompleted(completed), env) == Transition(s.(isCompleted := completed), NoEffect, None)
  {
  }

  /** The state after the actions of a `.run` task, each with the same environment. */
  function RunAll(s: State, actions: seq<Action>, env: Env): State
    decreases |actions|
  {
    if actions == [] then s else RunAll(Step(s, actions[0], env).state, actions[1..], env)
  }

  /** A refresh ends not loading, having re-run today's selection. */
  lemma RefreshReselects(s: State, env: Env)
    ensures var t := Step(s, RefreshChallenge, env);
      t.state == s && t.effect.Run?
      && RunAll(s, t.effect.actions, env) == SelectToday(s.(isLoading := true), env).(isLoading := false)
  {
    var a := [SetLoading(true), SelectTodayChallenge, SetLoading(false)];
    assert a[1..] == [SelectTodayChallenge, SetLoading(false)];
    assert a[1..][1..] == [SetLoading(false)];
  }

  // ---------------------------------------------------------------------------
  // The reducer holding its state in place

  /** The `lastChallengeOn` key: an ISO 8601 date naming a day, or a string that does not parse. */
  datatype StoredDate = IsoDay(day: int) | Unparseable

  function DayOf(stored: Option<StoredDate>): Option<int> {
    if stored.Some? && stored.value.IsoDay? then Some(stored.value.day) else None
  }

  class DailyChallengeSession {
    var currentChallenge: Option<Challenge>
    var isLoading: bool
    var isCompleted: bool
    var inProgress: bool
    var allChallenges: seq<Challenge>
    var lastChallengeOn: Option<StoredDate>
    const store: LocalStore

    function Snapshot(): State
      reads this
    {
      State(currentChallenge, isLoading, isCompleted, inProgress, allChallenges)
    }

    function EnvFor(today: int, pick: nat, interestPick: nat, firstId: nat): Env
      reads this, store
    {
      Env(DayOf(lastChallengeOn), store.LoadUserPrefs(), today, pick, interestPick, firstId)
    }

    constructor (store: LocalStore, lastChallengeOn: Option<StoredDate>)
      ensures Snapshot() == Initial && this.store == store && this.lastChallengeOn == lastChallengeOn
    {
      currentChallenge := None;
      isLoading := false;
      isCompleted := false;
      inProgress := false;
      allChallenges := [];
      this.lastChallengeOn := lastChallengeOn;
      this.store := store;
    }

    method Reduce(a: Action, today: int, pick: nat, interestPick: nat, firstId: nat) returns (effect: Effect)
      modifies this
      ensures var t := Step(old(Snapshot()), a, old(EnvFor(today, pick, interestPick, firstId)));
        Snapshot() == t.state && effect == t.effect
        && lastChallengeOn == (if t.completedOn.Some? then Some(IsoDay(t.completedOn.value)) else old(lastChallengeOn))
    {
      ghost var env := EnvFor(today, pick, interestPick, firstId);
      if a.SelectTodayChallenge? {
        SelectTodayIgnoresIds(Snapshot(), env);
        SelectTodayInPlace(today, pick, interestPick);
        effect := NoEffect;
      } else {
        effect := ReduceOther(a, today, firstId);
      }
    }

    /** Every case but the selection: the lifecycle actions return their tasks or assign their fields. */
    method ReduceOther(a: Action, today: int, firstId: nat) returns (effect: Effect)
      requires !a.SelectTodayChallenge?
      modifies this
      ensures var t := Step(old(Snapshot()), a, Env(None, None, today, 0, 0, firstId));
        Snapshot() == t.state && effect == t.effect
        && lastChallengeOn == (if t.completedOn.Some? then Some(IsoDay(t.completedOn.value)) else old(lastChallengeOn))
    {
      effect := NoEffect;
      if a.OnAppear? {
        effect := Run([LoadChallenges, SelectTodayChallenge]);
      } else if a.LoadChallenges? {
        allChallenges := Generated(ConstantInterests, firstId);
      } else if a.OnComplete? {
        inProgress := false;
        isCompleted := true;
        lastChallengeOn := Some(IsoDay(today));
      } else if a.RefreshChallenge? {
        effect := Run([SetLoading(true), SelectTodayChallenge, SetLoading(false)]);
      } else {
        SetField(a);
      }
    }

    /** The setters and the accept and cancel buttons: each assigns one field. */
    method SetField(a: Action)
      requires a.SetLoading? || a.SetChallenge? || a.SetCompleted? || a.OnAccept? || a.OnCancel?
      modifies this
      ensures Snapshot() == Step(old(Snapshot()), a, Env(None, None, 0, 0, 0, 0)).state
      ensures lastChallengeOn == old(lastChallengeOn)
    {
      match a
      case SetLoading(loading) =>
        isLoading := loading;
      case SetChallenge(challenge) =>
        currentChallenge := challenge;
      case SetCompleted(completed) =>
        isCompleted := completed;
      case OnAccept =>
        inProgress := true;
      case OnCancel =>
        inProgress := false;
    }

    /** `selectTodayChallenge`, reading the saved day and preferences. */
    method SelectTodayInPlace(today: int, pick: nat, interestPick: nat)
      modifies this
      ensures Snapshot() == SelectToday(old(Snapshot()), old(EnvFor(today, pick, interestPick, 0)))
      ensures lastChallengeOn == old(lastChallengeOn)
    {
      if DayOf(lastChallengeOn) == Some(today) {
        return;
      }
      var prefs := store.LoadUserPrefs();
      if prefs.None? {
        var defaultInterest := AllCases[interestPick % |AllCases|];
        var challenges := Filter(allChallenges, HasInterest(defaultInterest));
        currentChallenge := RandomElement(challenges, pick);
        isCompleted := false;
        return;
      }
      var available := Filter(allChallenges, MatchesPrefs(prefs.value));
      var challengesToUse := if available == [] then allChallenges else available;
      currentChallenge := RandomElement(challengesToUse, pick);
      isCompleted := false;
    }
  }
}
