/**
 * The splash screen's reducer: four animation flags raised in a timed sequence, then a hand-over
 * to onboarding on the first launch and to home otherwise.
 */
module SplashModel {
  import LocalStoreModel

  datatype State = State(showTrophy: bool, animateIcons: bool, zoomOut: bool, showGlow: bool,
                         isAnimationComplete: bool)

  /** Every flag starts lowered. */
  const Initial: State := State(false, false, false, false, false)

  datatype Action =
    | OnAppear
    | ShowTrophy
    | AnimateIcons
    | ZoomOut
    | ShowGlow
    | AnimationComplete
    | OnboardingComplete
    | HomeComplete

  /** Nothing, one action sent at once, or a `.run` task sending actions in order (its sleeps left out). */
  datatype Effect = NoEffect | SendAction(action: Action) | Run(actions: seq<Action>)

  datatype Transition = Transition(state: State, effect: Effect)

  /** The actions the appearance task sends, after 0.5 s, 0.5 s, 1 s and 0.8 s. */
  const AppearSequence: seq<Action> := [ShowTrophy, AnimateIcons, ZoomOut, AnimationComplete]

  /** The hand-over `animationComplete` sends. */
  function Route(firstLaunch: bool): (a: Action)
    ensures a == OnboardingComplete <==> firstLaunch
    ensures a == HomeComplete <==> !firstLaunch
  {
    if firstLaunch then OnboardingComplete else HomeComplete
  }

  /** A reducer step; `firstLaunch` is what `localStore.isFirstLaunch()` answers. */
  function Step(s: State, a: Action, firstLaunch: bool): Transition {
    match a
    case OnAppear => Transition(s, Run(AppearSequence))
    case ShowTrophy => Transition(s.(showTrophy := true), NoEffect)
    case AnimateIcons => Transition(s.(animateIcons := true), NoEffect)
    case ZoomOut => Transition(s.(zoomOut := true), NoEffect)
    case ShowGlow => Transition(s.(showGlow := true), NoEffect)
    case AnimationComplete => Transition(s.(isAnimationComplete := true), SendAction(Route(firstLaunch)))
    case OnboardingComplete => Transition(s, NoEffect)
    case HomeComplete => Transition(s, NoEffect)
  }

  /** The state after the actions, in order, the launch answer fixed. */
  function RunActions(s: State, actions: seq<Action>, firstLaunch: bool): State
    decreases |actions|
  {
    if actions == [] then s else RunActions(Step(s, actions[0], firstLaunch).state, actions[1..], firstLaunch)
  }

  /** Flags only rise: no action lowers one. */
  predicate NoFlagLowered(before: State, after: State) {
    (before.showTrophy ==> after.showTrophy)
    && (before.animateIcons ==> after.animateIcons)
    && (before.zoomOut ==> after.zoomOut)
    && (before.showGlow ==> after.showGlow)
    && (before.isAnimationComplete ==> after.isAnimationComplete)
  }

  lemma FlagsOnlyRise(s: State, a: Action, firstLaunch: bool)
    ensures NoFlagLowered(s, Step(s, a, firstLaunch).state)
  {
  }

  /** Each animation action raises its own flag and touches no other. */
  lemma EachActionRaisesItsFlag(s: State, firstLaunch: bool)
    ensures Step(s, ShowTrophy, firstLaunch).state == s.(showTrophy := true)
    ensures Step(s, AnimateIcons, firstLaunch).state == s.(animateIcons := true)
    ensures Step(s, ZoomOut, firstLaunch).state == s.(zoomOut := true)
    ensures Step(s, ShowGlow, firstLaunch).state == s.(showGlow := true)
  {
  }

  /** Completing the animation marks it complete and hands over to onboarding exactly on the first launch. */
  lemma CompletionRoutes(s: State, firstLaunch: bool)
    ensures var t := Step(s, AnimationComplete, firstLaunch);
      t.state.isAnimationComplete
      && t.effect.SendAction?
      && (t.effect.action == OnboardingComplete <==> firstLaunch)
      && (t.effect.action == HomeComplete <==> !firstLaunch)
  {
  }

  /**
   * The appearance sequence never sends `showGlow`; run from the initial state, it raises every
   * flag but the glow, and its last action is the hand-over.
   */
  lemma AppearSequenceEffect(firstLaunch: bool)
    ensures ShowGlow !in AppearSequence
    ensures RunActions(Initial, AppearSequence, firstLaunch) == State(true, true, true, false, true)
    ensures Step(RunActions(Initial, AppearSequence[..3], firstLaunch), AppearSequence[3], firstLaunch).effect
         == SendAction(Route(firstLaunch))
  {
    var a := AppearSequence;
    assert a[1..] == [AnimateIcons, ZoomOut, AnimationComplete];
    assert a[1..][1..] == [ZoomOut, AnimationComplete];
    assert a[1..][1..][1..] == [AnimationComplete];
    assert a[..3] == [ShowTrophy, AnimateIcons, ZoomOut];
    assert a[..3][1..] == [AnimateIcons, ZoomOut];
    assert a[..3][1..][1..] == [ZoomOut];
  }

  /** The splash store holding its state in place, reading the launch flag from the local store. */
  class SplashSession {
    var showTrophy: bool
    var animateIcons: bool
    var zoomOut: bool
    var showGlow: bool
    var isAnimationComplete: bool
    const localStore: LocalStoreModel.LocalStore

    function Snapshot(): State
      reads this
    {
      State(showTrophy, animateIcons, zoomOut, showGlow, isAnimationComplete)
    }

    constructor (localStore: LocalStoreModel.LocalStore)
      ensures Snapshot() == Initial && this.localStore == localStore
    {
      showTrophy := false;
      animateIcons := false;
      zoomOut := false;
      showGlow := false;
      isAnimationComplete := false;
      this.localStore := localStore;
    }

    method Reduce(a: Action) returns (effect: Effect)
      modifies this
      ensures var t := Step(old(Snapshot()), a, localStore.IsFirstLaunch());
        Snapshot() == t.state && effect == t.effect
    {
      effect := NoEffect;
      match a
      case OnAppear =>
        effect := Run(AppearSequence);
      case ShowTrophy =>
        showTrophy := true;
      case AnimateIcons =>
        animateIcons := true;
      case ZoomOut =>
        zoomOut := true;
      case ShowGlow =>
        showGlow := true;
      case AnimationComplete =>
        isAnimationComplete := true;
        if localStore.IsFirstLaunch() {
          effect := SendAction(OnboardingComplete);
        } else {
          effect := SendAction(HomeComplete);
        }
      case OnboardingComplete =>
      case HomeComplete =>
    }
  }
}
