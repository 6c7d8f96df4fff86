/** The home screen's reducer: the selected tab, 0 being the daily challenge. */
module HomeModel {
  import DailyChallengeModel
  import ChatStoreModel

  /** The daily challenge tab. */
  const DailyChallengeTab: int := 0

  datatype Action =
    | TabSelected(tab: int)
    | DailyChallenge(dailyChallenge: DailyChallengeModel.Action)
    | Chat(chat: ChatStoreModel.Action)
    | BackToDailyChallenge

  /** The tab after an action: chosen tabs are taken as given, children's actions keep the tab. */
  function TabAfter(tab: int, a: Action): (r: int)
    ensures a.TabSelected? ==> r == a.tab
    ensures a.BackToDailyChallenge? ==> r == DailyChallengeTab
    ensures (a.DailyChallenge? || a.Chat?) ==> r == tab
  {
    match a
    case TabSelected(t) => t
    case BackToDailyChallenge => DailyChallengeTab
    case _ => tab
  }

  /** The tab after the actions, in order. */
  function Tabs(tab: int, actions: seq<Action>): int
    decreases |actions|
  {
    if actions == [] then tab else Tabs(TabAfter(tab, actions[0]), actions[1..])
  }

  /** The tab the last tab-setting action of the sequence names, or `tab` when there is none. */
  function LastChosen(tab: int, actions: seq<Action>): int
    decreases |actions|
  {
    if actions == [] then tab
    else
      var last := actions[|actions| - 1];
      if last.TabSelected? then last.tab
      else if last.BackToDailyChallenge? then DailyChallengeTab
      else LastChosen(tab, actions[..|actions| - 1])
  }

  /** Running the actions shows the tab last chosen: children's actions in between change nothing. */
  lemma {:induction false} LastChoiceWins(tab: int, actions: seq<Action>)
    ensures Tabs(tab, actions) == LastChosen(tab, actions)
    decreases |actions|
  {
    if actions != [] {
      var init := actions[..|actions| - 1];
      var last := actions[|actions| - 1];
      TabsAppend(tab, init, last);
      assert init + [last] == actions;
      LastChoiceWins(tab, init);
    }
  }

  /** Running one more action applies it to the tab the others left. */
  lemma {:induction false} TabsAppend(tab: int, actions: seq<Action>, a: Action)
    ensures Tabs(tab, actions + [a]) == TabAfter(Tabs(tab, actions), a)
    decreases |actions|
  {
    if actions == [] {
      assert [] + [a] == [a];
    } else {
      assert (actions + [a])[1..] == actions[1..] + [a];
      TabsAppend(TabAfter(tab, actions[0]), actions[1..], a);
    }
  }

  /** The home store's tab, reassigned in place. */
  class HomeSession {
    var selectedTab: int

    constructor ()
      ensures selectedTab == DailyChallengeTab
    {
      selectedTab := 0;
    }

    method Reduce(a: Action)
      modifies this
      ensures selectedTab == TabAfter(old(selectedTab), a)
    {
      match a
      case TabSelected(tab) =>
        selectedTab := tab;
      case BackToDailyChallenge =>
        selectedTab := 0;
      case _ =>
    }
  }
}
