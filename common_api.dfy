/**
 * The shared value types of the app: interests, difficulty levels and the user's
 * preferences, with the two constant interest tables.
 *
 * `Interest` equality is synthesized over all three stored properties, `id` included,
 * and Dafny's structural datatype equality is exactly that. Each Swift `Interest(...)`
 * literal draws a fresh `UUID()` when its static table is first built; the model gives
 * every literal its own fixed number instead (1-5 for `Interest.allCases`, 11-20 for
 * `CommonConstants.interests`), so entries with the same name and icon in the two tables
 * are still different interests.
 */
module CommonApi {
  import opened Text
  import opened Wrappers

  datatype Interest = Interest(id: nat, name: string, icon: string)

  datatype Color = Green | Purple | Blue | Orange | Pink | Red | Gray

  /** `Interest.color`: chosen by the lowercased name; a name outside the five known ones is gray. */
  function InterestColor(i: Interest): (c: Color)
    ensures c == Gray <==> Lower(i.name) !in ColoredNames
  {
    var n := Lower(i.name);
    if n == "fitness" then Green
    else if n == "creativity" then Purple
    else if n == "mindfulness" then Blue
    else if n == "learning" then Orange
    else if n == "social" then Pink
    else Gray
  }

  const ColoredNames: set<string> := {"fitness", "creativity", "mindfulness", "learning", "social"}

  /** `Interest.allCases`: the interests offered during onboarding. */
  const AllCases: seq<Interest> := [
    Interest(1, "Fitness", "figure.walk"),
    Interest(2, "Creativity", "paintbrush"),
    Interest(3, "Mindfulness", "brain.head.profile"),
    Interest(4, "Learning", "book"),
    Interest(5, "Social", "person.2")
  ]

  /** `CommonConstants.interests`: the interests the daily challenges are generated for. */
  const ConstantInterests: seq<Interest> := [
    Interest(11, "Fitness", "figure.walk"),
    Interest(12, "Music", "music.note"),
    Interest(13, "Reading", "book.fill"),
    Interest(14, "Cooking", "fork.knife"),
    Interest(15, "Art", "paintpalette"),
    Interest(16, "Meditation", "brain.head.profile"),
    Interest(17, "Learning", "graduationcap"),
    Interest(18, "Travel", "airplane"),
    Interest(19, "Photography", "camera"),
    Interest(20, "Gardening", "leaf")
  ]

  /** The five onboarding interests have pairwise different names. */
  lemma AllCasesDistinctNames()
    ensures |AllCases| == 5
    ensures forall i, j | 0 <= i < j < |AllCases| :: AllCases[i].name != AllCases[j].name
  {
  }

  /**
   * No onboarding interest equals any challenge interest, not even "Fitness", whose name
   * and icon agree in both tables: the two literals carry different ids.
   */
  lemma TablesShareNoInterest()
    ensures forall i, j | 0 <= i < |AllCases| && 0 <= j < |ConstantInterests| :: AllCases[i] != ConstantInterests[j]
    ensures AllCases[0].name == ConstantInterests[0].name && AllCases[0].icon == ConstantInterests[0].icon
  {
  }

  datatype Difficulty = Easy | Medium | Hard

  /** The enum's raw values. */
  function RawValue(d: Difficulty): string {
    match d
    case Easy => "Easy"
    case Medium => "Medium"
    case Hard => "Hard"
  }

  /** The failable `init?(rawValue:)` Swift synthesizes for a String-backed enum (used when decoding). */
  function FromRawValue(s: string): (r: Option<Difficulty>)
    ensures r.Some? ==> RawValue(r.value) == s
  {
    if s == "Easy" then Some(Easy) else if s == "Medium" then Some(Medium) else if s == "Hard" then Some(Hard) else None
  }

  /** Raw values and the failable initializer are inverse: a string names a level exactly when it is its raw value. */
  lemma RawValueRoundTrip(d: Difficulty, s: string)
    ensures FromRawValue(RawValue(d)) == Some(d)
    ensures FromRawValue(s) == Some(d) <==> RawValue(d) == s
  {
  }

  /** `Difficulty.index`: the level's position in the picker. */
  function Index(d: Difficulty): (r: nat)
    ensures r <= 2
    ensures r == 0 <==> d == Easy
    ensures r == 2 <==> d == Hard
  {
    match d
    case Easy => 0
    case Medium => 1
    case Hard => 2
  }

  lemma IndexInjective(a: Difficulty, b: Difficulty)
    ensures Index(a) == Index(b) ==> a == b
  {
  }

  /** `UserPreferences`. The selected interests come out of a dictionary, so their order is unspecified; the model keeps the set. */
  datatype UserPreferences = UserPreferences(name: string, interests: set<Interest>, difficulty: Difficulty)
}
