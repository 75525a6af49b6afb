/** The value types shared by every feature: challenge categories and
    difficulties, the catalog of predefined challenges, the user profile and
    chat messages. */
module Models {
  import opened Text

  datatype Option<T> = None | Some(value: T)

  datatype Category = Fitness | Creativity | Mindfulness | Learning | Social

  /** Category.allCases. */
  function AllCategories(): (r: set<Category>)
    ensures forall c: Category :: c in r
    ensures |r| == 5
  {
    var r := {Fitness, Creativity, Mindfulness, Learning, Social};
    assert forall c: Category :: c in r by {
      forall c: Category ensures c in r {
        if c.Fitness? {} else if c.Creativity? {} else if c.Mindfulness? {} else if c.Learning? {} else {}
      }
    }
    r
  }

  function Emoji(c: Category): string {
    match c
    case Fitness => "💪"
    case Creativity => "🎨"
    case Mindfulness => "🧘"
    case Learning => "📚"
    case Social => "👥"
  }

  function CategoryName(c: Category): string {
    match c
    case Fitness => "Fitness"
    case Creativity => "Creativity"
    case Mindfulness => "Mindfulness"
    case Learning => "Learning"
    case Social => "Social"
  }

  /** Distinct categories are shown with distinct emoji and distinct names. */
  lemma CategoryLabelsInjective(a: Category, b: Category)
    ensures Emoji(a) == Emoji(b) ==> a == b
    ensures CategoryName(a) == CategoryName(b) ==> a == b
  {
  }

  datatype Difficulty = Easy | Medium | Hard

  function RawValue(d: Difficulty): string {
    match d
    case Easy => "easy"
    case Medium => "medium"
    case Hard => "hard"
  }

  function UpperChar(c: char): char {
    if 'a' <= c <= 'z' then (c as int - 'a' as int + 'A' as int) as char else c
  }

  /** String.capitalized for a single ASCII word. */
  function Capitalized(s: string): string {
    if s == [] then [] else [UpperChar(s[0])] + Lower(s[1..])
  }

  /** Difficulty.displayName: the raw value, capitalised. */
  function DifficultyName(d: Difficulty): string {
    Capitalized(RawValue(d))
  }

  lemma DifficultyNames()
    ensures DifficultyName(Easy) == "Easy"
    ensures DifficultyName(Medium) == "Medium"
    ensures DifficultyName(Hard) == "Hard"
  {
    assert Lower("asy") == "asy";
    assert Lower("edium") == "edium";
    assert Lower("ard") == "ard";
  }

  /** Challenge ids are UUIDs generated when the catalog is built; within one
      run of the app they are fixed, distinct values. */
  type ChallengeId = nat

  /** A catalog entry; its title and description texts are looked up by id
      (Title, Description) since no logic reads them. */
  datatype Challenge = Challenge(
    id: ChallengeId,
    category: Category,
    difficulty: Difficulty,
    estimatedTime: nat)  // seconds

  /** Dates are whole day numbers; times of day are not observed by the core. */
  type Day = int

  datatype UserProfile = UserProfile(
    interests: set<Category>,
    difficulty: Difficulty,
    streakCount: int,
    completedChallenges: seq<ChallengeId>,
    lastCompletionDate: Option<Day>)

  /** UserProfile(): no interests, medium difficulty, no history. */
  function DefaultProfile(): UserProfile {
    UserProfile({}, Medium, 0, [], None)
  }

  datatype Message = Message(id: nat, text: string, isFromUser: bool, timestamp: int)

  /** Challenge.samples, the fixed catalog. */
  function Catalog(): seq<Challenge> {
    [ Challenge(0, Mindfulness, Easy, 600),
      Challenge(1, Creativity, Medium, 900),
      Challenge(2, Fitness, Hard, 1200),
      Challenge(3, Learning, Medium, 1500),
      Challenge(4, Social, Easy, 900),
      Challenge(5, Creativity, Hard, 1800) ]
  }

  /** The title shown for a catalog entry. */
  function Title(id: ChallengeId): string {
    if id == 0 then "Morning Meditation"
    else if id == 1 then "Creative Writing Sprint"
    else if id == 2 then "HIIT Workout"
    else if id == 3 then "Learn Something New"
    else if id == 4 then "Connect with Someone"
    else "Digital Art Creation"
  }

  /** The description shown for a catalog entry. */
  function Description(id: ChallengeId): string {
    if id == 0 then
      "Start your day with a 10-minute mindfulness session to center yourself and set positive intentions."
    else if id == 1 then
      "Write continuously for 15 minutes about anything that comes to mind. Let your creativity flow without judgment."
    else if id == 2 then
      "Complete a 20-minute high-intensity interval training session to boost your energy and strengthen your body."
    else if id == 3 then
      "Spend 25 minutes learning about a topic that interests you through videos, articles, or podcasts."
    else if id == 4 then
      "Reach out to a friend or family member you haven't spoken to in a while. Have a meaningful conversation."
    else
      "Create a digital artwork or design using your favorite app. Express yourself through colors and shapes."
  }

  /** Six entries, each with a positive duration and its own id. */
  lemma CatalogShape()
    ensures |Catalog()| == 6
    ensures forall i :: 0 <= i < |Catalog()| ==> Catalog()[i].estimatedTime > 0
    ensures forall i, j :: 0 <= i < j < |Catalog()| ==> Catalog()[i].id != Catalog()[j].id
  {
  }

  /** Each entry's id is its position in the catalog. */
  lemma CatalogIdsAreIndices()
    ensures |Catalog()| == 6
    ensures forall j :: 0 <= j < |Catalog()| ==> Catalog()[j].id == j
  {
  }

  /** An entry of the catalog is the one at its id. */
  lemma CatalogEntryById(x: Challenge)
    requires x in Catalog()
    ensures x.id < |Catalog()| && Catalog()[x.id] == x
  {
    CatalogIdsAreIndices();
  }

  /** The catalog index of a challenge of category `c`. */
  function EntryOf(c: Category): (i: nat)
    ensures i < |Catalog()| && Catalog()[i].category == c
  {
    match c
    case Mindfulness => 0
    case Creativity => 1
    case Fitness => 2
    case Learning => 3
    case Social => 4
  }
}
