/**
 * The per-profile key-value storage the application reads and writes,
 * as typed maps, one per key family (app.js:772-833, 570-580). Serialisation
 * is not modelled: each map holds the values the application stores.
 */
module Storage {
  import opened Wrappers
  import opened Phases
  import opened Workouts

  /** The two supported profiles. */
  predicate IsProfile(p: int) { p == 1 || p == 2 }

  type Profile = p: int | IsProfile(p) witness 1

  /** A weight in pounds as the application keeps it: adjustWeight never lets it below 0. */
  type Lbs = w: real | w >= 0.0

  /** A completion list: logSet adds a name only when it is absent, so no name occurs twice. */
  type Completed = xs: seq<string> | NoDup(xs)

  /** A saved `{ weight, reachedFailure }` record. */
  datatype WeightRecord = WeightRecord(weight: Lbs, reachedFailure: bool)

  /** One history log entry; `date` is the timestamp text the clock gave. */
  datatype HistoryEntry = HistoryEntry(
    exerciseName: string, workoutType: WorkoutType, weight: real,
    reachedFailure: bool, profile: int, date: string)

  /** A saved `hitcoach_state_<profile>` object. */
  datatype Snapshot = Snapshot(workoutType: WorkoutType, completed: seq<string>)

  /** The values under each key family, with the types the application writes them with. */
  datatype Store = Store(
    currentProfile: Option<Profile>,                    // hitcoach_currentProfile
    workoutTypes: map<int, WorkoutType>,                // hitcoach_workoutType_<profile>
    completed: map<(int, WorkoutType), Completed>,      // hitcoach_completed_<profile>_<type>
    snapshots: map<int, Snapshot>,                      // hitcoach_state_<profile>
    weights: map<(int, string), WeightRecord>,          // hitcoach_weight_<profile>_<name>
    histories: map<int, seq<HistoryEntry>>,             // hitcoach_history_<profile>
    phaseSettings: Option<Settings>)                    // hitcoach_phaseSettings

  /** getLastWeight(name) || 0: the stored weight, 0 when there is none. */
  function StoredWeight(st: Store, profile: int, name: string): Lbs
  {
    if (profile, name) in st.weights then st.weights[(profile, name)].weight else 0.0
  }

  /** getHistory: the stored log, newest first; empty when nothing is stored. */
  function History(st: Store, profile: int): seq<HistoryEntry>
  {
    if profile in st.histories then st.histories[profile] else []
  }

  /** loadCompletionState's value: the stored list, empty when nothing is stored. */
  function Completion(st: Store, profile: int, t: WorkoutType): Completed
  {
    if (profile, t) in st.completed then st.completed[(profile, t)] else []
  }

  /** saveExerciseWeight's write: the record under this profile and name is replaced, and nothing else. */
  function SaveWeight(st: Store, profile: int, name: string, rec: WeightRecord): (r: Store)
    ensures (profile, name) in r.weights && r.weights[(profile, name)] == rec
    ensures StoredWeight(r, profile, name) == rec.weight
    ensures forall p, n :: (p, n) != (profile, name) ==> StoredWeight(r, p, n) == StoredWeight(st, p, n)
    ensures r.currentProfile == st.currentProfile && r.workoutTypes == st.workoutTypes
    ensures r.completed == st.completed && r.snapshots == st.snapshots
    ensures r.histories == st.histories && r.phaseSettings == st.phaseSettings
  {
    st.(weights := st.weights[(profile, name) := rec])
  }

  /** addToHistory's write: the entry goes in front of this profile's log; other logs and keys stay. */
  function AddEntry(st: Store, profile: int, entry: HistoryEntry): (r: Store)
    ensures History(r, profile) == [entry] + History(st, profile)
    ensures |History(r, profile)| == |History(st, profile)| + 1 && History(r, profile)[0] == entry
    ensures forall p :: p != profile ==> History(r, p) == History(st, p)
    ensures r.currentProfile == st.currentProfile && r.workoutTypes == st.workoutTypes
    ensures r.completed == st.completed && r.snapshots == st.snapshots
    ensures r.weights == st.weights && r.phaseSettings == st.phaseSettings
  {
    st.(histories := st.histories[profile := [entry] + History(st, profile)])
  }

  /** saveCompletionState's write: the list is stored under this profile and workout, and nothing else. */
  function SaveCompletion(st: Store, profile: int, t: WorkoutType, list: Completed): (r: Store)
    ensures Completion(r, profile, t) == list
    ensures forall p, u :: (p, u) != (profile, t) ==> Completion(r, p, u) == Completion(st, p, u)
    ensures r.currentProfile == st.currentProfile && r.workoutTypes == st.workoutTypes
    ensures r.snapshots == st.snapshots && r.weights == st.weights
    ensures r.histories == st.histories && r.phaseSettings == st.phaseSettings
  {
    st.(completed := st.completed[(profile, t) := list])
  }

  /** saveWorkoutTypeSelection's write: the type is stored for this profile, and nothing else changes. */
  function SaveType(st: Store, profile: int, t: WorkoutType): (r: Store)
    ensures profile in r.workoutTypes && r.workoutTypes[profile] == t
    ensures forall p :: p != profile ==> (p in r.workoutTypes <==> p in st.workoutTypes)
    ensures forall p :: p != profile && p in st.workoutTypes ==> r.workoutTypes[p] == st.workoutTypes[p]
    ensures r.currentProfile == st.currentProfile && r.completed == st.completed
    ensures r.snapshots == st.snapshots && r.weights == st.weights
    ensures r.histories == st.histories && r.phaseSettings == st.phaseSettings
  {
    st.(workoutTypes := st.workoutTypes[profile := t])
  }

  /** selectProfile's last write: the chosen profile is stored, and nothing else changes. */
  function SaveProfile(st: Store, profile: Profile): (r: Store)
    ensures r.currentProfile == Some(profile)
    ensures r.workoutTypes == st.workoutTypes && r.completed == st.completed
    ensures r.snapshots == st.snapshots && r.weights == st.weights
    ensures r.histories == st.histories && r.phaseSettings == st.phaseSettings
  {
    st.(currentProfile := Some(profile))
  }

  /** The workout type loadState ends up with: the profile's stored one if there is one, else the current one. */
  function LoadedType(st: Store, profile: int, current: WorkoutType): WorkoutType
  {
    if profile in st.workoutTypes then st.workoutTypes[profile] else current
  }

  /** The profile loadState ends up with: the stored one if there is one, else the current one. */
  function LoadedProfile(saved: Option<Profile>, current: Profile): Profile
  {
    saved.GetOr(current)
  }

  /**
   * Save then load: the type stored for a profile is the one a later
   * loadState picks for it, and other profiles load what they did before.
   */
  lemma TypeRoundTrip(st: Store, profile: int, t: WorkoutType, other: int, current: WorkoutType)
    ensures LoadedType(SaveType(st, profile, t), profile, current) == t
    ensures other != profile ==> LoadedType(SaveType(st, profile, t), other, current) == LoadedType(st, other, current)
  {
  }

  /** Save then load: the profile stored by a switch is the one a later loadState (or start-up) picks. */
  lemma ProfileRoundTrip(st: Store, profile: Profile, current: Profile)
    ensures LoadedProfile(SaveProfile(st, profile).currentProfile, current) == profile
  {
  }

  /**
   * Why selectProfile as written cannot switch to a profile other than the
   * one stored by the previous switch: loadState, called before the new
   * choice is stored, brings back the old one.
   */
  lemma SwitchUndone(requested: Profile, stored: Profile)
    requires requested != stored
    ensures LoadedProfile(Some(stored), requested) != requested
  {
  }
}
