/**
 * The phases of one exercise attempt, their fixed order, their labels, the
 * per-phase duration table with its clamping limits, and the three progress
 * dots (app.js:28-48, 317-321, 358-383, 670-685).
 */
module Phases {
  import opened Wrappers

  datatype Phase = Prep | Positioning | Eccentric | Concentric | FinalEccentric | Complete

  /** The fixed forward order of the phases; Complete is the last one. */
  const Order: seq<Phase> := [Prep, Positioning, Eccentric, Concentric, FinalEccentric, Complete]

  /** Where a phase stands in Order. */
  function IndexOf(p: Phase): (i: nat)
    ensures i < |Order| && Order[i] == p
    ensures forall j :: 0 <= j < |Order| && Order[j] == p ==> j == i
  {
    match p
    case Prep => 0
    case Positioning => 1
    case Eccentric => 2
    case Concentric => 3
    case FinalEccentric => 4
    case Complete => 5
  }

  /** The phase that follows p in Order; the last phase has no successor and stays put. */
  function Next(p: Phase): (q: Phase)
    ensures q == p <==> p == Complete
    ensures p != Complete ==> IndexOf(q) == IndexOf(p) + 1
  {
    var i := IndexOf(p);
    if i < |Order| - 1 then Order[i + 1] else p
  }

  /** n successive advances. */
  function NextN(p: Phase, n: nat): Phase
    decreases n
  {
    if n == 0 then p else NextN(Next(p), n - 1)
  }

  function Min(a: int, b: int): int { if a <= b then a else b }

  function Max(a: int, b: int): int { if a <= b then b else a }

  /** Advancing n times moves n places forward in Order, and stops at Complete. */
  lemma {:induction false} NextNIndex(p: Phase, n: nat)
    ensures IndexOf(NextN(p, n)) == Min(IndexOf(p) + n, |Order| - 1)
    decreases n
  {
    if n > 0 {
      NextNIndex(Next(p), n - 1);
    }
  }

  /** From Prep, the fifth advance reaches Complete, no earlier one does, and later advances change nothing. */
  lemma FiveAdvancesComplete()
    ensures forall n: nat :: NextN(Prep, n) == Complete <==> n >= 5
  {
    forall n: nat ensures NextN(Prep, n) == Complete <==> n >= 5 {
      NextNIndex(Prep, n);
    }
  }

  /** The label shown and spoken for a phase. */
  function Label(p: Phase): string
  {
    match p
    case Prep => "Get Ready"
    case Positioning => "Get Into Position"
    case Eccentric => "Eccentric"
    case Concentric => "Concentric"
    case FinalEccentric => "Final Eccentric"
    case Complete => "Complete"
  }

  /** The keys of the duration table: one per timed phase, and rest, which is not a phase. */
  datatype SettingKey = PhaseKey(phase: Phase) | RestKey

  /** The duration table `phaseSettings`, in seconds; it has no entry for Complete. */
  datatype Settings = Settings(prep: int, positioning: int, eccentric: int, concentric: int, finalEccentric: int, rest: int)

  /** Looking a key up in the table: Complete is the one key that is missing. */
  function Get(s: Settings, k: SettingKey): (r: Option<int>)
    ensures r.None? <==> k == PhaseKey(Complete)
  {
    match k
    case RestKey => Some(s.rest)
    case PhaseKey(p) =>
      match p
      case Prep => Some(s.prep)
      case Positioning => Some(s.positioning)
      case Eccentric => Some(s.eccentric)
      case Concentric => Some(s.concentric)
      case FinalEccentric => Some(s.finalEccentric)
      case Complete => None
  }

  /** Writing one entry of the table: that entry reads back as v and every other entry is unchanged. */
  function Put(s: Settings, k: SettingKey, v: int): (r: Settings)
    requires k != PhaseKey(Complete)
    ensures Get(r, k) == Some(v)
    ensures forall j :: j != k ==> Get(r, j) == Get(s, j)
  {
    match k
    case RestKey => s.(rest := v)
    case PhaseKey(p) =>
      match p
      case Prep => s.(prep := v)
      case Positioning => s.(positioning := v)
      case Eccentric => s.(eccentric := v)
      case Concentric => s.(concentric := v)
      case FinalEccentric => s.(finalEccentric := v)
  }

  datatype Limit = Limit(min: int, max: int)

  /** The clamping range of each setting; `complete` has none. */
  function LimitOf(k: SettingKey): (r: Option<Limit>)
    ensures r.Some? <==> k != PhaseKey(Complete)
    ensures r.Some? ==> 0 <= r.value.min <= r.value.max
  {
    match k
    case RestKey => Some(Limit(30, 180))
    case PhaseKey(p) =>
      match p
      case Prep => Some(Limit(0, 30))
      case Positioning => Some(Limit(0, 15))
      case Eccentric => Some(Limit(10, 60))
      case Concentric => Some(Limit(10, 60))
      case FinalEccentric => Some(Limit(20, 90))
      case Complete => None
  }

  /** The largest duration a timed phase may be configured to. */
  function MaxOf(p: Phase): int
    requires p != Complete
  {
    LimitOf(PhaseKey(p)).value.max
  }

  /** Whether the entry for k lies within k's limits. */
  predicate InLimits(s: Settings, k: SettingKey)
    requires k != PhaseKey(Complete)
  {
    LimitOf(k).value.min <= Get(s, k).value <= LimitOf(k).value.max
  }

  /** A table whose every entry is within its limits, as adjustPhaseSetting keeps it. */
  predicate WellFormed(s: Settings)
  {
    && InLimits(s, PhaseKey(Prep)) && InLimits(s, PhaseKey(Positioning))
    && InLimits(s, PhaseKey(Eccentric)) && InLimits(s, PhaseKey(Concentric))
    && InLimits(s, PhaseKey(FinalEccentric)) && InLimits(s, RestKey)
  }

  /** The configured duration of a timed phase; within its limits when the table is well formed. */
  function Duration(s: Settings, p: Phase): (d: int)
    requires p != Complete
    ensures Some(d) == Get(s, PhaseKey(p))
    ensures WellFormed(s) ==> LimitOf(PhaseKey(p)).value.min <= d <= MaxOf(p)
  {
    Get(s, PhaseKey(p)).value
  }

  /** The factory durations. */
  const DefaultSettings: Settings := Settings(10, 5, 30, 20, 40, 90)

  /** Distance between two durations. */
  function Dist(a: int, b: int): nat { if a <= b then b - a else a - b }

  /** The clamp of a settings edit: the point of [min, max] nearest to v. */
  function Clamp(v: int, lim: Limit): (r: int)
    requires lim.min <= lim.max
    ensures lim.min <= r <= lim.max
    ensures forall x :: lim.min <= x <= lim.max ==> Dist(r, v) <= Dist(x, v)
  {
    Max(lim.min, Min(lim.max, v))
  }

  /**
   * The duration resetPhase restores: the configured one, or 10 when the
   * phase has none (Complete) or it is 0. Under a well-formed table the
   * result is never 0 and never above the phase's limit.
   */
  function ResetDuration(s: Settings, p: Phase): (r: int)
    ensures p != Complete && Duration(s, p) != 0 ==> r == Duration(s, p)
    ensures p == Complete || Duration(s, p) == 0 ==> r == 10
    ensures WellFormed(s) ==> 0 < r
    ensures WellFormed(s) && p != Complete ==> r <= MaxOf(p)
  {
    var d := Get(s, PhaseKey(p));
    if d.Some? && d.value != 0 then d.value else 10
  }

  /** State of one progress dot. */
  datatype Dot = Idle | Active | Past

  /** The dot for the phase at Order position `dotAt`, seen from the phase at position `at`. */
  function DotSeen(at: nat, dotAt: nat): Dot
  {
    if at < dotAt then Idle else if at == dotAt then Active else Past
  }

  /**
   * The three dots for the eccentric, concentric and final-eccentric phases:
   * each is idle before its phase, active during it and past after it.
   */
  function Indicators(p: Phase): (r: seq<Dot>)
    ensures |r| == 3
    ensures forall i :: 0 <= i < 3 ==> r[i] == DotSeen(IndexOf(p), i + 2)
  {
    if p == Eccentric then [Active, Idle, Idle]
    else if p == Concentric then [Past, Active, Idle]
    else if p == FinalEccentric then [Past, Past, Active]
    else if p == Complete then [Past, Past, Past]
    else [Idle, Idle, Idle]
  }
}
