/**
 * The phase countdown as a value: advancing a phase, one tick of a running
 * timer, runs of ticks, and the voice cues the ticks give (app.js:267-310,
 * 494-506). The application's timer methods are specified by these functions.
 */
module Timer {
  import opened Phases
  import opened Speech

  /** The pair (current phase, seconds remaining) that the timer counts down. */
  datatype Countdown = Countdown(phase: Phase, remaining: int)

  /**
   * advancePhase on the countdown: the next phase with its configured
   * duration; entering Complete leaves the remaining seconds alone, and at
   * Complete nothing moves.
   */
  function Advance(c: Countdown, s: Settings): (r: Countdown)
    ensures r.phase == Next(c.phase)
    ensures r.phase != Complete ==> r.remaining == Duration(s, r.phase)
    ensures r.phase == Complete ==> r.remaining == c.remaining
  {
    if c.phase == Complete then c
    else
      var next := Next(c.phase);
      if next == Complete then Countdown(next, c.remaining)
      else Countdown(next, Duration(s, next))
  }

  /**
   * One tick of a running timer: one second off; when that reaches 0 or
   * below, advance. A tick moves at most one phase forward, and only when
   * the time has run out.
   */
  function Tick(c: Countdown, s: Settings): (r: Countdown)
    ensures r.phase == c.phase || r.phase == Next(c.phase)
    ensures r.phase != c.phase ==> c.remaining <= 1
    ensures c.phase != Complete && c.remaining <= 1 ==> r.phase == Next(c.phase)
    ensures r.phase == c.phase || r.phase == Complete ==> r.remaining == c.remaining - 1
    ensures r.phase != c.phase && r.phase != Complete ==> r.remaining == Duration(s, r.phase)
    ensures c.remaining > 1 ==> r == Countdown(c.phase, c.remaining - 1)
  {
    var t := c.remaining - 1;
    if t <= 0 then Advance(Countdown(c.phase, t), s) else Countdown(c.phase, t)
  }

  /** n ticks in a row. */
  function Ticks(c: Countdown, s: Settings, n: nat): Countdown
    decreases n
  {
    if n == 0 then c else Ticks(Tick(c, s), s, n - 1)
  }

  /** The countdown right after a timed phase is entered. */
  function Enter(p: Phase, s: Settings): Countdown
    requires p != Complete
  {
    Countdown(p, Duration(s, p))
  }

  /** How many ticks a phase of duration d lasts: d, but at least one (0 goes to -1 first). */
  function PhaseSeconds(d: int): nat
  {
    if d <= 0 then 1 else d
  }

  /** Ticks from entering phase p until Complete is reached. */
  function SecondsToComplete(p: Phase, s: Settings): nat
    decreases |Order| - IndexOf(p)
  {
    if p == Complete then 0
    else PhaseSeconds(Duration(s, p)) + SecondsToComplete(Next(p), s)
  }

  lemma {:induction false} TicksAdd(c: Countdown, s: Settings, a: nat, b: nat)
    ensures Ticks(c, s, a + b) == Ticks(Ticks(c, s, a), s, b)
    decreases a
  {
    if a > 0 {
      TicksAdd(Tick(c, s), s, a - 1, b);
    }
  }

  /** Before the time runs out, k ticks take exactly k seconds off and keep the phase. */
  lemma {:induction false} CountsDown(c: Countdown, s: Settings, k: nat)
    requires k < c.remaining
    ensures Ticks(c, s, k) == Countdown(c.phase, c.remaining - k)
    decreases k
  {
    if k > 0 {
      CountsDown(Countdown(c.phase, c.remaining - 1), s, k - 1);
    }
  }

  /**
   * A phase entered with duration d stays for its first PhaseSeconds(d) - 1
   * ticks, and the next tick advances it.
   */
  lemma PhaseLasts(p: Phase, s: Settings)
    requires p != Complete
    ensures forall k :: 0 <= k < PhaseSeconds(Duration(s, p)) ==> Ticks(Enter(p, s), s, k).phase == p
    ensures Ticks(Enter(p, s), s, PhaseSeconds(Duration(s, p))) ==
            Advance(Countdown(p, Duration(s, p) - PhaseSeconds(Duration(s, p))), s)
  {
    var d := Duration(s, p);
    var n := PhaseSeconds(d);
    forall k | 0 <= k < n ensures Ticks(Enter(p, s), s, k).phase == p {
      if k < d {
        CountsDown(Enter(p, s), s, k);
      }
    }
    TicksAdd(Enter(p, s), s, n - 1, 1);
    if n > 1 {
      CountsDown(Enter(p, s), s, n - 1);
    }
  }

  /**
   * A running timer that has just entered phase p reaches Complete after
   * exactly SecondsToComplete(p, s) ticks, and not before.
   */
  lemma {:induction false} RunsToComplete(p: Phase, s: Settings)
    requires p != Complete
    ensures Ticks(Enter(p, s), s, SecondsToComplete(p, s)).phase == Complete
    ensures forall k :: 0 <= k < SecondsToComplete(p, s) ==> Ticks(Enter(p, s), s, k).phase != Complete
    decreases |Order| - IndexOf(p)
  {
    var n := PhaseSeconds(Duration(s, p));
    var q := Next(p);
    PhaseLasts(p, s);
    var entered := Ticks(Enter(p, s), s, n);
    if q == Complete {
      assert SecondsToComplete(p, s) == n;
      assert entered.phase == Complete;
    } else {
      assert entered == Enter(q, s);
      RunsToComplete(q, s);
      TicksAdd(Enter(p, s), s, n, SecondsToComplete(q, s));
      forall k | n <= k < SecondsToComplete(p, s) ensures Ticks(Enter(p, s), s, k).phase != Complete {
        TicksAdd(Enter(p, s), s, n, k - n);
      }
    }
  }

  /** With the factory durations an attempt takes 105 ticks from the start of Prep. */
  lemma DefaultAttemptSeconds()
    ensures WellFormed(DefaultSettings) && SecondsToComplete(Prep, DefaultSettings) == 105
  {
  }

  /** What a tick announces for the value it has just reached: the number, only within 1..5. */
  function Cue(t: int): (r: seq<string>)
    ensures |r| <= 1
    ensures r != [] ==> 0 < t <= 5 && ValueOf(r[0]) == t
    ensures 0 < t <= 5 ==> r != []
  {
    if 0 < t <= 5 then [Numeral(t)] else []
  }

  /** The cues of k ticks that start from the value t, while the phase does not change. */
  function CuesFrom(t: int, k: nat): seq<string>
    decreases k
  {
    if k == 0 then [] else Cue(t - 1) + CuesFrom(t - 1, k - 1)
  }

  /** The numbers n, n-1, ..., 1 as spoken. */
  function CountDownWords(n: nat): seq<string>
    decreases n
  {
    if n == 0 then [] else [Numeral(n)] + CountDownWords(n - 1)
  }

  /**
   * Over a whole phase of duration d the voice says the numbers from
   * min(d - 1, 5) down to 1: never 0, never more than 5, and a phase of
   * exactly 5 seconds starts its cues at 4.
   */
  lemma {:induction false} PhaseCues(d: int)
    requires d >= 0
    ensures CuesFrom(d, PhaseSeconds(d)) == CountDownWords(Min(Max(d - 1, 0), 5))
    decreases d
  {
    if d >= 2 {
      PhaseCues(d - 1);
    }
  }

  /** The rest countdown's cue: "5 seconds", only at exactly 5. */
  function RestCue(t: int): seq<string>
  {
    if t == 5 then [FiveSeconds] else []
  }

  /** The rest cues of k ticks that start from the value t. */
  function RestCuesFrom(t: int, k: nat): seq<string>
    decreases k
  {
    if k == 0 then [] else RestCue(t - 1) + RestCuesFrom(t - 1, k - 1)
  }

  /** k rest ticks from t say "5 seconds" once if they pass through 5, and otherwise nothing. */
  lemma {:induction false} RestCuesAt(t: int, k: nat)
    ensures RestCuesFrom(t, k) == if t - k <= 5 < t then [FiveSeconds] else []
    decreases k
  {
    if k > 0 {
      RestCuesAt(t - 1, k - 1);
    }
  }

  /** A full rest of r >= 6 seconds gives its cue exactly once. */
  lemma RestCuedOnce(r: int)
    requires r >= 6
    ensures RestCuesFrom(r, r) == [FiveSeconds]
  {
    RestCuesAt(r, r);
  }

  /** What advancePhase says on leaving p: the next label, the completion phrase, or nothing at Complete. */
  function AdvanceAnnouncement(p: Phase): seq<string>
  {
    if p == Complete then []
    else if Next(p) == Complete then [CompleteText]
    else [Label(Next(p))]
  }

  /** What n successive advances from p announce, in order. */
  function Announcements(p: Phase, n: nat): seq<string>
    decreases n
  {
    if n == 0 then [] else AdvanceAnnouncement(p) + Announcements(Next(p), n - 1)
  }

  /** Advances at Complete say nothing. */
  lemma {:induction false} SilentAtComplete(n: nat)
    ensures Announcements(Complete, n) == []
    decreases n
  {
    if n > 0 {
      SilentAtComplete(n - 1);
    }
  }

  /**
   * However many advances follow Prep (five or more), the voice names the
   * four later phases in order and then says the completion phrase.
   */
  lemma AttemptAnnouncements(n: nat)
    requires n >= 5
    ensures Announcements(Prep, n) ==
            [Label(Positioning), Label(Eccentric), Label(Concentric), Label(FinalEccentric), CompleteText]
  {
    SilentAtComplete(n - 5);
    AnnouncesNext(Prep, n);
    AnnouncesNext(Positioning, n - 1);
    AnnouncesNext(Eccentric, n - 2);
    AnnouncesNext(Concentric, n - 3);
    assert Announcements(FinalEccentric, n - 4) == [CompleteText] + Announcements(Complete, n - 5);
  }

  /** One advance from a phase before the last timed one names the next phase, then the rest follow. */
  lemma AnnouncesNext(p: Phase, n: nat)
    requires n > 0 && p != Complete && Next(p) != Complete
    ensures Announcements(p, n) == [Label(Next(p))] + Announcements(Next(p), n - 1)
  {
  }

  /** So the completion phrase is said exactly once per attempt, however often it is advanced. */
  lemma CompleteSaidOnce(n: nat)
    requires n >= 5
    ensures multiset(Announcements(Prep, n))[CompleteText] == 1
  {
    AttemptAnnouncements(n);
    var labels := [Label(Positioning), Label(Eccentric), Label(Concentric), Label(FinalEccentric)];
    assert Announcements(Prep, n) == labels + [CompleteText];
    assert CompleteText !in labels;
  }
}
