/**
 * What the application says and shows, as effects appended to an output log:
 * `speak(text)` and the screen switches (app.js:711-750). The fixed phrases
 * and the decimal rendering of the countdown numbers live here.
 */
module Speech {

  datatype Screen = WorkoutListScreen | TimerScreen | RestScreen

  datatype Effect = Speak(text: string) | Show(screen: Screen)

  const CompleteText: string := "Complete! Great work!"
  const FiveSeconds: string := "5 seconds"
  const WorkoutCompleteText: string := "Workout complete!"

  /** The announcement at the start of a rest. */
  function RestAnnouncement(name: string): string
  {
    "Rest. Next exercise: " + name
  }

  /** Each text spoken, in order. */
  function Spoken(texts: seq<string>): (r: seq<Effect>)
    ensures |r| == |texts|
    ensures forall i :: 0 <= i < |texts| ==> r[i] == Speak(texts[i])
  {
    if texts == [] then [] else [Speak(texts[0])] + Spoken(texts[1..])
  }

  predicate IsDigit(c: char) { '0' <= c <= '9' }

  function Digit(d: nat): (c: char)
    requires d < 10
  {
    (48 + d) as char
  }

  /** The number a string of decimal digits denotes. */
  function ValueOf(s: string): int
  {
    if s == [] then 0 else ValueOf(s[..|s| - 1]) * 10 + (s[|s| - 1] as int - 48)
  }

  /**
   * A whole number as `toString()` writes it: decimal digits, no leading
   * zero, denoting n.
   */
  function Numeral(n: nat): (r: string)
    ensures r != [] && forall i :: 0 <= i < |r| ==> IsDigit(r[i])
    ensures r[0] == '0' ==> n == 0
    ensures ValueOf(r) == n
    decreases n
  {
    if n < 10 then [Digit(n)]
    else
      var front := Numeral(n / 10);
      var r := front + [Digit(n % 10)];
      assert r[..|r| - 1] == front;
      r
  }
}
