/**
 * The symbol trainer: a 60-second round in which the player types the
 * character shown; a correct key draws a new target, a wrong key breaks
 * the streak.
 *
 * Randomness is a parameter: a sequence of draws in [0, 1), standing for
 * successive results of the random-number generator.
 */
module TypingGame {

  import opened Wrappers

  const AllChars: string := "0123456789()-_=+{}[];:'\".>,</?~*&^%$#@!`|\\"
  const Digits: string := "0123456789"
  const RoundSeconds: int := 60

  datatype Mode = Numbers | Symbols | Custom
  datatype Phase = Idle | Playing | Finished

  ghost predicate Distinct(s: string)
  {
    forall i, j :: 0 <= i < j < |s| ==> s[i] != s[j]
  }

  /** `new Set(s.split(''))` iterated in insertion order: first occurrences only. */
  function Dedup(s: string): (r: string)
    ensures Distinct(r)
    ensures forall c :: c in r <==> c in s
  {
    if s == [] then []
    else
      var r := Dedup(s[..|s| - 1]);
      if s[|s| - 1] in r then r else r + [s[|s| - 1]]
  }

  /** Deleting a member of an insertion-ordered set keeps the order of the others. */
  function Remove(s: string, c: char): (r: string)
    ensures forall x :: x in r <==> x in s && x != c
    ensures Distinct(s) ==> Distinct(r)
  {
    if s == [] then []
    else if s[0] == c then Remove(s[1..], c)
    else
      var r := Remove(s[1..], c);
      assert Distinct(s) ==> s[0] !in s[1..] && Distinct(s[1..]);
      [s[0]] + r
  }

  function Preset(m: Mode): string
    requires m != Custom
  {
    if m == Numbers then Digits else AllChars
  }

  /** `getActiveChars`: the preset, or the custom selection falling back to every character. */
  function ActiveChars(m: Mode, custom: string): (r: string)
    ensures |r| > 0
    ensures (forall c :: c in custom ==> c in AllChars) ==> forall c :: c in r ==> c in AllChars
  {
    if m == Custom then (if custom == [] then AllChars else custom)
    else Preset(m)
  }

  /** `canStart`: custom mode needs at least two selected characters. */
  predicate CanStart(m: Mode, custom: string)
  {
    m != Custom || |custom| >= 2
  }

  /** Whenever a round may start, there are at least two characters to draw from. */
  lemma CanStartOffersChoice(m: Mode, custom: string)
    requires CanStart(m, custom)
    ensures |ActiveChars(m, custom)| >= 2
  {
  }

  // ---------------------------------------------------------------------
  // pickRandom

  ghost predicate ValidDraws(draws: seq<real>)
  {
    forall k :: 0 <= k < |draws| ==> 0.0 <= draws[k] < 1.0
  }

  /** `Math.floor(u * n)` for a draw `u` in [0, 1). */
  function DrawIndex(u: real, n: nat): (i: nat)
    requires 0.0 <= u < 1.0 && n > 0
    ensures i < n
  {
    assert 0.0 <= u * n as real < n as real;
    (u * n as real).Floor
  }

  /** The retry test of `pickRandom`: a draw is kept unless it repeats `exclude` and there is a choice. */
  predicate Acceptable(chars: string, exclude: Option<char>, c: char)
  {
    !(exclude == Some(c) && |chars| > 1)
  }

  /** The draws contain one that `pickRandom` would keep. */
  ghost predicate CanPick(chars: string, exclude: Option<char>, draws: seq<real>)
  {
    && |chars| > 0
    && ValidDraws(draws)
    && exists k :: 0 <= k < |draws| && Acceptable(chars, exclude, chars[DrawIndex(draws[k], |chars|)])
  }

  lemma CanPickTail(chars: string, exclude: Option<char>, draws: seq<real>)
    requires CanPick(chars, exclude, draws)
    requires !Acceptable(chars, exclude, chars[DrawIndex(draws[0], |chars|)])
    ensures CanPick(chars, exclude, draws[1..])
  {
    var k :| 0 <= k < |draws| && Acceptable(chars, exclude, chars[DrawIndex(draws[k], |chars|)]);
    assert draws[1..][k - 1] == draws[k];
  }

  /** The character of the first draw that `pickRandom` keeps. */
  function FirstPick(chars: string, exclude: Option<char>, draws: seq<real>): (c: char)
    requires CanPick(chars, exclude, draws)
    ensures c in chars
    ensures |chars| > 1 && exclude.Some? ==> c != exclude.value
    decreases |draws|
  {
    var c := chars[DrawIndex(draws[0], |chars|)];
    if Acceptable(chars, exclude, c) then c
    else
      CanPickTail(chars, exclude, draws);
      FirstPick(chars, exclude, draws[1..])
  }

  /** `pickRandom`: draw until the character is acceptable. */
  method PickRandom(chars: string, exclude: Option<char>, draws: seq<real>) returns (c: char)
    requires CanPick(chars, exclude, draws)
    ensures c == FirstPick(chars, exclude, draws)
  {
    var i := 0;
    c := chars[DrawIndex(draws[0], |chars|)];
    while !Acceptable(chars, exclude, c)
      invariant 0 <= i < |draws|
      invariant CanPick(chars, exclude, draws[i..])
      invariant c == chars[DrawIndex(draws[i], |chars|)]
      invariant FirstPick(chars, exclude, draws) == FirstPick(chars, exclude, draws[i..])
      decreases |draws| - i
    {
      CanPickTail(chars, exclude, draws[i..]);
      assert draws[i..][1..] == draws[i + 1..];
      i := i + 1;
      c := chars[DrawIndex(draws[i], |chars|)];
    }
  }

  // ---------------------------------------------------------------------
  // Key names

  /**
   * The `length` JavaScript reports for a key name: UTF-16 code units, so a
   * character beyond U+FFFF counts twice.
   */
  function JsLength(s: string): (n: nat)
    ensures |s| <= n
    ensures n == 1 <==> |s| == 1 && s[0] as int <= 0xFFFF
  {
    if s == [] then 0 else (if s[0] as int > 0xFFFF then 2 else 1) + JsLength(s[1..])
  }

  /** The two lengths agree exactly when no character lies beyond U+FFFF. */
  lemma {:induction false} JsLengthAgrees(s: string)
    ensures JsLength(s) == |s| <==> forall i :: 0 <= i < |s| ==> s[i] as int <= 0xFFFF
  {
    if s != [] {
      JsLengthAgrees(s[1..]);
      assert forall i :: 1 <= i < |s| ==> s[i] == s[1..][i - 1];
    }
  }

  /** A key above U+FFFF, such as an emoji, is one character but has length 2, so the handlers ignore it. */
  lemma AstralKeyLength()
    ensures |"\U{1F600}"| == 1 && JsLength("\U{1F600}") == 2
  {
  }

  // ---------------------------------------------------------------------
  // Counters

  datatype Counters = Counters(typed: nat, attempts: nat, streak: nat, best: nat, misses: nat)

  const Zero: Counters := Counters(0, 0, 0, 0, 0)

  /** The counters' invariant. */
  predicate Consistent(c: Counters)
  {
    c.attempts == c.typed + c.misses && c.streak <= c.best
  }

  /** One key of length 1 while playing: `hit` when it equals the target. */
  function Press(c: Counters, hit: bool): Counters
  {
    if hit then
      var s := c.streak + 1;
      Counters(c.typed + 1, c.attempts + 1, s, if s > c.best then s else c.best, c.misses)
    else
      Counters(c.typed, c.attempts + 1, 0, c.best, c.misses + 1)
  }

  /** A correct key counts the character, extends the streak and raises the best streak to it. */
  lemma PressHit(c: Counters)
    requires Consistent(c)
    ensures var d := Press(c, true);
      && d.typed == c.typed + 1 && d.attempts == c.attempts + 1 && d.misses == c.misses
      && d.streak == c.streak + 1 && d.best == (if c.best >= d.streak then c.best else d.streak)
      && Consistent(d)
  {
  }

  /** A wrong key counts a miss and an attempt and breaks the streak; typed and best are kept. */
  lemma PressMiss(c: Counters)
    requires Consistent(c)
    ensures var d := Press(c, false);
      && d.typed == c.typed && d.attempts == c.attempts + 1 && d.misses == c.misses + 1
      && d.streak == 0 && d.best == c.best
      && Consistent(d)
  {
  }

  /** The counters after a round's keys, `hits[i]` telling whether key `i` matched. */
  function Replay(hits: seq<bool>): Counters
  {
    if hits == [] then Zero else Press(Replay(hits[..|hits| - 1]), hits[|hits| - 1])
  }

  /** Every key in `[i, j)` matched. */
  ghost predicate AllHits(hits: seq<bool>, i: int, j: int)
    requires 0 <= i <= j <= |hits|
  {
    forall k :: i <= k < j ==> hits[k]
  }

  /** `n` is the length of the run of matches at the end of `hits`. */
  ghost predicate IsTrailingRun(hits: seq<bool>, n: nat)
  {
    n <= |hits| && AllHits(hits, |hits| - n, |hits|) && (n < |hits| ==> !hits[|hits| - 1 - n])
  }

  /** `n` is the length of the longest run of consecutive matches in `hits`. */
  ghost predicate IsLongestRun(hits: seq<bool>, n: nat)
  {
    && (exists i, j :: 0 <= i <= j <= |hits| && j - i == n && AllHits(hits, i, j))
    && (forall i, j :: 0 <= i <= j <= |hits| && AllHits(hits, i, j) ==> j - i <= n)
  }

  lemma TrailingRunIsMaximal(hits: seq<bool>, n: nat, i: int)
    requires IsTrailingRun(hits, n)
    requires 0 <= i <= |hits| && AllHits(hits, i, |hits|)
    ensures |hits| - i <= n
  {
    if |hits| - i > n {
      assert false;
    }
  }

  /** Appending a key does not change which windows of the earlier keys are all matches. */
  lemma AllHitsExtend(h: seq<bool>, b: bool, i: int, j: int)
    requires 0 <= i <= j <= |h|
    ensures AllHits(h + [b], i, j) <==> AllHits(h, i, j)
  {
    assert forall k :: 0 <= k < |h| ==> (h + [b])[k] == h[k];
  }

  /** How many keys of `hits` have the outcome `v`. */
  function Count(hits: seq<bool>, v: bool): nat
  {
    if hits == [] then 0 else (if hits[0] == v then 1 else 0) + Count(hits[1..], v)
  }

  lemma {:induction false} CountSnoc(h: seq<bool>, b: bool, v: bool)
    ensures Count(h + [b], v) == Count(h, v) + (if b == v then 1 else 0)
  {
    if h != [] {
      assert (h + [b])[1..] == h[1..] + [b];
      CountSnoc(h[1..], b, v);
    }
  }

  /** The attempt, typed and miss counters after any sequence of keys from the reset. */
  lemma {:induction false} ReplayCounts(hits: seq<bool>)
    ensures Replay(hits).attempts == |hits|
    ensures Replay(hits).typed == Count(hits, true)
    ensures Replay(hits).misses == Count(hits, false)
  {
    if hits != [] {
      var h, b := hits[..|hits| - 1], hits[|hits| - 1];
      ReplayCounts(h);
      assert hits == h + [b];
      CountSnoc(h, b, true);
      CountSnoc(h, b, false);
    }
  }

  /** The streak counter is the run of matches at the end of the keys typed so far. */
  lemma {:induction false} ReplayStreak(hits: seq<bool>)
    ensures IsTrailingRun(hits, Replay(hits).streak)
  {
    if hits == [] {
      assert AllHits(hits, 0, 0);
    } else {
      var h, b := hits[..|hits| - 1], hits[|hits| - 1];
      assert hits == h + [b];
      ReplayStreak(h);
      var s := Replay(h).streak;
      if b {
        assert AllHits(hits, |hits| - (s + 1), |hits|) by {
          AllHitsExtend(h, b, |h| - s, |h|);
        }
        if s + 1 < |hits| {
          assert hits[|hits| - 1 - (s + 1)] == h[|h| - 1 - s];
        }
      } else {
        assert AllHits(hits, |hits|, |hits|);
      }
    }
  }

  /** The best-streak counter is the longest run of consecutive matches among the keys typed so far. */
  lemma {:induction false} ReplayBest(hits: seq<bool>)
    ensures IsLongestRun(hits, Replay(hits).best)
  {
    if hits == [] {
      assert AllHits(hits, 0, 0);
    } else {
      var h, b := hits[..|hits| - 1], hits[|hits| - 1];
      assert hits == h + [b];
      ReplayBest(h);
      ReplayStreak(h);
      var c := Replay(h);
      var best := Replay(hits).best;
      var i0, j0 :| 0 <= i0 <= j0 <= |h| && j0 - i0 == c.best && AllHits(h, i0, j0);
      AllHitsExtend(h, b, i0, j0);
      if b && c.streak + 1 > c.best {
        assert AllHits(hits, |hits| - (c.streak + 1), |hits|) by {
          AllHitsExtend(h, b, |h| - c.streak, |h|);
        }
      }
      forall i, j | 0 <= i <= j <= |hits| && AllHits(hits, i, j)
        ensures j - i <= best
      {
        if j <= |h| {
          AllHitsExtend(h, b, i, j);
        } else if i < j {
          assert hits[j - 1];
          AllHitsExtend(h, b, i, |h|);
          TrailingRunIsMaximal(h, c.streak, i);
        }
      }
    }
  }

  // ---------------------------------------------------------------------
  // Timer and accuracy

  /** `n` ticks of the one-second timer from `t` seconds: the time left and whether the round ended. */
  datatype Clock = Clock(left: int, over: bool)

  function Ticks(t: int, n: nat): Clock
  {
    if n == 0 then Clock(t, false)
    else if t <= 1 then Clock(0, true)
    else Ticks(t - 1, n - 1)
  }

  /** From `t` seconds the round lasts exactly `t` ticks and the time never goes below zero. */
  lemma {:induction false} Countdown(t: int, n: nat)
    requires 1 <= t
    ensures n < t ==> Ticks(t, n) == Clock(t - n, false)
    ensures n == t ==> Ticks(t, n) == Clock(0, true)
  {
    if n > 0 && t > 1 {
      Countdown(t - 1, n - 1);
    }
  }

  lemma MulMonotone(x: int, y: int, d: nat)
    ensures x <= y ==> x * d <= y * d
  {
  }

  /** `Math.round(typed / attempts * 100)` in exact arithmetic, or 100 before the first key. */
  function Accuracy(typed: nat, attempts: nat): (r: int)
    ensures attempts == 0 ==> r == 100
    ensures typed <= attempts ==> 0 <= r <= 100
  {
    if attempts == 0 then 100
    else
      var n, d := 200 * typed + attempts, 2 * attempts;
      var q := n / d;
      if typed <= attempts then
        assert q * d <= n <= 201 * attempts < 101 * d;
        MulMonotone(101, q, d);
        q
      else q
  }

  /**
   * The accuracy is the percentage rounded half up: `r - 1/2 <= 100 * typed / attempts < r + 1/2`,
   * written without division.
   */
  lemma AccuracyRounds(typed: nat, attempts: nat)
    requires attempts > 0
    ensures var r := Accuracy(typed, attempts);
      (2 * r - 1) * attempts <= 200 * typed < (2 * r + 1) * attempts
  {
    var n, d := 200 * typed + attempts, 2 * attempts;
    var q := n / d;
    assert q * d <= n < q * d + d;
    assert (2 * q - 1) * attempts == q * d - attempts;
    assert (2 * q + 1) * attempts == q * d + attempts;
  }

  /** Without a miss the accuracy is exactly 100. */
  lemma AccuracyPerfect(n: nat)
    ensures Accuracy(n, n) == 100
  {
    if n > 0 {
      var r := Accuracy(n, n);
      AccuracyRounds(n, n);
      MulMonotone(201, 2 * r - 1, n);
      MulMonotone(2 * r + 1, 199, n);
    }
  }

  // ---------------------------------------------------------------------
  // The game state

  class Trainer {
    var mode: Mode
    var phase: Phase
    /** The custom selection, in insertion order (a JavaScript Set). */
    var custom: string
    var current: char
    var typed: nat
    var attempts: nat
    var streak: nat
    var best: nat
    var misses: nat
    var timeLeft: int

    function Stats(): Counters
      reads this
    {
      Counters(typed, attempts, streak, best, misses)
    }

    ghost predicate Valid()
      reads this
    {
      && attempts == typed + misses && streak <= best
      && 0 <= timeLeft <= RoundSeconds
      && (phase == Finished ==> timeLeft == 0)
      && Distinct(custom)
      && (forall c :: c in custom ==> c in AllChars)
      && current in ActiveChars(mode, custom)
      && (phase != Idle ==> CanStart(mode, custom))
    }

    /** The first render: symbols mode, every character selected, a random preview character. */
    constructor (draws: seq<real>)
      requires CanPick(AllChars, None, draws)
      ensures Valid()
      ensures mode == Symbols && phase == Idle && custom == Dedup(AllChars)
      ensures current == FirstPick(AllChars, None, draws)
      ensures Stats() == Zero && timeLeft == RoundSeconds
    {
      mode := Symbols;
      phase := Idle;
      custom := Dedup(AllChars);
      var first := PickRandom(AllChars, None, draws);
      current := first;
      typed, attempts, streak, best, misses := 0, 0, 0, 0, 0;
      timeLeft := RoundSeconds;
    }

    /** `handleModeSelect` (idle screen). */
    method SelectMode(m: Mode, draws: seq<real>)
      requires Valid() && phase == Idle
      requires CanPick(ActiveChars(m, custom), None, draws)
      modifies this
      ensures Valid()
      ensures mode == m && current == FirstPick(ActiveChars(m, custom), None, draws)
      ensures phase == old(phase) && custom == old(custom) && Stats() == old(Stats()) && timeLeft == old(timeLeft)
    {
      mode := m;
      current := PickRandom(ActiveChars(m, custom), None, draws);
    }

    /** `handleToggleChar` (custom picker): flip one character's membership and redraw the preview. */
    method ToggleChar(c: char, draws: seq<real>)
      requires Valid() && phase == Idle && mode == Custom && c in AllChars
      requires CanPick(ActiveChars(Custom, if c in custom then Remove(custom, c) else custom + [c]), None, draws)
      modifies this
      ensures Valid()
      ensures (c in custom) == (c !in old(custom))
      ensures forall x :: x != c ==> (x in custom <==> x in old(custom))
      ensures custom == if c in old(custom) then Remove(old(custom), c) else old(custom) + [c]
      ensures current == FirstPick(ActiveChars(Custom, custom), None, draws)
      ensures mode == old(mode) && phase == old(phase) && Stats() == old(Stats()) && timeLeft == old(timeLeft)
    {
      var next := if c in custom then Remove(custom, c) else custom + [c];
      var pick := PickRandom(ActiveChars(Custom, next), None, draws);
      custom, current := next, pick;
    }

    /** `handleSelectAll` (custom picker). */
    method SelectAll(draws: seq<real>)
      requires Valid() && phase == Idle && mode == Custom
      requires CanPick(AllChars, None, draws)
      modifies this
      ensures Valid()
      ensures custom == Dedup(AllChars) && current == FirstPick(AllChars, None, draws)
      ensures mode == old(mode) && phase == old(phase) && Stats() == old(Stats()) && timeLeft == old(timeLeft)
    {
      var pick := PickRandom(AllChars, None, draws);
      custom, current := Dedup(AllChars), pick;
    }

    /** `handleClear` (custom picker): empties the selection; the preview is not redrawn. */
    method Clear()
      requires Valid() && phase == Idle && mode == Custom
      modifies this
      ensures Valid()
      ensures custom == [] && !CanStart(mode, custom)
      ensures current == old(current) && mode == old(mode) && phase == old(phase)
      ensures Stats() == old(Stats()) && timeLeft == old(timeLeft)
    {
      custom := [];
    }

    /** `startGame`: reset every counter and the clock, draw the first target. */
    method StartGame(draws: seq<real>)
      requires Valid() && CanStart(mode, custom)
      requires CanPick(ActiveChars(mode, custom), None, draws)
      modifies this
      ensures Valid()
      ensures phase == Playing && Stats() == Zero && timeLeft == RoundSeconds
      ensures current == FirstPick(ActiveChars(mode, custom), None, draws)
      ensures mode == old(mode) && custom == old(custom)
    {
      var c := PickRandom(ActiveChars(mode, custom), None, draws);
      phase, typed, attempts, streak, best, misses, timeLeft, current := Playing, 0, 0, 0, 0, 0, RoundSeconds, c;
    }

    /** The start button: disabled on the idle screen unless `canStart`; "Play Again" when finished. */
    method PressStart(draws: seq<real>)
      requires Valid() && phase != Playing
      requires CanPick(ActiveChars(mode, custom), None, draws)
      modifies this
      ensures Valid()
      ensures phase == Playing <==> CanStart(mode, custom)
      ensures phase == Playing ==> Stats() == Zero && timeLeft == RoundSeconds
      ensures phase == Playing ==> current == FirstPick(ActiveChars(mode, custom), None, draws)
      ensures phase != Playing ==> phase == old(phase) && current == old(current) && Stats() == old(Stats())
      ensures phase != Playing ==> timeLeft == old(timeLeft)
      ensures mode == old(mode) && custom == old(custom)
    {
      if phase == Finished || CanStart(mode, custom) {
        StartGame(draws);
      }
    }

    /** `goToMenu` (playing or finished screen). */
    method GoToMenu(draws: seq<real>)
      requires Valid() && phase != Idle
      requires CanPick(ActiveChars(mode, custom), None, draws)
      modifies this
      ensures Valid()
      ensures phase == Idle && current == FirstPick(ActiveChars(mode, custom), None, draws)
      ensures mode == old(mode) && custom == old(custom) && Stats() == old(Stats()) && timeLeft == old(timeLeft)
    {
      phase := Idle;
      current := PickRandom(ActiveChars(mode, custom), None, draws);
    }

    /** A one-character key while playing: scored against the target; a match draws a new, different target. */
    method Score(key: string, draws: seq<real>)
      requires Valid() && phase == Playing && JsLength(key) == 1
      requires CanPick(ActiveChars(mode, custom), Some(current), draws)
      modifies this
      ensures Valid()
      ensures mode == old(mode) && custom == old(custom) && phase == Playing && timeLeft == old(timeLeft)
      ensures Stats() == Press(old(Stats()), key == [old(current)])
      ensures current == (if key == [old(current)] then FirstPick(ActiveChars(mode, custom), Some(old(current)), draws)
                          else old(current))
      ensures key == [old(current)] ==> current != old(current)
    {
      var target := current;
      var hit := key == [target];
      var next := target;
      if hit {
        CanStartOffersChoice(mode, custom);
        next := PickRandom(ActiveChars(mode, custom), Some(target), draws);
      }
      var c := Press(Stats(), hit);
      typed, attempts, streak, best, misses, current := c.typed, c.attempts, c.streak, c.best, c.misses, next;
    }

    /**
     * A key press. Idle: a one-character key starts a round when allowed.
     * Playing: a one-character key is scored against the target. Finished: ignored.
     */
    method KeyDown(key: string, draws: seq<real>)
      requires Valid()
      requires CanPick(ActiveChars(mode, custom), if phase == Playing then Some(current) else None, draws)
      modifies this
      ensures Valid()
      ensures mode == old(mode) && custom == old(custom)
      ensures JsLength(key) != 1 || old(phase) == Finished || (old(phase) == Idle && !CanStart(mode, custom)) ==>
        phase == old(phase) && current == old(current) && Stats() == old(Stats()) && timeLeft == old(timeLeft)
      ensures JsLength(key) == 1 && old(phase) == Idle && CanStart(mode, custom) ==>
        phase == Playing && Stats() == Zero && timeLeft == RoundSeconds
        && current == FirstPick(ActiveChars(mode, custom), None, draws)
      ensures JsLength(key) == 1 && old(phase) == Playing ==>
        && phase == Playing && timeLeft == old(timeLeft)
        && Stats() == Press(old(Stats()), key == [old(current)])
        && current == (if key == [old(current)] then FirstPick(ActiveChars(mode, custom), Some(old(current)), draws)
                       else old(current))
        && (key == [old(current)] ==> current != old(current))
    {
      if JsLength(key) != 1 {
        return;
      }
      if phase == Idle {
        if mode == Custom && |custom| < 2 {
          return;
        }
        StartGame(draws);
      } else if phase == Playing {
        Score(key, draws);
      }
    }

    /** One second of the round timer; the timer only runs while playing. */
    method Tick()
      requires Valid()
      modifies this
      ensures Valid()
      ensures old(phase) == Playing ==> timeLeft == Ticks(old(timeLeft), 1).left
      ensures old(phase) == Playing ==> (phase == Finished <==> Ticks(old(timeLeft), 1).over)
      ensures old(phase) == Playing && !(old(timeLeft) <= 1) ==> phase == Playing
      ensures old(phase) != Playing ==> phase == old(phase) && timeLeft == old(timeLeft)
      ensures mode == old(mode) && custom == old(custom) && current == old(current) && Stats() == old(Stats())
    {
      if phase == Playing {
        if timeLeft <= 1 {
          phase := Finished;
          timeLeft := 0;
        } else {
          timeLeft := timeLeft - 1;
        }
      }
    }

    /** The accuracy shown on the playing and results screens. */
    function ShownAccuracy(): (r: int)
      reads this
      requires Valid()
      ensures 0 <= r <= 100
      ensures attempts == 0 || misses == 0 ==> r == 100
    {
      var r := Accuracy(typed, attempts);
      assert typed <= attempts;
      if misses == 0 then AccuracyPerfect(attempts); r else r
    }
  }
}
