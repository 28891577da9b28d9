/**
 * The simulated opponents of a race room (src/components/RaceRoom.jsx):
 * the roster built from the room's users, the one-time speed profile each
 * bot gets when the race starts, and the per-tick recomputation of a bot's
 * progress from the time elapsed since the start. The two `Math.random()`
 * draws per bot are parameters.
 */
module Bots {
  import opened Js
  import opened Difficulty

  /** A roster entry: `{ id, emoji, name }`. */
  datatype Racer = Racer(id: string, emoji: string, name: string)

  /** The player's own entry, `YOU`. */
  const You: Racer := Racer("you", "\U{1F9D1}\U{200D}\U{1F4BB}", "You")

  /** `room?.users || []`. */
  function UsersOf(users: Option<seq<string>>): seq<string> {
    if users.Some? then users.value else []
  }

  /** The roster entry made for the `i`-th user of the room. */
  function BotEntry(users: seq<string>, i: nat): (r: Racer)
    requires i < |users|
    ensures r.emoji == users[i]
    ensures r.id == "bot-" + NatToString(i) && r.name == "Racer " + NatToString(i + 1)
  {
    Racer("bot-" + NatToString(i), users[i], "Racer " + NatToString(i + 1))
  }

  /** `competitors`: the player followed by one entry per room user, in order. */
  function Competitors(users: Option<seq<string>>): (roster: seq<Racer>)
    ensures |roster| == |UsersOf(users)| + 1
    ensures roster[0] == You
    ensures forall i :: 0 <= i < |UsersOf(users)| ==> roster[i + 1] == BotEntry(UsersOf(users), i)
  {
    var us := UsersOf(users);
    [You] + seq(|us|, i requires 0 <= i < |us| => BotEntry(us, i))
  }

  /** No two roster entries share an id, so the player's entry is the only `'you'`. */
  lemma CompetitorIdsDistinct(users: Option<seq<string>>, i: nat, j: nat)
    requires i < j < |UsersOf(users)| + 1
    ensures Competitors(users)[i].id != Competitors(users)[j].id
  {
    var roster := Competitors(users);
    var us := UsersOf(users);
    assert roster[j] == BotEntry(us, j - 1);
    var idj := roster[j].id;
    assert idj[0] == 'b' && idj[4..] == NatToString(j - 1);
    if i == 0 {
      assert roster[i].id[0] == 'y';
    } else {
      assert roster[i] == BotEntry(us, i - 1);
      NatToStringInjective(i - 1, j - 1);
      assert roster[i].id[4..] == NatToString(i - 1);
    }
  }

  /** `competitors.filter(c => c.id !== 'you')`. */
  function Opponents(roster: seq<Racer>): (opps: seq<Racer>)
    ensures |opps| <= |roster|
    ensures forall r :: r in opps ==> r in roster && r.id != "you"
    ensures forall r :: r in roster && r.id != "you" ==> r in opps
    decreases |roster|
  {
    if roster == [] then []
    else if roster[0].id == "you" then Opponents(roster[1..])
    else [roster[0]] + Opponents(roster[1..])
  }

  /**
   * `filter` keeps more than membership: every entry whose id is not
   * `'you'` as often as it occurs, and in the roster's order.
   */
  lemma {:induction false} OpponentsIsFilter(roster: seq<Racer>)
    ensures forall r :: multiset(Opponents(roster))[r] == if r.id != "you" then multiset(roster)[r] else 0
    ensures IsSubsequence(Opponents(roster), roster)
    decreases |roster|
  {
    if roster != [] {
      OpponentsIsFilter(roster[1..]);
      assert roster == [roster[0]] + roster[1..];
    }
  }

  lemma {:induction false} OpponentsKeepsAll(roster: seq<Racer>)
    requires forall i :: 0 <= i < |roster| ==> roster[i].id != "you"
    ensures Opponents(roster) == roster
    decreases |roster|
  {
    if roster != [] {
      OpponentsKeepsAll(roster[1..]);
    }
  }

  /** The opponents of a room's roster are its bot entries: all of them, in order. */
  lemma OpponentsOfCompetitors(users: Option<seq<string>>)
    ensures Opponents(Competitors(users)) == Competitors(users)[1..]
    ensures |Opponents(Competitors(users))| == |UsersOf(users)|
  {
    var roster := Competitors(users);
    forall i | 0 <= i < |roster[1..]|
      ensures roster[1..][i].id != "you"
    {
      assert roster[1..][i].id[0] == 'b';
    }
    OpponentsKeepsAll(roster[1..]);
    assert roster == [roster[0]] + roster[1..];
  }

  /** The two `Math.random()` values drawn for one bot: for its speed, then for its variance. */
  datatype Draw = Draw(speed: real, spread: real)

  predicate ValidDraw(d: Draw) {
    0.0 <= d.speed < 1.0 && 0.0 <= d.spread < 1.0
  }

  /** A bot: its roster entry, its progress in [0, 1], its speed profile and whether it is done. */
  datatype Bot = Bot(racer: Racer, progress: real, wpm: int, variance: real, done: bool)

  /**
   * What every bot satisfies once made: progress in [0, 1], done exactly
   * when progress has reached 1, a non-negative speed profile.
   */
  predicate ValidBot(b: Bot) {
    && 0.0 <= b.progress <= 1.0
    && (b.done <==> b.progress == 1.0)
    && b.wpm >= 0
    && b.variance >= 0.0
  }

  /** A new bot: progress 0, `wpm = round(min + r1 * (max - min))`, `variance = r2 * 0.4 + 0.8`. */
  function InitBot(r: Racer, range: WpmRange, d: Draw): (b: Bot)
    requires 0 <= range.min <= range.max
    requires ValidDraw(d)
    ensures b.racer == r && b.progress == 0.0 && !b.done
    ensures range.min <= b.wpm <= range.max
    ensures 0.8 <= b.variance < 1.2
    ensures ValidBot(b)
  {
    var w := (range.max - range.min) as real;
    var x := range.min as real + d.speed * w;
    assert 0.0 <= d.speed * w <= w by {
      assert (1.0 - d.speed) * w >= 0.0;
    }
    RoundMonotonic(range.min as real, x);
    RoundMonotonic(x, range.max as real);
    RoundOfInt(range.min);
    RoundOfInt(range.max);
    Bot(r, 0.0, Round(x), d.spread * 0.4 + 0.8, false)
  }

  /** The bots made when the race starts: one per opponent, in roster order. */
  function InitBots(roster: seq<Racer>, range: WpmRange, draws: seq<Draw>): (bots: seq<Bot>)
    requires 0 <= range.min <= range.max
    requires |draws| == |Opponents(roster)|
    requires forall i :: 0 <= i < |draws| ==> ValidDraw(draws[i])
    ensures |bots| == |Opponents(roster)|
    ensures forall i :: 0 <= i < |bots| ==>
              && bots[i].racer == Opponents(roster)[i]
              && bots[i].progress == 0.0 && !bots[i].done
              && range.min <= bots[i].wpm <= range.max
              && 0.8 <= bots[i].variance < 1.2
    ensures forall i :: 0 <= i < |bots| ==> ValidBot(bots[i])
  {
    var opps := Opponents(roster);
    seq(|opps|, i requires 0 <= i < |opps| => InitBot(opps[i], range, draws[i]))
  }

  /** Characters a bot is estimated to have typed: `wpm * 5 * (elapsed / 60000) * variance`. */
  function EstChars(b: Bot, elapsed: int): real {
    b.wpm as real * 5.0 * (elapsed as real / 60000.0) * b.variance
  }

  lemma EstCharsMonotonic(b: Bot, e1: int, e2: int)
    requires b.wpm >= 0 && b.variance >= 0.0
    requires e1 <= e2
    ensures EstChars(b, e1) <= EstChars(b, e2)
  {
    var k := b.wpm as real * 5.0;
    assert k >= 0.0;
    var m1, m2 := e1 as real / 60000.0, e2 as real / 60000.0;
    assert m1 <= m2;
    assert k * m1 <= k * m2;
    assert (k * m1) * b.variance <= (k * m2) * b.variance;
  }

  /** No time, no characters. */
  lemma EstCharsAtZero(b: Bot)
    ensures EstChars(b, 0) == 0.0
  {
    assert (0 as real / 60000.0) == 0.0;
  }

  lemma EstCharsNonNegative(b: Bot, elapsed: int)
    requires b.wpm >= 0 && b.variance >= 0.0
    requires elapsed >= 0
    ensures EstChars(b, elapsed) >= 0.0
  {
    EstCharsMonotonic(b, 0, elapsed);
  }

  /**
   * One tick for one bot: a done bot is returned unchanged; any other
   * gets `progress = min(1, estChars / target.length)` and
   * `done = progress >= 1`, its other fields kept.
   */
  function Advance(b: Bot, elapsed: int, targetLen: nat): (b': Bot)
    requires targetLen > 0
    ensures b.done ==> b' == b
    ensures !b.done ==> b'.racer == b.racer && b'.wpm == b.wpm && b'.variance == b.variance
    ensures !b.done ==> (b'.done <==> b'.progress == 1.0) && b'.progress <= 1.0
    ensures !b.done ==> (b'.done <==> EstChars(b, elapsed) >= targetLen as real)
    ensures !b.done && !b'.done ==> b'.progress * targetLen as real == EstChars(b, elapsed)
    ensures ValidBot(b) && elapsed >= 0 ==> ValidBot(b')
  {
    if b.done then b
    else
      var est, n := EstChars(b, elapsed), targetLen as real;
      var progress := MinReal(1.0, est / n);
      assert est / n >= 1.0 <==> est >= n by {
        assert (est / n) * n == est;
      }
      assert ValidBot(b) && elapsed >= 0 ==> EstChars(b, elapsed) >= 0.0 by {
        if ValidBot(b) && elapsed >= 0 {
          EstCharsNonNegative(b, elapsed);
        }
      }
      b.(progress := progress, done := progress >= 1.0)
  }

  /** A bot's progress never falls as time passes, and once done it stays done. */
  lemma AdvanceMonotonic(b: Bot, e1: int, e2: int, targetLen: nat)
    requires targetLen > 0
    requires b.wpm >= 0 && b.variance >= 0.0
    requires e1 <= e2
    ensures Advance(b, e1, targetLen).progress <= Advance(b, e2, targetLen).progress
    ensures Advance(b, e1, targetLen).done ==> Advance(b, e2, targetLen).done
  {
    if !b.done {
      EstCharsMonotonic(b, e1, e2);
      var n := targetLen as real;
      assert EstChars(b, e1) / n <= EstChars(b, e2) / n;
    }
  }

  /**
   * Recomputing from the elapsed time does not drift: advancing a bot to
   * `e1` and then to a later `e2` gives what advancing it straight to `e2`
   * gives, however the ticks fall.
   */
  lemma AdvanceNoDrift(b: Bot, e1: int, e2: int, targetLen: nat)
    requires targetLen > 0
    requires b.wpm >= 0 && b.variance >= 0.0
    requires e1 <= e2
    ensures Advance(Advance(b, e1, targetLen), e2, targetLen) == Advance(b, e2, targetLen)
  {
    AdvanceMonotonic(b, e1, e2, targetLen);
    var b1 := Advance(b, e1, targetLen);
    if !b.done && b1.done {
      assert Advance(b, e2, targetLen).progress == 1.0;
    }
  }

  /**
   * A bot whose progress was last computed at `sampled` ms never loses
   * progress when it is recomputed at a later time.
   */
  lemma AdvanceFromSample(b: Bot, sampled: int, elapsed: int, targetLen: nat)
    requires targetLen > 0 && ValidBot(b)
    requires sampled <= elapsed
    requires !b.done ==> b.progress * targetLen as real == EstChars(b, sampled)
    ensures b.progress <= Advance(b, elapsed, targetLen).progress
  {
    if !b.done {
      EstCharsMonotonic(b, sampled, elapsed);
      var n := targetLen as real;
      assert b.progress == EstChars(b, sampled) / n;
      assert EstChars(b, sampled) / n <= EstChars(b, elapsed) / n;
    }
  }

  /** A bot with a positive speed profile is done once enough time has passed. */
  lemma BotEventuallyDone(b: Bot, elapsed: int, targetLen: nat)
    requires targetLen > 0
    requires ValidBot(b) && b.wpm > 0 && b.variance > 0.0
    requires elapsed as real * 5.0 * b.wpm as real * b.variance >= 60000.0 * targetLen as real
    ensures Advance(b, elapsed, targetLen).done
  {
    if !b.done {
      var lhs := elapsed as real * 5.0 * b.wpm as real * b.variance;
      assert EstChars(b, elapsed) == lhs / 60000.0;
      assert lhs / 60000.0 >= targetLen as real;
    }
  }

  /** `botsRef.current.map(...)`: one tick for every bot. */
  function AdvanceAll(bots: seq<Bot>, elapsed: int, targetLen: nat): (bots': seq<Bot>)
    requires targetLen > 0
    ensures |bots'| == |bots|
    ensures forall i :: 0 <= i < |bots| ==> bots'[i] == Advance(bots[i], elapsed, targetLen)
    ensures forall i :: 0 <= i < |bots| ==> bots'[i].racer == bots[i].racer
    ensures forall i :: 0 <= i < |bots| && bots[i].done ==> bots'[i] == bots[i]
  {
    seq(|bots|, i requires 0 <= i < |bots| => Advance(bots[i], elapsed, targetLen))
  }

  /** `botsRef.current.every(b => b.done)`; true when there are no bots. */
  predicate AllDone(bots: seq<Bot>) {
    forall i :: 0 <= i < |bots| ==> bots[i].done
  }

  /**
   * The end condition: every bot done and the player has typed at least
   * the passage's length.
   */
  predicate RaceOverCondition(bots: seq<Bot>, typed: nat, targetLen: nat) {
    AllDone(bots) && typed >= targetLen
  }

  /** The race waits for every bot: a finished player with one bot still racing does not end it. */
  lemma PlayerAloneDoesNotEnd(bots: seq<Bot>, typed: nat, targetLen: nat, k: nat)
    requires k < |bots| && !bots[k].done
    ensures !RaceOverCondition(bots, typed, targetLen)
  {
  }

  /** A 60 WPM bot with variance 1 is a quarter through a 100-character passage after 5 s. */
  lemma ScenarioQuarter(r: Racer)
    ensures Advance(Bot(r, 0.0, 60, 1.0, false), 5000, 100).progress == 0.25
    ensures !Advance(Bot(r, 0.0, 60, 1.0, false), 5000, 100).done
  {
    assert EstChars(Bot(r, 0.0, 60, 1.0, false), 5000) == 25.0;
  }
}
