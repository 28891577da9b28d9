/**
 * The race room's state machine (src/components/RaceRoom.jsx): a 3-2-1
 * countdown, then racing, during which a periodic tick recomputes the
 * bots from the time since they were started and latches the end of the
 * race, and the player's typing sets the displayed `finished` flag.
 *
 * React state, refs and effect closures become the fields of `Race`; each
 * method is one event together with the effects it triggers. Timers and
 * `Date.now()` are outside the model: the caller invokes `CountdownStep`
 * or `Tick` when a timer fires and passes the current time as `now`.
 */
module RaceRoom {
  import opened Js
  import opened Difficulty
  import opened Bots
  import opened Metrics
  import opened RoomList

  /** The countdown at the start of a race. */
  const CountdownStart: int := 3

  /** The countdown updater `c => c <= 1 ? 0 : c - 1`. */
  function NextCountdown(c: int): (next: nat)
    ensures c >= 1 ==> next == c - 1
    ensures c <= 1 ==> next == 0
  {
    if c <= 1 then 0 else c - 1
  }

  /** The countdown after `k` steps from `c`. */
  function CountdownAfter(c: int, k: nat): int
    decreases k
  {
    if k == 0 then c else NextCountdown(CountdownAfter(c, k - 1))
  }

  /** From `c >= 0`, `k` steps leave `max(0, c - k)`: the countdown never goes below 0. */
  lemma {:induction false} CountdownAfterValue(c: nat, k: nat)
    ensures CountdownAfter(c, k) == if k <= c then c - k else 0
    decreases k
  {
    if k > 0 {
      CountdownAfterValue(c, k - 1);
    }
  }

  /** From 3 the countdown shows 3, 2, 1 and reaches 0 on the third step. */
  lemma CountdownFromThree()
    ensures CountdownAfter(CountdownStart, 1) == 2
    ensures CountdownAfter(CountdownStart, 2) == 1
    ensures CountdownAfter(CountdownStart, 3) == 0
    ensures forall k: nat :: k >= 3 ==> CountdownAfter(CountdownStart, k) == 0
  {
    forall k: nat | k >= 3
      ensures CountdownAfter(CountdownStart, k) == 0
    {
      CountdownAfterValue(CountdownStart, k);
    }
  }

  /** The bots handed to a race: every entry valid and done exactly when at full progress. */
  predicate BotsValid(bots: seq<Bot>) {
    forall i :: 0 <= i < |bots| ==> ValidBot(bots[i])
  }

  /** The bots are those of `racers`, one each, in order. */
  predicate RacersAre(bots: seq<Bot>, racers: seq<Racer>) {
    |bots| == |racers| && forall i :: 0 <= i < |bots| ==> bots[i].racer == racers[i]
  }

  /** Every bot still racing has the progress it had after `sampled` ms. */
  predicate SampledAt(bots: seq<Bot>, sampled: int, targetLen: nat) {
    forall i :: 0 <= i < |bots| && !bots[i].done ==>
      bots[i].progress * targetLen as real == EstChars(bots[i], sampled)
  }

  /** Freshly made bots are at 0 progress, which is where every bot is at time 0. */
  lemma InitBotsSampledAtZero(bots: seq<Bot>, targetLen: nat)
    requires forall i :: 0 <= i < |bots| ==> bots[i].progress == 0.0
    ensures SampledAt(bots, 0, targetLen)
  {
    forall i | 0 <= i < |bots|
      ensures EstChars(bots[i], 0) == 0.0
    {
      EstCharsAtZero(bots[i]);
    }
  }

  /** After a tick at `t`, every valid bot still racing has the progress it has at `t`. */
  lemma AdvanceAllSampled(bots: seq<Bot>, t: int, targetLen: nat)
    requires targetLen > 0 && t >= 0
    requires BotsValid(bots)
    ensures BotsValid(AdvanceAll(bots, t, targetLen))
    ensures SampledAt(AdvanceAll(bots, t, targetLen), t, targetLen)
    ensures forall racers :: RacersAre(bots, racers) ==> RacersAre(AdvanceAll(bots, t, targetLen), racers)
  {
    var next := AdvanceAll(bots, t, targetLen);
    forall i | 0 <= i < |next| && !next[i].done
      ensures next[i].progress * targetLen as real == EstChars(next[i], t)
    {
      assert !bots[i].done;
      assert EstChars(next[i], t) == EstChars(bots[i], t);
    }
  }

  /** Recomputing the bots at a time no earlier than their last sample never lowers any progress. */
  lemma AdvanceAllNeverRegresses(bots: seq<Bot>, sampled: int, t: int, targetLen: nat)
    requires targetLen > 0 && sampled <= t
    requires BotsValid(bots) && SampledAt(bots, sampled, targetLen)
    ensures forall i :: 0 <= i < |bots| ==> bots[i].progress <= AdvanceAll(bots, t, targetLen)[i].progress
  {
    forall i | 0 <= i < |bots|
      ensures bots[i].progress <= AdvanceAll(bots, t, targetLen)[i].progress
    {
      AdvanceFromSample(bots[i], sampled, t, targetLen);
    }
  }

  /** The race draws of one start: one valid pair per opponent of the roster. */
  predicate DrawsFor(roster: seq<Racer>, draws: seq<Draw>) {
    |draws| == |Opponents(roster)| && forall i :: 0 <= i < |draws| ==> ValidDraw(draws[i])
  }

  class Race {
    /** The room being raced (`room`). */
    var room: Room
    /** `target`: the passage for the room's difficulty, computed when the room is set. */
    var target: string
    /** `competitors`: the player and one bot entry per room user, computed when the room is set. */
    var competitors: seq<Racer>
    /** `countdown`: 3, 2, 1, then 0 once the race has started. */
    var countdown: int
    /** `started`: the countdown is over. */
    var started: bool
    /** `finished`: the player has typed the passage's length. */
    var finished: bool
    /** `input`: the player's text. */
    var input: string
    /** `startTime`: when the countdown ended, `None` before. */
    var startTime: Option<int>
    /** `elapsed`: ms since the bots were started, as of the last tick. */
    var elapsed: int
    /** `botsRef.current`. */
    var bots: seq<Bot>
    /** `raceOverRef.current`: the end condition has fired. */
    var raceOver: bool
    /** `startedAt`: when the bots of the running tick interval were made. */
    var startedAt: int
    /** The time since `startedAt` at which bot progress was last computed. */
    ghost var sampledAt: int

    ghost predicate Valid()
      reads this
    {
      && |target| > 0
      && 0 <= countdown <= CountdownStart
      && (started <==> countdown == 0)
      && (started <==> startTime.Some?)
      && (!started ==> input == [] && !raceOver)
      && (finished <==> started && |input| >= |target|)
      && (raceOver ==> finished && AllDone(bots))
      && BotsValid(bots)
      && (started ==>
            && RacersAre(bots, Opponents(competitors))
            && sampledAt >= 0
            && SampledAt(bots, sampledAt, |target|))
    }

    /** `youProgress`: the player's share of the passage. */
    function YouProgress(): (p: real)
      reads this
      requires |target| > 0
      ensures 0.0 <= p <= 1.0
      ensures p == 1.0 <==> |input| >= |target|
    {
      Progress(|input|, |target|)
    }

    /**
     * The displayed `finished` flag is the player's progress alone: it is
     * set once the player has typed the passage's length, whatever the bots.
     */
    lemma FinishedIsPlayerProgress()
      requires Valid()
      ensures finished <==> started && YouProgress() == 1.0
    {
    }

    /** A new race room: countdown 3, nothing typed, no bots yet. */
    constructor (r: Room)
      ensures Valid()
      ensures room == r && target == TextFor(r.difficulty) && competitors == Competitors(r.users)
      ensures countdown == CountdownStart && !started && !finished
      ensures input == [] && startTime == None && elapsed == 0 && !raceOver && bots == []
    {
      room := r;
      target := TextFor(r.difficulty);
      competitors := Competitors(r.users);
      countdown := CountdownStart;
      started := false;
      finished := false;
      input := [];
      startTime := None;
      elapsed := 0;
      bots := [];
      raceOver := false;
      startedAt := 0;
      sampledAt := 0;
    }

    /**
     * The effect that runs when a room with a new id is shown before its
     * race has started: every displayed field back to its initial value and
     * the race-over latch cleared. The bot and `finished` effects return at
     * once while the race is not started, so the bots and the tick
     * interval's start are left as they are.
     */
    method Reset(r: Room)
      requires BotsValid(bots)
      requires !started && r.id != room.id
      modifies this
      ensures Valid()
      ensures room == r && target == TextFor(r.difficulty) && competitors == Competitors(r.users)
      ensures countdown == CountdownStart && !started && !finished
      ensures input == [] && startTime == None && elapsed == 0 && !raceOver
      ensures bots == old(bots) && startedAt == old(startedAt)
    {
      SetRoom(r);
      countdown, started, finished, input := CountdownStart, false, false, [];
      startTime, elapsed, raceOver := None, 0, false;
    }

    /** The values derived from the room: the room itself, its passage and its roster. */
    method SetRoom(r: Room)
      modifies this`room, this`target, this`competitors
      ensures room == r && target == TextFor(r.difficulty) && competitors == Competitors(r.users)
      ensures |target| > 0
    {
      room, target, competitors := r, TextFor(r.difficulty), Competitors(r.users);
    }

    /**
     * The bot effect: speed profiles drawn for every opponent, all at
     * progress 0, and the tick interval's clock restarted at `now`.
     */
    method StartBots(now: int, draws: seq<Draw>)
      requires DrawsFor(competitors, draws)
      modifies this`bots, this`startedAt, this`sampledAt
      ensures bots == InitBots(competitors, RangeFor(room.difficulty), draws)
      ensures startedAt == now && sampledAt == 0
      ensures RacersAre(bots, Opponents(competitors))
      ensures BotsValid(bots) && SampledAt(bots, 0, |target|)
    {
      bots := InitBots(competitors, RangeFor(room.difficulty), draws);
      startedAt := now;
      sampledAt := 0;
      InitBotsSampledAtZero(bots, |target|);
    }

    /**
     * One firing of the 1-second countdown timer. While counting it steps
     * the countdown; the step from 1 to 0 starts the race at `now` and,
     * through the bot effect, makes the bots. Once started there is no
     * countdown timer, so nothing changes.
     */
    method CountdownStep(now: int, draws: seq<Draw>)
      requires Valid()
      requires !started && countdown <= 1 ==> DrawsFor(competitors, draws)
      modifies this
      ensures Valid()
      ensures room == old(room) && target == old(target) && competitors == old(competitors)
      ensures input == old(input) && finished == old(finished)
      ensures old(started) ==> unchanged(this)
      ensures !old(started) ==> countdown == NextCountdown(old(countdown))
      ensures !old(started) ==> (started <==> old(countdown) <= 1)
      ensures !old(started) && started ==>
                startTime == Some(now) && startedAt == now &&
                bots == InitBots(competitors, RangeFor(room.difficulty), draws)
      ensures !started ==> startTime == old(startTime) && bots == old(bots) && startedAt == old(startedAt)
      ensures elapsed == old(elapsed) && raceOver == old(raceOver)
    {
      if started {
        return;
      }
      var c := countdown;
      countdown := NextCountdown(c);
      if c <= 1 {
        started := true;
        startTime := Some(now);
        StartBots(now, draws);
      }
    }

    /**
     * The player edits the text field to `s`. The field exists only once
     * the race has started and is disabled once the player has finished.
     * A change of length re-runs the bot effect (it lists `input.length`
     * among its dependencies): new profiles are drawn, every bot restarts
     * at 0 and the clock restarts at `now`. Reaching the passage's length
     * sets `finished`.
     */
    method Type(s: string, now: int, draws: seq<Draw>)
      requires Valid()
      requires started && !finished && |s| != |input| ==> DrawsFor(competitors, draws)
      modifies this
      ensures Valid()
      ensures room == old(room) && target == old(target) && competitors == old(competitors)
      ensures countdown == old(countdown) && started == old(started)
      ensures !old(started) || old(finished) ==> unchanged(this)
      ensures old(started) && !old(finished) ==> input == s && (finished <==> |s| >= |target|)
      ensures old(started) && !old(finished) && |s| != old(|input|) ==>
                bots == InitBots(competitors, RangeFor(room.difficulty), draws) && startedAt == now
      ensures |s| == old(|input|) ==> bots == old(bots) && startedAt == old(startedAt)
      ensures startTime == old(startTime) && elapsed == old(elapsed) && raceOver == old(raceOver)
    {
      if !started || finished {
        return;
      }
      var lengthChanged := |s| != |input|;
      input := s;
      if lengthChanged {
        StartBots(now, draws);
      }
      if |input| >= |target| {
        finished := true;
      }
    }

    /**
     * One firing of the 120 ms tick. The interval runs only while the race
     * is started and not over. It records the elapsed time, advances every
     * bot still racing and latches `raceOver` when every bot is done and
     * the player has typed the passage's length.
     */
    method Tick(now: int)
      requires Valid()
      requires now >= startedAt
      modifies this
      ensures Valid()
      ensures !old(started) || old(raceOver) ==> unchanged(this)
      ensures old(started) && !old(raceOver) ==>
                && elapsed == now - startedAt
                && bots == AdvanceAll(old(bots), now - startedAt, |target|)
                && raceOver == RaceOverCondition(bots, |input|, |target|)
      ensures old(started) && now - startedAt >= old(sampledAt) ==>
                forall i :: 0 <= i < |bots| ==> old(bots[i].progress) <= bots[i].progress
      ensures forall i :: 0 <= i < |bots| && old(bots[i].done) ==> bots[i] == old(bots[i])
      ensures |bots| == old(|bots|)
      ensures room == old(room) && target == old(target) && competitors == old(competitors)
      ensures countdown == old(countdown) && started == old(started)
      ensures finished == old(finished) && input == old(input) && startTime == old(startTime)
      ensures startedAt == old(startedAt)
    {
      if !started || raceOver {
        return;
      }
      var t := now - startedAt;
      elapsed := t;
      AdvanceBots(t);
      if AllDone(bots) && |input| >= |target| {
        raceOver := true;
      }
    }

    /** `botsRef.current = botsRef.current.map(...)`: every bot advanced to `t` ms. */
    method AdvanceBots(t: int)
      requires |target| > 0 && t >= 0
      requires BotsValid(bots)
      modifies this`bots, this`sampledAt
      ensures bots == AdvanceAll(old(bots), t, |target|) && sampledAt == t
      ensures BotsValid(bots) && SampledAt(bots, t, |target|)
      ensures RacersAre(old(bots), Opponents(competitors)) ==> RacersAre(bots, Opponents(competitors))
      ensures old(SampledAt(bots, sampledAt, |target|)) && old(sampledAt) <= t ==>
                forall i :: 0 <= i < |bots| ==> old(bots[i].progress) <= bots[i].progress
    {
      var next := AdvanceAll(bots, t, |target|);
      AdvanceAllSampled(bots, t, |target|);
      if sampledAt <= t && SampledAt(bots, sampledAt, |target|) {
        AdvanceAllNeverRegresses(bots, sampledAt, t, |target|);
      }
      bots, sampledAt := next, t;
    }
  }
}
