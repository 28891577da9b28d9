# Typing race: a Dafny model of the race room

This project models the logic of a casual typing-race web app. A player
joins a room, watches a 3-2-1 countdown, then types a fixed passage while
simulated opponents ("bots") advance at randomly drawn speeds. The model
covers three source files:

- `src/components/RaceRoom.jsx`. This is the engine. It holds the metrics
  (words per minute, accuracy, progress), the difficulty lookups, the
  roster, the bot speed profiles and per-tick progress, and the
  state machine: countdown, race start, the `finished` flag, the
  race-over latch and the room reset.
- `src/components/RoomList.jsx`. The badge colour for each difficulty and
  the difficulty filter over the room list.
- `src/components/AvatarCluster.jsx`. The avatars shown for a room, the
  "+n" overflow count and the size classes.

Layout, one module per concern:

| file | module | what |
|---|---|---|
| `js.dfy` | `Js` | `undefined` as `Option`, `Math.round`, `Math.min`, the decimal text of a number |
| `metrics.dfy` | `Metrics` | `wordsPerMinute`, the accuracy loop, the character states, `youProgress`, `youWpm` |
| `difficulty.dfy` | `Difficulty` | the three passages, the speed ranges, both fallbacks |
| `bots.dfy` | `Bots` | the roster, bot initialisation, one tick per bot, the end condition |
| `race_room.dfy` | `RaceRoom` | the countdown updater and the `Race` class (React state and refs as fields) |
| `room_list.dfy` | `RoomList` | `difficultyColor` and the `filtered` list |
| `avatar_cluster.dfy` | `AvatarCluster` | `shown`, `extra` and `sizeClasses` |

Arithmetic is exact. JavaScript numbers are Dafny `int` or `real`.
`Math.round(x)` is `(x + 0.5).Floor`, so halves round up as in JavaScript.
`Math.random()` values are parameters: a `Draw` holds the two values drawn
for one bot, each in [0, 1). `Date.now()` is a `now` parameter of the
methods that read the clock.

The pure parts of the engine are functions with lemmas. The React state
and refs are the fields of the class `RaceRoom.Race`. Each of its methods
is one event together with the effects that event triggers:

- `CountdownStep` is one firing of the countdown timer. On the step from 1
  to 0 it also runs the bot effect.
- `Type` is one edit of the input field.
- `Tick` is one firing of the 120 ms interval.
- `Reset` is the effect for a room with a new id, before the race has started.

`Race.Valid()` is the invariant that every event method (`CountdownStep`, `Type`, `Tick`, `Reset`) keeps, and the constructor establishes. It says:

- the countdown is in [0, 3] and is 0 exactly when the race has started;
- `finished` holds exactly when the race has started and the player has
  typed the passage's length;
- `raceOver` implies `finished` and that every bot is done;
- every bot has progress in [0, 1] and is done exactly at progress 1;
- once started, the bots are the room's opponents, in order, and every bot
  still racing has exactly the progress it had at the last tick.

Notes on what the code does, which the model follows:

- The code draws bot speed profiles again whenever the length of the
  player's input changes. `input.length` is a dependency of the bot effect
  (RaceRoom.jsx:108), so every such edit restarts every bot at progress 0
  with its clock reset to that moment. `Race.Type` models this. Profiles
  are not drawn only once per race.
- The same edits also restart the clock the elapsed time is measured
  from: the tick sets `elapsed` to `now - startedAt` (RaceRoom.jsx:85) and
  the bot effect resets `startedAt` (RaceRoom.jsx:81). So the player's WPM
  (RaceRoom.jsx:126) and the seconds labels (RaceRoom.jsx:151, :200) count
  from the last edit that changed the input's length, not from the race's
  start. `Race.Type` and `Race.Tick` model this.
- The code has no guard for an empty passage. Every passage is one of
  three non-empty constants, so the divisions by `target.length` are
  safe. The model requires a positive passage length and proves that
  `TextFor` always gives one.
- `wordsPerMinute` guards only `ms == 0` (`!ms`). A negative duration
  still gives 0, because the result is clamped with `Math.max(0, …)`.
  `Metrics.WordsPerMinute` proves this.
- The displayed `finished` flag does not wait for the bots. The
  tick-stopping race-over latch does. Both are modelled as written.

## Model

| member | source | states |
|---|---|---|
| `Js.Round` | src/components/RaceRoom.jsx:15 | `Math.round` gives the integer within half a unit of its argument; ties go up |
| `Js.MinReal` | src/components/RaceRoom.jsx:92 | `Math.min` gives one of its arguments, and it is no larger than either |
| `Js.NatToString` | src/components/RaceRoom.jsx:33 | `String(i)` of an index is a non-empty string of decimal digits |
| `Js.NatToStringInjective` | src/components/RaceRoom.jsx:33 | different bot indices give different decimal texts, so `'bot-'+i` ids never collide |
| `Metrics.WordsPerMinute` | src/components/RaceRoom.jsx:12-16 | 0 for a zero or negative duration; otherwise the non-negative integer nearest to `chars * 12000 / ms` |
| `Metrics.RawRateValue` | src/components/RaceRoom.jsx:14-15 | `(chars/5)/(ms/60000)` equals `chars*12000/ms` and is never positive for negative `ms` |
| `Metrics.WordsPerMinuteMonotonic` | src/components/RaceRoom.jsx:12-16 | typing more characters in the same time never gives a lower rate |
| `Metrics.CorrectCount` | src/components/RaceRoom.jsx:118-121 | the count of matching positions never exceeds the number of typed characters |
| `Metrics.AccuracyOf` | src/components/RaceRoom.jsx:117-123 | accuracy is 100 for empty input and always in [0, 100] |
| `Metrics.Accuracy` | src/components/RaceRoom.jsx:117-123 | the counting loop gives exactly the accuracy `AccuracyOf` specifies, in [0, 100] |
| `Metrics.CorrectCountPastTarget` | src/components/RaceRoom.jsx:119-121 | characters typed past the passage's end never count as correct, so the count is at most the passage length |
| `Metrics.AllCorrectIffPrefix` | src/components/RaceRoom.jsx:117-121 | every typed character is correct if and only if the input is a prefix of the passage |
| `Metrics.PrefixIsFullyAccurate` | src/components/RaceRoom.jsx:117-123 | input that matches the passage so far has accuracy exactly 100 |
| `Metrics.Classify` | src/components/RaceRoom.jsx:159-162 | a passage character is pending iff not yet typed, correct iff typed and equal, wrong iff typed and different |
| `Metrics.Render` | src/components/RaceRoom.jsx:159-164 | one state per passage character, each the classification of that position |
| `Metrics.RenderedCorrectEqualsCount` | src/components/RaceRoom.jsx:159-163 | the number of characters drawn as correct equals the accuracy loop's `correct` count |
| `Metrics.Progress` | src/components/RaceRoom.jsx:125 | player progress is in [0, 1], equals 1 iff the input is at least the passage's length, and is the typed share otherwise |
| `Metrics.ProgressMonotonic` | src/components/RaceRoom.jsx:125 | typing more never lowers the player's progress |
| `Metrics.PlayerWpm` | src/components/RaceRoom.jsx:126 | 0 before the start or without a truthy start time; otherwise the rate over the recorded elapsed time, or over the time since the start while that is 0 |
| `Metrics.ScenarioCat` | src/components/RaceRoom.jsx:12-16 | "cat" typed exactly in 6000 ms gives progress 1, accuracy 100 and 6 WPM |
| `Difficulty.TextFor` | src/components/RaceRoom.jsx:29 | the Easy and Hard labels select their passages; every other label, and no label, selects the Medium passage, which is non-empty |
| `Difficulty.EffectiveLabel` | src/components/RaceRoom.jsx:65 | a missing or empty difficulty reads as Medium; any other label is kept |
| `Difficulty.RangeFor` | src/components/RaceRoom.jsx:65-71 | Easy [30,45], Medium [45,70] (also for a missing or empty label), Hard [65,100], any other label [40,60] |
| `Difficulty.UnknownLabelFallbacks` | src/components/RaceRoom.jsx:65-71 | an unknown label gets the Medium passage but not Medium's speed range |
| `Difficulty.PassageLengths` | src/components/RaceRoom.jsx:4-8 | the passages are 113, 111 and 117 characters long and pairwise different |
| `Bots.BotEntry` | src/components/RaceRoom.jsx:33 | the i-th user's entry has id `bot-i`, that user's emoji and the name `Racer i+1` |
| `Bots.Competitors` | src/components/RaceRoom.jsx:32-35 | the roster is YOU followed by one entry per room user, in order; missing users give YOU alone |
| `Bots.CompetitorIdsDistinct` | src/components/RaceRoom.jsx:33-34 | no two roster entries share an id |
| `Bots.Opponents` | src/components/RaceRoom.jsx:73 | an entry is an opponent exactly when it is in the roster and its id is not `you`; there are never more opponents than entries |
| `Bots.OpponentsIsFilter` | src/components/RaceRoom.jsx:73 | the filter keeps every entry whose id is not `you` as often as it occurs, drops every `you` entry, and keeps the roster's order |
| `Bots.OpponentsOfCompetitors` | src/components/RaceRoom.jsx:73 | a roster's opponents are all its bot entries, in order, one per user |
| `Bots.InitBot` | src/components/RaceRoom.jsx:73-79 | a new bot keeps its entry, starts at progress 0 and not done, has an integer speed in [min, max] and a variance in [0.8, 1.2) |
| `Bots.InitBots` | src/components/RaceRoom.jsx:73-79 | one new bot per opponent, in roster order, each with the properties of `InitBot` |
| `Bots.EstCharsMonotonic` | src/components/RaceRoom.jsx:90-91 | a bot's estimated characters never fall as time passes |
| `Bots.EstCharsAtZero` | src/components/RaceRoom.jsx:90-91 | at zero elapsed time a bot has typed nothing |
| `Bots.EstCharsNonNegative` | src/components/RaceRoom.jsx:90-91 | estimated characters are never negative for non-negative elapsed time |
| `Bots.Advance` | src/components/RaceRoom.jsx:88-94 | a done bot is unchanged; any other keeps its entry and profile, gets progress at most 1 and is done iff its estimated characters reach the passage length; valid bots stay valid for a non-negative elapsed time |
| `Bots.AdvanceMonotonic` | src/components/RaceRoom.jsx:88-94 | a later elapsed time never gives less progress, and done at an earlier time means done at a later one |
| `Bots.AdvanceNoDrift` | src/components/RaceRoom.jsx:88-94 | advancing to one time and then to a later one equals advancing straight to the later one |
| `Bots.AdvanceFromSample` | src/components/RaceRoom.jsx:88-94 | recomputing a bot at a time no earlier than its last computation never lowers its progress |
| `Bots.BotEventuallyDone` | src/components/RaceRoom.jsx:90-93 | a bot with a positive profile is done once `elapsed*5*wpm*variance` reaches `60000*passage length` |
| `Bots.AdvanceAll` | src/components/RaceRoom.jsx:88 | the tick keeps the list's length and order, advances each bot, and leaves done bots unchanged |
| `Bots.PlayerAloneDoesNotEnd` | src/components/RaceRoom.jsx:96-99 | with any bot not done the end condition is false, whatever the player typed |
| `Bots.ScenarioQuarter` | src/components/RaceRoom.jsx:90-93 | a 60 WPM bot with variance 1 is at progress 0.25 and not done after 5000 ms on a 100-character passage |
| `RaceRoom.NextCountdown` | src/components/RaceRoom.jsx:47-55 | the updater lowers a countdown above 1 by one and sends 1 or less to 0 |
| `RaceRoom.CountdownAfterValue` | src/components/RaceRoom.jsx:47-55 | k steps from c leave max(0, c - k): the countdown never goes below 0 |
| `RaceRoom.CountdownFromThree` | src/components/RaceRoom.jsx:46-56 | from 3 the countdown shows 2, 1, then 0, and stays at 0 |
| `RaceRoom.InitBotsSampledAtZero` | src/components/RaceRoom.jsx:73-81 | new bots at progress 0 have exactly the progress any bot has at time 0 |
| `RaceRoom.AdvanceAllSampled` | src/components/RaceRoom.jsx:88-94 | after a tick every valid bot is still valid, and every bot still racing has exactly its progress at that tick's time |
| `RaceRoom.AdvanceAllNeverRegresses` | src/components/RaceRoom.jsx:88-94 | a tick at a time no earlier than the last one lowers no bot's progress |
| `RaceRoom.Race.YouProgress` | src/components/RaceRoom.jsx:125 | the player's progress is in [0, 1] and is 1 exactly when the input reaches the passage's length |
| `RaceRoom.Race.FinishedIsPlayerProgress` | src/components/RaceRoom.jsx:110-115 | `finished` holds exactly when the race has started and the player's progress is 1, whatever the bots |
| `RaceRoom.Race.constructor` | src/components/RaceRoom.jsx:19-35 | a new room has the passage of its difficulty and its roster, and starts at countdown 3, not started, not finished, nothing typed, no start time, elapsed 0, no bots, not over |
| `RaceRoom.Race.Reset` | src/components/RaceRoom.jsx:37-44 | a room with a new id, shown before the race has started, brings its own passage and roster and restores countdown 3, not started, not finished, empty input, no start time, elapsed 0 and clears race-over; the bots are untouched |
| `RaceRoom.Race.SetRoom` | src/components/RaceRoom.jsx:29-35 | a room's passage is the one its difficulty selects, never empty, and its roster is the player followed by its users |
| `RaceRoom.Race.StartBots` | src/components/RaceRoom.jsx:73-81 | the bot effect gives every opponent a new profile at progress 0 and restarts the tick clock at `now` |
| `RaceRoom.Race.CountdownStep` | src/components/RaceRoom.jsx:46-56 | the countdown steps as the updater says; the race starts, with start time `now` and new bots, exactly on the step from 1; once started nothing changes |
| `RaceRoom.Race.Type` | src/components/RaceRoom.jsx:108-115 | an edit is accepted only while racing and not finished (the input field exists only once started, RaceRoom.jsx:148, is disabled once finished, :170, and its `onChange` replaces the input, :173); a change of length redraws the bots and restarts their clock; reaching the passage's length sets `finished` |
| `RaceRoom.Race.Tick` | src/components/RaceRoom.jsx:83-103 | without a live interval nothing changes; otherwise it records the elapsed time, advances the bots, keeps done bots as they were, lowers no progress, and latches race-over exactly when all bots are done and the player has typed the passage's length |
| `RaceRoom.Race.AdvanceBots` | src/components/RaceRoom.jsx:88-94 | the bots become the previous ones advanced to the tick's time; they stay valid, stay the room's opponents, keep matching that time, and lose no progress when the time has not gone back |
| `RoomList.HueClasses` | src/components/RoomList.jsx:8-14 | the badge classes name their hue at a fixed place, and their length depends only on the hue's length |
| `RoomList.HueClassesInjective` | src/components/RoomList.jsx:8-14 | different hues give different badge classes |
| `RoomList.DifficultyColor` | src/components/RoomList.jsx:5-16 | Easy is emerald, Medium amber, Hard rose, and any other or missing label slate |
| `RoomList.DifficultyColorsDistinct` | src/components/RoomList.jsx:5-16 | the three difficulty badges differ from one another and from the default |
| `RoomList.KeepDifficulty` | src/components/RoomList.jsx:23 | every kept room has the chosen difficulty, each matching room is kept as often as it occurs, and the order is kept |
| `RoomList.Filtered` | src/components/RoomList.jsx:21-24 | `'All'` returns the list unchanged; any other choice returns exactly the matching rooms, in their original order |
| `RoomList.KeepAllMatching` | src/components/RoomList.jsx:23 | a list whose rooms all match is kept whole |
| `RoomList.FilterIdempotent` | src/components/RoomList.jsx:21-24 | filtering a filtered list again with the same choice gives the same list |
| `RoomList.FilterNoMatch` | src/components/RoomList.jsx:23 | a difficulty no room carries gives the empty list |
| `AvatarCluster.Shown` | src/components/AvatarCluster.jsx:2 | the shown avatars are the first min(max, count) avatars, in order |
| `AvatarCluster.Extra` | src/components/AvatarCluster.jsx:3 | the overflow is never negative, adds up with the shown count to all avatars, and is positive iff there are more than `max` |
| `AvatarCluster.ShownThenHidden` | src/components/AvatarCluster.jsx:12-14 | shown avatars plus the hidden ones are all the avatars; the badge is drawn iff some are hidden |
| `AvatarCluster.DefaultsShowNothing` | src/components/AvatarCluster.jsx:1 | the defaults (no avatars, max 6) show nothing and no badge |
| `AvatarCluster.SizeClasses` | src/components/AvatarCluster.jsx:4 | `sm` and `lg` get their own classes; every other size gets `md`'s |
| `AvatarCluster.SizeClassesDistinct` | src/components/AvatarCluster.jsx:4 | the three size class sets are different |

Helpers that transcribe one source expression and carry no contract of their own: `Bots.EstChars` is `estChars` (RaceRoom.jsx:90-91), `Bots.AllDone` and `Bots.RaceOverCondition` are `allBotsDone && youDone` (RaceRoom.jsx:97-99), `Bots.UsersOf` is `room?.users || []` (RaceRoom.jsx:33), and `AvatarCluster.ShowsBadge` is the `extra > 0` test (AvatarCluster.jsx:12). Their properties are stated by the lemmas in the table.

## Left out

- React scheduling is not modelled: `useEffect`, `useMemo`, `useRef`, `setInterval` and `clearInterval`. An interval that is "live" is modelled as a method that acts. A cleared interval is modelled as a method that changes nothing.
- `Date.now()` is a `now` parameter. The countdown updater and the bot effect each read the clock, a moment apart. The model uses one `now` for both.
- `Math.random()` values are parameters, two per bot, each in [0, 1).
- Floating point is not modelled: IEEE-754 rounding, `NaN` (which `!ms` would also catch) and infinities. All arithmetic is exact.
- `RaceRoom.Race.Tick` requires that `now` is not before the bots' start. Its promise that no progress falls holds only when the clock has not gone back since the last tick.
- Object lookups with a label that names an inherited `Object.prototype` member (such as `"toString"`) are not modelled. These labels are treated as unknown. No room in the app carries one.
- `RaceRoom.Race.Reset` requires that the race has not started: a room change during a race is not modelled. In the code, that commit also re-runs the bot effect, which reads the stale `started` and rebuilds the bots from the new roster at progress 0 with a new tick interval; on the next commit `started` is false, so that effect's cleanup (RaceRoom.jsx:105-107) clears the new interval before it first fires. The `finished` effect runs too, because the passage's length changed, and can set `finished` again when the typed text reaches the new passage's length, so the next race would open already finished. `src/App.jsx` unmounts the race room on exit and never swaps its room during a race.
- A room object that changes while keeping its id is not modelled. The passage and roster would be recomputed without a reset. The model changes the room only through `Reset`.
- A missing `room` (`null`) is not modelled. The render reads `room.name` unguarded, and the app never passes `null`.
- The markup is not modelled: Tailwind class strings other than the three small mappings, the percentage and seconds labels, icons, `onExit`, and the reload button (`window.location.reload`).
- React StrictMode's double call of state updaters is not modelled.
- A negative `max` in `AvatarCluster` is not modelled. JavaScript `slice` counts it from the end; `max` is a `nat` here.
- Strings are sequences of characters, not UTF-16 code units.
- `src/App.jsx` (constant sample rooms and the view switch) and `src/components/Hero.jsx` (a 3D viewer wrapper) are not part of this model.
