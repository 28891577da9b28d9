/**
 * The lobby's room list (src/components/RoomList.jsx): the badge colour a
 * difficulty is shown in, and the difficulty filter over the rooms.
 */
module RoomList {
  import opened Js

  /** A room as the lobby lists it and the race room receives it. */
  datatype Room = Room(id: string, name: string, difficulty: Option<string>, tags: seq<string>, users: Option<seq<string>>)

  /** The badge classes for one colour hue: background, text and border shades of it. */
  function HueClasses(hue: string): (cls: string)
    ensures |cls| == 35 + 3 * |hue|
    ensures cls[3..3 + |hue|] == hue
  {
    "bg-" + hue + "-500/15 text-" + hue + "-300 border-" + hue + "-500/30"
  }

  /** Different hues give different badge classes. */
  lemma HueClassesInjective(h1: string, h2: string)
    requires h1 != h2
    ensures HueClasses(h1) != HueClasses(h2)
  {
    if |h1| == |h2| {
      assert HueClasses(h1)[3..3 + |h1|] != HueClasses(h2)[3..3 + |h2|];
    } else {
      assert |HueClasses(h1)| != |HueClasses(h2)|;
    }
  }

  /** `difficultyColor(d)`: emerald, amber and rose for Easy, Medium and Hard, slate otherwise. */
  function DifficultyColor(d: Option<string>): (cls: string)
    ensures d == Some("Easy") ==> cls == HueClasses("emerald")
    ensures d == Some("Medium") ==> cls == HueClasses("amber")
    ensures d == Some("Hard") ==> cls == HueClasses("rose")
    ensures d !in {Some("Easy"), Some("Medium"), Some("Hard")} ==> cls == HueClasses("slate")
  {
    match d
    case Some("Easy") => HueClasses("emerald")
    case Some("Medium") => HueClasses("amber")
    case Some("Hard") => HueClasses("rose")
    case _ => HueClasses("slate")
  }

  /** The three difficulties get three different badges, none of them the default one. */
  lemma DifficultyColorsDistinct(other: Option<string>)
    requires other !in {Some("Easy"), Some("Medium"), Some("Hard")}
    ensures DifficultyColor(Some("Easy")) != DifficultyColor(Some("Medium"))
    ensures DifficultyColor(Some("Easy")) != DifficultyColor(Some("Hard"))
    ensures DifficultyColor(Some("Medium")) != DifficultyColor(Some("Hard"))
    ensures DifficultyColor(Some("Easy")) != DifficultyColor(other)
    ensures DifficultyColor(Some("Medium")) != DifficultyColor(other)
    ensures DifficultyColor(Some("Hard")) != DifficultyColor(other)
  {
    HueClassesInjective("emerald", "amber");
    HueClassesInjective("emerald", "rose");
    HueClassesInjective("amber", "rose");
    HueClassesInjective("emerald", "slate");
    HueClassesInjective("amber", "slate");
    HueClassesInjective("rose", "slate");
  }

  /** `rooms.filter((r) => r.difficulty === choice)`. */
  function KeepDifficulty(rooms: seq<Room>, choice: string): (kept: seq<Room>)
    ensures forall i :: 0 <= i < |kept| ==> kept[i].difficulty == Some(choice)
    ensures forall x :: multiset(kept)[x] == if x.difficulty == Some(choice) then multiset(rooms)[x] else 0
    ensures IsSubsequence(kept, rooms)
    decreases |rooms|
  {
    if rooms == [] then []
    else
      var rest := KeepDifficulty(rooms[1..], choice);
      assert rooms == [rooms[0]] + rooms[1..];
      if rooms[0].difficulty == Some(choice) then [rooms[0]] + rest else rest
  }

  /** The `filtered` list: every room for `'All'`, else the rooms of the chosen difficulty. */
  function Filtered(rooms: seq<Room>, choice: string): (shown: seq<Room>)
    ensures choice == "All" ==> shown == rooms
    ensures choice != "All" ==> forall i :: 0 <= i < |shown| ==> shown[i].difficulty == Some(choice)
    ensures choice != "All" ==>
              forall x :: multiset(shown)[x] == if x.difficulty == Some(choice) then multiset(rooms)[x] else 0
    ensures IsSubsequence(shown, rooms)
  {
    if choice == "All" then
      SubsequenceReflexive(rooms);
      rooms
    else KeepDifficulty(rooms, choice)
  }

  /** Rooms that all carry the chosen difficulty are kept as they are. */
  lemma {:induction false} KeepAllMatching(rooms: seq<Room>, choice: string)
    requires forall i :: 0 <= i < |rooms| ==> rooms[i].difficulty == Some(choice)
    ensures KeepDifficulty(rooms, choice) == rooms
    decreases |rooms|
  {
    if rooms != [] {
      KeepAllMatching(rooms[1..], choice);
    }
  }

  /** Filtering a filtered list again with the same choice changes nothing. */
  lemma FilterIdempotent(rooms: seq<Room>, choice: string)
    ensures Filtered(Filtered(rooms, choice), choice) == Filtered(rooms, choice)
  {
    if choice != "All" {
      KeepAllMatching(KeepDifficulty(rooms, choice), choice);
    }
  }

  /** A difficulty that no room carries gives an empty list. */
  lemma FilterNoMatch(rooms: seq<Room>, choice: string)
    requires choice != "All"
    requires forall i :: 0 <= i < |rooms| ==> rooms[i].difficulty != Some(choice)
    ensures Filtered(rooms, choice) == []
  {
  }
}
