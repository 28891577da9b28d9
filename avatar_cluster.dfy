/**
 * The row of avatars shown for a room's users (src/components/AvatarCluster.jsx):
 * at most `max` of them, then a "+n" badge for the ones left over.
 */
module AvatarCluster {

  /** The default number of avatars shown. */
  const DefaultMax: nat := 6

  /** `emojis.slice(0, max)`: the first `max` avatars, or all of them if there are fewer. */
  function Shown(emojis: seq<string>, max: nat): (shown: seq<string>)
    ensures |shown| == if max < |emojis| then max else |emojis|
    ensures shown <= emojis
  {
    if max < |emojis| then emojis[..max] else emojis
  }

  /** `extra = emojis.length - shown.length`: how many avatars are not shown. */
  function Extra(emojis: seq<string>, max: nat): (extra: int)
    ensures extra >= 0
    ensures |Shown(emojis, max)| + extra == |emojis|
    ensures extra > 0 <==> |emojis| > max
  {
    |emojis| - |Shown(emojis, max)|
  }

  /** `extra > 0`: whether the "+extra" badge is drawn. */
  predicate ShowsBadge(emojis: seq<string>, max: nat) {
    Extra(emojis, max) > 0
  }

  /** The shown avatars followed by the hidden ones are all the avatars, in order. */
  lemma ShownThenHidden(emojis: seq<string>, max: nat)
    ensures Shown(emojis, max) + emojis[|Shown(emojis, max)|..] == emojis
    ensures |emojis[|Shown(emojis, max)|..]| == Extra(emojis, max)
    ensures ShowsBadge(emojis, max) <==> emojis[|Shown(emojis, max)|..] != []
  {
  }

  /** With the defaults (no avatars, at most 6) nothing is shown and there is no badge. */
  lemma DefaultsShowNothing()
    ensures Shown([], DefaultMax) == [] && Extra([], DefaultMax) == 0
    ensures !ShowsBadge([], DefaultMax)
  {
  }

  const SmallClasses: string := "h-7 w-7 text-base"
  const LargeClasses: string := "h-12 w-12 text-2xl"
  const MediumClasses: string := "h-9 w-9 text-lg"

  /** `sizeClasses`: `sm` and `lg` have their own classes, every other size gets `md`'s. */
  function SizeClasses(size: string): (cls: string)
    ensures size == "sm" ==> cls == SmallClasses
    ensures size == "lg" ==> cls == LargeClasses
    ensures size != "sm" && size != "lg" ==> cls == MediumClasses
  {
    if size == "sm" then SmallClasses else if size == "lg" then LargeClasses else MediumClasses
  }

  /** The three size class sets are different. */
  lemma SizeClassesDistinct()
    ensures SizeClasses("sm") != SizeClasses("lg")
    ensures SizeClasses("sm") != SizeClasses("md")
    ensures SizeClasses("lg") != SizeClasses("md")
  {
    assert |SmallClasses| == 17 && |LargeClasses| == 18 && |MediumClasses| == 15;
  }
}
