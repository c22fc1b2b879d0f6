/** The skill chips of a match card: `skills.slice(0, 4)` followed by a
    `+n more` chip when there are more than four. */
module SkillChips {
  import opened Text
  import opened Lists

  const MaxChips: nat := 4

  /** The chips shown, and the count on the `+n more` chip if there is one. */
  datatype Chips = Chips(shown: seq<String>, more: nat)

  function SkillChips(skills: seq<String>): (c: Chips)
    ensures |c.shown| <= MaxChips && |c.shown| <= |skills| && c.shown == skills[..|c.shown|]
    ensures |skills| <= MaxChips ==> c.shown == skills && c.more == 0
    ensures |skills| > MaxChips ==> |c.shown| == MaxChips && c.more == |skills| - MaxChips
    ensures c.shown + skills[|c.shown|..] == skills && |c.shown| + c.more == |skills|
  {
    Chips(Take(skills, MaxChips), if |skills| > MaxChips then |skills| - MaxChips else 0)
  }
}
