/** The AI match results page: the cards best match first, coloured by a
    score tier. */
module MatchingsPage {
  import opened Text
  import opened StableSort
  import opened MatchCard

  function Percentage(c: Card): int { c.matchPercentage }

  /** `[...matches].sort((a, b) => b.matchPercentage - a.matchPercentage)`:
      a stable sort of a copy, highest percentage first. */
  function SortedMatches(matches: seq<Card>): (r: seq<Card>)
    ensures |r| == |matches|
    ensures multiset(r) == multiset(matches)
    ensures NonIncreasing(r, Percentage)
  {
    SortDescPermutation(matches, Percentage);
    SortDescSorted(matches, Percentage);
    SortDesc(matches, Percentage)
  }

  /** Cards with the same percentage keep their relative order. */
  lemma SortedMatchesStable(matches: seq<Card>, pct: int)
    ensures WithKey(SortedMatches(matches), Percentage, pct) == WithKey(matches, Percentage, pct)
  {
    SortDescStable(matches, Percentage, pct);
  }

  /** The four score bands. */
  datatype Tier = Gray | Yellow | Blue | Green

  function TierOf(percentage: int): (t: Tier)
    ensures t == Green <==> percentage >= 90
    ensures t == Blue <==> 80 <= percentage < 90
    ensures t == Yellow <==> 70 <= percentage < 80
    ensures t == Gray <==> percentage < 70
  {
    if percentage >= 90 then Green
    else if percentage >= 80 then Blue
    else if percentage >= 70 then Yellow
    else Gray
  }

  function Rank(t: Tier): nat {
    match t
    case Gray => 0
    case Yellow => 1
    case Blue => 2
    case Green => 3
  }

  /** `getMatchColor`. */
  function GetMatchColor(percentage: int): String {
    if percentage >= 90 then "text-green-400"
    else if percentage >= 80 then "text-blue-400"
    else if percentage >= 70 then "text-yellow-400"
    else "text-gray-400"
  }

  /** `getMatchBgColor`. */
  function GetMatchBgColor(percentage: int): String {
    if percentage >= 90 then "bg-green-400/10 border-green-400/30"
    else if percentage >= 80 then "bg-blue-400/10 border-blue-400/30"
    else if percentage >= 70 then "bg-yellow-400/10 border-yellow-400/30"
    else "bg-gray-400/10 border-gray-400/30"
  }

  function ColorOf(t: Tier): String {
    match t
    case Green => "text-green-400"
    case Blue => "text-blue-400"
    case Yellow => "text-yellow-400"
    case Gray => "text-gray-400"
  }

  function BgColorOf(t: Tier): String {
    match t
    case Green => "bg-green-400/10 border-green-400/30"
    case Blue => "bg-blue-400/10 border-blue-400/30"
    case Yellow => "bg-yellow-400/10 border-yellow-400/30"
    case Gray => "bg-gray-400/10 border-gray-400/30"
  }

  /** Both colour functions pick the colours of one and the same tier, and
      the tier's colours tell the tiers apart. */
  lemma SameTier(percentage: int)
    ensures GetMatchColor(percentage) == ColorOf(TierOf(percentage))
    ensures GetMatchBgColor(percentage) == BgColorOf(TierOf(percentage))
    ensures forall t, u :: ColorOf(t) == ColorOf(u) ==> t == u
    ensures forall t, u :: BgColorOf(t) == BgColorOf(u) ==> t == u
  {
    forall t: Tier, u: Tier | ColorOf(t) == ColorOf(u) ensures t == u {
      assert ColorOf(t)[5] == ColorOf(u)[5];
    }
    forall t: Tier, u: Tier | BgColorOf(t) == BgColorOf(u) ensures t == u {
      assert BgColorOf(t)[3] == BgColorOf(u)[3];
    }
  }

  /** A higher percentage never gets a lower tier. */
  lemma TierMonotone(p: int, q: int)
    requires p <= q
    ensures Rank(TierOf(p)) <= Rank(TierOf(q))
  {
  }
}
