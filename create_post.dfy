/** The "create post" page: a text of at most 500 characters, a set of
    topic tags toggled on and off, a funding stage and a location, with a
    live preview. */
module CreatePost {
  import opened Text
  import opened Lists

  const MaxLength: nat := 500
  const MaxPreviewTags: nat := 3

  const AvailableTags: seq<String> := [
    "AI/ML", "FinTech", "HealthTech", "SaaS", "E-commerce", "EdTech",
    "PropTech", "CleanTech", "Blockchain", "IoT", "Mobile", "Web3",
    "B2B", "B2C", "Marketplace", "Social", "Gaming", "Entertainment"]

  const FundingStages: seq<String> := [
    "Pre-Seed", "Seed", "Series A", "Series B", "Series C+", "Bootstrapped"]

  /** `handleTagToggle(tag)` on the list: drop every copy of a selected
      tag, or append a tag that is not selected. */
  function Toggle(tags: seq<String>, tag: String): (r: seq<String>)
    ensures tag in tags ==> r == Remove(tags, tag) && tag !in r
    ensures tag !in tags ==> r == tags + [tag]
  {
    if tag in tags then
      RemoveSpec(tags, tag);
      Remove(tags, tag)
    else tags + [tag]
  }

  /** Toggling a tag that was not selected, twice, gives the list back. */
  lemma ToggleTwice(tags: seq<String>, tag: String)
    requires tag !in tags
    ensures Toggle(Toggle(tags, tag), tag) == tags
  {
    RemoveAppended(tags, tag);
  }

  /** Toggling keeps the list free of duplicates. */
  lemma ToggleNoDuplicates(tags: seq<String>, tag: String)
    requires NoDuplicates(tags)
    ensures NoDuplicates(Toggle(tags, tag))
  {
    if tag in tags {
      RemoveNoDuplicates(tags, tag);
    }
  }

  /** Toggling leaves every other tag where it was: with the toggled tag
      taken out of both, the lists before and after are equal. */
  lemma ToggleKeepsOthers(tags: seq<String>, tag: String)
    ensures Remove(Toggle(tags, tag), tag) == Remove(tags, tag)
  {
    if tag in tags {
      RemoveSpec(tags, tag);
      RemoveAbsent(Remove(tags, tag), tag);
    } else {
      RemoveAppended(tags, tag);
      RemoveAbsent(tags, tag);
    }
  }

  /** `selectedTags.slice(0, 3)` in the preview. */
  function PreviewTags(tags: seq<String>): (r: seq<String>)
    ensures |r| <= MaxPreviewTags && |r| <= |tags| && r == tags[..|r|]
    ensures |tags| <= MaxPreviewTags ==> r == tags
  {
    Take(tags, MaxPreviewTags)
  }

  class CreatePostPage {
    var postContent: String
    var selectedTags: seq<String>
    var fundingStage: String
    var location: String
    /** Where the page has navigated to; `[]` while it stays here. */
    var route: String

    ghost predicate Valid()
      reads this
    {
      |postContent| <= MaxLength && NoDuplicates(selectedTags)
    }

    constructor ()
      ensures Valid()
      ensures postContent == [] && selectedTags == [] && fundingStage == [] && location == []
      ensures route == []
    {
      postContent, selectedTags, fundingStage, location := [], [], [], [];
      route := [];
    }

    /** Typing in the textarea; `maxLength={500}` keeps at most the first
        500 characters. */
    method SetPostContent(value: String)
      requires Valid()
      modifies this
      ensures Valid()
      ensures postContent == Take(value, MaxLength)
      ensures selectedTags == old(selectedTags) && fundingStage == old(fundingStage)
      ensures location == old(location) && route == old(route)
    {
      postContent := Take(value, MaxLength);
    }

    /** `handleTagToggle(tag)`. */
    method HandleTagToggle(tag: String)
      requires Valid()
      modifies this
      ensures Valid()
      ensures selectedTags == Toggle(old(selectedTags), tag)
      ensures postContent == old(postContent) && fundingStage == old(fundingStage)
      ensures location == old(location) && route == old(route)
    {
      ToggleNoDuplicates(selectedTags, tag);
      selectedTags := Toggle(selectedTags, tag);
    }

    method SetFundingStage(stage: String)
      modifies this
      ensures fundingStage == stage
      ensures postContent == old(postContent) && selectedTags == old(selectedTags)
      ensures location == old(location) && route == old(route)
    {
      fundingStage := stage;
    }

    method SetLocation(value: String)
      modifies this
      ensures location == value
      ensures postContent == old(postContent) && selectedTags == old(selectedTags)
      ensures fundingStage == old(fundingStage) && route == old(route)
    {
      location := value;
    }

    /** `handleSubmit`: the post is only logged, then the page goes to the
        dashboard. */
    method HandleSubmit()
      modifies this
      ensures route == "/dashboard"
      ensures postContent == old(postContent) && selectedTags == old(selectedTags)
      ensures fundingStage == old(fundingStage) && location == old(location)
    {
      route := "/dashboard";
    }

    /** `500 - postContent.length`, never negative under the length limit. */
    function CharactersRemaining(): (n: int)
      requires Valid()
      reads this
      ensures 0 <= n <= MaxLength && n + |postContent| == MaxLength
    {
      MaxLength - |postContent|
    }

    /** The publish button is disabled while the text is blank. */
    function PublishDisabled(): (d: bool)
      reads this
      ensures d <==> IsBlank(postContent)
    {
      TrimEmptyIffBlank(postContent);
      Trim(postContent) == []
    }
  }
}
