/** The co-founder browser: a search box and a category filter over a list
    of people, with a Clear Filters button. */
module MatchesPage {
  import opened Text
  import opened Lists

  datatype Person = Person(id: int, name: String, skills: seq<String>)

  /** The page's two pieces of filter state. */
  datatype FilterState = FilterState(searchTerm: String, selectedFilter: String)

  /** The initial state, and the state Clear Filters sets. */
  function ClearFilters(): (s: FilterState)
    ensures s.searchTerm == [] && s.selectedFilter == "all"
  {
    FilterState("", "all")
  }

  const TechnicalSkills: seq<String> :=
    ["React", "Node.js", "Python", "JavaScript", "TypeScript", "Solidity", "iOS", "Android"]
  const BusinessSkills: seq<String> :=
    ["Sales", "Business Development", "Operations", "Finance", "Strategy"]
  const MarketingSkills: seq<String> :=
    ["Marketing", "Digital Marketing", "Analytics"]

  /** The name or some skill contains the search term, ignoring ASCII case. */
  predicate MatchesSearch(p: Person, term: String) {
    Includes(ToLower(p.name), ToLower(term))
    || exists i :: 0 <= i < |p.skills| && Includes(ToLower(p.skills[i]), ToLower(term))
  }

  /** The `switch` inside `skills.some(...)`: does one skill belong to the
      category? An unrecognised category accepts every skill. */
  predicate SkillInCategory(filter: String, skill: String) {
    if filter == "technical" then skill in TechnicalSkills
    else if filter == "business" then skill in BusinessSkills
    else if filter == "design" then Includes(skill, "Design")
    else if filter == "marketing" then skill in MarketingSkills
    else true
  }

  predicate MatchesFilter(p: Person, filter: String) {
    filter == "all" || exists i :: 0 <= i < |p.skills| && SkillInCategory(filter, p.skills[i])
  }

  /** `filteredCoFounders`: the people who pass both the search and the
      category, in their original order. */
  function FilteredCoFounders(people: seq<Person>, state: FilterState): (r: seq<Person>)
    ensures IsSubsequence(r, people)
    ensures forall i :: 0 <= i < |r| ==>
      MatchesSearch(r[i], state.searchTerm) && MatchesFilter(r[i], state.selectedFilter)
    ensures forall i :: (0 <= i < |people| &&
      MatchesSearch(people[i], state.searchTerm) && MatchesFilter(people[i], state.selectedFilter)) ==>
      people[i] in r
  {
    var keep := (p: Person) => MatchesSearch(p, state.searchTerm) && MatchesFilter(p, state.selectedFilter);
    FilterIsSubsequence(people, keep);
    Filter(people, keep)
  }

  /** Every copy of a person who passes is kept, and no copy of one who
      does not. */
  lemma FilteredCoFoundersCount(people: seq<Person>, state: FilterState)
    ensures forall x ::
              multiset(FilteredCoFounders(people, state))[x] ==
              (if MatchesSearch(x, state.searchTerm) && MatchesFilter(x, state.selectedFilter)
               then multiset(people)[x] else 0)
  {
    var keep := (p: Person) => MatchesSearch(p, state.searchTerm) && MatchesFilter(p, state.selectedFilter);
    FilterMultiset(people, keep);
  }

  /** The empty search term matches everybody. */
  lemma EmptySearchMatchesAll(p: Person)
    ensures MatchesSearch(p, "")
  {
    assert ToLower("") == [];
    IncludesEmpty(ToLower(p.name));
  }

  /** After Clear Filters the whole list is shown, unchanged. */
  lemma ClearFiltersShowsAll(people: seq<Person>)
    ensures FilteredCoFounders(people, ClearFilters()) == people
  {
    forall p | p in people ensures MatchesSearch(p, "") {
      EmptySearchMatchesAll(p);
    }
    FilterAll(people, (p: Person) => MatchesSearch(p, ClearFilters().searchTerm)
      && MatchesFilter(p, ClearFilters().selectedFilter));
  }

  /** The design category keeps a person exactly when some skill contains
      `"Design"`. */
  lemma DesignFilter(p: Person)
    ensures MatchesFilter(p, "design") <==> exists i :: 0 <= i < |p.skills| && Includes(p.skills[i], "Design")
  {
  }

  /** An unrecognised category (anything but the five names) keeps exactly
      the people with at least one skill: `some` over no skills is false. */
  lemma UnknownFilter(p: Person, filter: String)
    requires filter !in ["all", "technical", "business", "design", "marketing"]
    ensures MatchesFilter(p, filter) <==> |p.skills| > 0
  {
    if |p.skills| > 0 {
      assert SkillInCategory(filter, p.skills[0]);
    }
  }
}
