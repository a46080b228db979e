/** The filter bar above the project grid: three category buttons and a search box. */
module ProjectFilter {
  import opened Common
  import opened Types
  import opened Data
  import Home

  /** The filter values the three buttons send. */
  const FilterOptions: seq<string> := ["all", "automation", "ai"]

  /** The search box reports a value only when it is empty or longer than two characters. */
  predicate ForwardsSearch(value: string) {
    |value| > 2 || |value| == 0
  }

  /** One and two characters are the only lengths held back. */
  lemma ForwardsSearchIff(value: string)
    ensures !ForwardsSearch(value) <==> |value| == 1 || |value| == 2
  {
  }

  /** Every button's filter leaves at least one catalog project on the page. */
  lemma OfferedFiltersShowProjects()
    ensures forall f :: f in FilterOptions ==> |Home.ProjectsForFilter(f)| > 0
  {
    Home.AutomationFilterResult();
    Home.AiFilterResult();
  }

  class ProjectFilter {
    var activeFilter: string
    var searchTerm: string

    /** Starts on "all" with an empty search box. */
    constructor ()
      ensures activeFilter == "all" && searchTerm == ""
    {
      activeFilter := "all";
      searchTerm := "";
    }

    /** The button drawn highlighted. */
    predicate Highlighted(option: string)
      reads this
    {
      activeFilter == option
    }

    /** `handleFilterClick`: records the choice and passes exactly that value on. */
    method FilterClick(filter: string) returns (forwarded: string)
      modifies this
      ensures activeFilter == filter && forwarded == filter && searchTerm == old(searchTerm)
      ensures forall o :: o in FilterOptions ==> (Highlighted(o) <==> o == filter)
    {
      activeFilter := filter;
      forwarded := filter;
    }

    /** `handleSearchChange`: the box always shows the value; it is passed on only past the threshold. */
    method SearchChange(value: string) returns (forwarded: Option<string>)
      modifies this
      ensures searchTerm == value && activeFilter == old(activeFilter)
      ensures forwarded.Some? <==> ForwardsSearch(value)
      ensures forwarded.Some? ==> forwarded.value == value
    {
      searchTerm := value;
      if |value| > 2 || |value| == 0 {
        forwarded := Some(value);
      } else {
        forwarded := None;
      }
    }
  }

  /** Clearing the search box restores the whole catalog. */
  lemma ClearedSearchShowsAll()
    ensures ForwardsSearch("") && Home.ProjectsForSearch("") == Projects
  {
  }
}
