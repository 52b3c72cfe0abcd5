/** The job board: free-text search over a vacancy's title, description and company,
    combined with a job-type filter. */
module Vacancies {
  import opened JsString
  import opened Seqs

  datatype Vacancy = Vacancy(
    id: int,
    title: string,
    company: string,
    location: string,
    jobType: string,
    budget: string,
    duration: string,
    postedBy: string,
    postedDate: string,
    description: string,
    skills: seq<string>)

  /** The type selector's "no filter" entry. */
  const AllTypes := "All"

  /** `matchesSearch`: the lower-cased query occurs in the title, description or company. */
  predicate MatchesSearch(v: Vacancy, query: string) {
    var q := ToLower(query);
    Includes(ToLower(v.title), q) || Includes(ToLower(v.description), q) || Includes(ToLower(v.company), q)
  }

  /** `matchesType`: "All" is selected or the vacancy has exactly the selected type. */
  predicate MatchesType(v: Vacancy, selectedType: string) {
    selectedType == AllTypes || v.jobType == selectedType
  }

  predicate Shown(v: Vacancy, query: string, selectedType: string) {
    MatchesSearch(v, query) && MatchesType(v, selectedType)
  }

  /** `filteredVacancies`: the vacancies passing both tests, in list order. */
  function FilterVacancies(vacancies: seq<Vacancy>, query: string, selectedType: string): (r: seq<Vacancy>)
    ensures IsSubsequence(r, vacancies)
    ensures forall v :: v in r <==>
      && v in vacancies
      && (Includes(ToLower(v.title), ToLower(query)) || Includes(ToLower(v.description), ToLower(query))
          || Includes(ToLower(v.company), ToLower(query)))
      && (selectedType == AllTypes || v.jobType == selectedType)
    ensures forall v :: multiset(r)[v] == if Shown(v, query, selectedType) then multiset(vacancies)[v] else 0
  {
    Filter(vacancies, v => Shown(v, query, selectedType))
  }

  /** Location and skills are not searched: a vacancy whose title, description and company
      all miss the query is hidden whatever its location and skills say. */
  lemma LocationAndSkillsNotSearched(vacancies: seq<Vacancy>, v: Vacancy, query: string, selectedType: string,
                                     location: string, skills: seq<string>)
    requires !Includes(ToLower(v.title), ToLower(query))
    requires !Includes(ToLower(v.description), ToLower(query))
    requires !Includes(ToLower(v.company), ToLower(query))
    ensures v.(location := location, skills := skills) !in FilterVacancies(vacancies, query, selectedType)
  {
  }

  /** With an empty query and "All" selected, every vacancy is shown. */
  lemma NoFilterShowsAll(vacancies: seq<Vacancy>)
    ensures FilterVacancies(vacancies, "", AllTypes) == vacancies
  {
    forall i | 0 <= i < |vacancies| ensures Shown(vacancies[i], "", AllTypes) {
      IncludesEmpty(ToLower(vacancies[i].title));
    }
    FilterKeepsAll(vacancies, v => Shown(v, "", AllTypes));
  }

  /** For a fixed query, the list for one job type is a subsequence, and so a subset, of
      the list for "All". */
  lemma TypeFilterNarrows(vacancies: seq<Vacancy>, query: string, selectedType: string)
    ensures IsSubsequence(FilterVacancies(vacancies, query, selectedType), FilterVacancies(vacancies, query, AllTypes))
    ensures forall v :: v in FilterVacancies(vacancies, query, selectedType) ==> v in FilterVacancies(vacancies, query, AllTypes)
  {
    FilterMonotone(vacancies, v => Shown(v, query, selectedType), v => Shown(v, query, AllTypes));
  }
}
