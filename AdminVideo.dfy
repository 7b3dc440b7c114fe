/** The admin page that lists problems for video management: a search box and
    a difficulty drop-down narrow the list, and deleting a problem's video
    removes that problem from the list. */
module AdminVideo {
  import opened Maybe
  import opened Text
  import opened Seqs
  import opened Problems

  /** The search callback: the lower-cased title or tag contains the
      lower-cased term. */
  predicate MatchesSearch(term: string, p: Problem) {
    Contains(Lower(p.title), Lower(term)) || Contains(Lower(p.tags), Lower(term))
  }

  function SearchBy(term: string): Problem -> bool {
    (p: Problem) => MatchesSearch(term, p)
  }

  /** The difficulty callback: an exact, case-sensitive comparison. */
  function DifficultyBy(filter: string): Problem -> bool {
    (p: Problem) => p.difficulty == filter
  }

  /** A problem is listed when it passes the search (if a term is typed) and
      the difficulty filter (unless it is `All`). */
  predicate Visible(term: string, filter: string, p: Problem) {
    (term == "" || MatchesSearch(term, p)) && (filter == "All" || p.difficulty == filter)
  }

  function VisibleBy(term: string, filter: string): Problem -> bool {
    (p: Problem) => Visible(term, filter, p)
  }

  /** The list `filterProblems` computes, as one filter: an order-preserving
      selection of `problems`, holding exactly the visible ones. */
  function VisibleProblems(problems: seq<Problem>, term: string, filter: string): (r: seq<Problem>)
    ensures IsSubsequence(r, problems)
    ensures forall p :: p in r <==>
      (&& p in problems
       && (term == "" || MatchesSearch(term, p))
       && (filter == "All" || p.difficulty == filter))
    ensures |r| == |set i | 0 <= i < |problems| && Visible(term, filter, problems[i])|
  {
    FilterIsSubsequence(problems, VisibleBy(term, filter));
    FilterCountsPositions(problems, VisibleBy(term, filter));
    assert Positions(problems, VisibleBy(term, filter))
      == set i | 0 <= i < |problems| && Visible(term, filter, problems[i]);
    Filter(problems, VisibleBy(term, filter))
  }

  /** No search term and the `All` filter list every problem. */
  lemma NoFilterListsAll(problems: seq<Problem>)
    ensures VisibleProblems(problems, "", "All") == problems
  {
    FilterKeepsAll(problems, VisibleBy("", "All"));
  }

  /** The drop-down offers capitalised difficulties while the problem schema
      admits lower-case ones only, so choosing any of them lists nothing. */
  lemma CapitalisedFilterListsNothing(problems: seq<Problem>, term: string, filter: string)
    requires filter == "Easy" || filter == "Medium" || filter == "Hard"
    requires forall p :: p in problems ==> SchemaDifficulty(p.difficulty)
    ensures VisibleProblems(problems, term, filter) == []
  {
    FilterKeepsNone(problems, VisibleBy(term, filter));
  }

  /** `getDifficultyColor`: a case-sensitive match on the capitalised names. */
  function DifficultyColor(difficulty: string): (c: string)
    ensures difficulty == "Easy" <==> c == "bg-green-100 text-green-800 border-green-200"
    ensures difficulty == "Medium" <==> c == "bg-yellow-100 text-yellow-800 border-yellow-200"
    ensures difficulty == "Hard" <==> c == "bg-red-100 text-red-800 border-red-200"
    ensures difficulty !in {"Easy", "Medium", "Hard"} <==> c == SlateDefault
  {
    match difficulty
    case "Easy" => "bg-green-100 text-green-800 border-green-200"
    case "Medium" => "bg-yellow-100 text-yellow-800 border-yellow-200"
    case "Hard" => "bg-red-100 text-red-800 border-red-200"
    case _ => SlateDefault
  }

  const SlateDefault := "bg-slate-100 text-slate-800 border-slate-200"

  /** Every difficulty the schema admits gets the slate default. */
  lemma SchemaDifficultyIsSlate(d: string)
    requires SchemaDifficulty(d)
    ensures DifficultyColor(d) == SlateDefault
  {
  }

  /** `err?.response?.data?.error || 'Failed to delete video'`. */
  function DeleteErrorText(serverError: Option<string>): string {
    OrElse(serverError, "Failed to delete video")
  }

  /** `problems.filter(problem => problem._id !== id)`. */
  function KeepOthers(id: string): Problem -> bool {
    (p: Problem) => p.id != id
  }

  /** Deleting `id` removes exactly the problems with that `_id` and keeps
      the others in their order. */
  lemma DeleteRemovesExactly(problems: seq<Problem>, id: string)
    ensures IsSubsequence(Filter(problems, KeepOthers(id)), problems)
    ensures forall p :: p in Filter(problems, KeepOthers(id)) <==> p in problems && p.id != id
    ensures (forall p :: p in problems ==> p.id != id) ==> Filter(problems, KeepOthers(id)) == problems
    ensures |Filter(problems, KeepOthers(id))| == |set i | 0 <= i < |problems| && problems[i].id != id|
  {
    FilterCountsPositions(problems, KeepOthers(id));
    assert Positions(problems, KeepOthers(id)) == set i | 0 <= i < |problems| && problems[i].id != id;
  }

  /** The outcome of the delete request. */
  datatype DeleteOutcome = Deleted | DeleteFailed(serverError: Option<string>)

  /** The page's state. */
  class AdminVideoPage {
    var problems: seq<Problem>
    var filteredProblems: seq<Problem>
    var loading: bool
    var error: Option<string>
    var searchTerm: string
    var difficultyFilter: string

    /** The effect on `[searchTerm, difficultyFilter, problems]` has run: the
        shown list matches the current inputs. */
    ghost predicate Synced()
      reads this
    {
      filteredProblems == VisibleProblems(problems, searchTerm, difficultyFilter)
    }

    constructor ()
      ensures Synced()
      ensures problems == [] && filteredProblems == [] && loading && error == None
      ensures searchTerm == "" && difficultyFilter == "All"
    {
      problems := [];
      filteredProblems := [];
      loading := true;
      error := None;
      searchTerm := "";
      difficultyFilter := "All";
    }

    /** `filterProblems` (lines 36-51): the search filter, then the
        difficulty filter, on a local list. */
    method FilterProblems()
      modifies this`filteredProblems
      ensures Synced()
    {
      var filtered := problems;
      if searchTerm != "" {
        filtered := Filter(filtered, SearchBy(searchTerm));
      }
      if difficultyFilter != "All" {
        filtered := Filter(filtered, DifficultyBy(difficultyFilter));
      }
      filteredProblems := filtered;
      StagesAreVisibleProblems(problems, searchTerm, difficultyFilter);
    }

    /** `fetchProblems` with the fetched list, or `None` when the request
        failed; a change of `problems` re-runs the filter effect. */
    method Load(data: Option<seq<Problem>>)
      requires Synced()
      modifies this
      ensures Synced() && !loading
      ensures searchTerm == old(searchTerm) && difficultyFilter == old(difficultyFilter)
      ensures data.Some? ==> problems == data.value && error == old(error)
      ensures data.None? ==> problems == old(problems) && error == Some("Failed to fetch problems")
    {
      loading := true;
      match data {
        case Some(list) =>
          problems := list;
          filteredProblems := list;
        case None =>
          error := Some("Failed to fetch problems");
      }
      loading := false;
      if data.Some? {
        FilterProblems();
      }
    }

    method SetSearchTerm(term: string)
      modifies this
      ensures Synced()
      ensures searchTerm == term
      ensures problems == old(problems) && difficultyFilter == old(difficultyFilter)
      ensures error == old(error) && loading == old(loading)
    {
      searchTerm := term;
      FilterProblems();
    }

    method SetDifficultyFilter(filter: string)
      modifies this
      ensures Synced()
      ensures difficultyFilter == filter
      ensures problems == old(problems) && searchTerm == old(searchTerm)
      ensures error == old(error) && loading == old(loading)
    {
      difficultyFilter := filter;
      FilterProblems();
    }

    /** `handleDelete` once confirmed, with the request's outcome. */
    method Delete(id: string, outcome: DeleteOutcome)
      requires Synced()
      modifies this
      ensures Synced()
      ensures searchTerm == old(searchTerm) && difficultyFilter == old(difficultyFilter)
      ensures loading == old(loading)
      ensures outcome.Deleted? ==>
        problems == Filter(old(problems), KeepOthers(id)) && error == old(error)
      ensures outcome.DeleteFailed? ==>
        problems == old(problems) && error == Some(DeleteErrorText(outcome.serverError))
    {
      match outcome {
        case Deleted =>
          problems := Filter(problems, KeepOthers(id));
          FilterProblems();
        case DeleteFailed(serverError) =>
          error := Some(DeleteErrorText(serverError));
      }
    }
  }

  /** The two filter stages of `filterProblems` give the visible problems. */
  lemma StagesAreVisibleProblems(problems: seq<Problem>, term: string, filter: string)
    ensures var afterSearch := if term != "" then Filter(problems, SearchBy(term)) else problems;
      (if filter != "All" then Filter(afterSearch, DifficultyBy(filter)) else afterSearch)
        == VisibleProblems(problems, term, filter)
  {
    var afterSearch := if term != "" then Filter(problems, SearchBy(term)) else problems;
    if term != "" && filter != "All" {
      FilterTwice(problems, SearchBy(term), DifficultyBy(filter));
      FilterAgree(problems, Both(SearchBy(term), DifficultyBy(filter)), VisibleBy(term, filter));
    } else if term != "" {
      FilterAgree(problems, SearchBy(term), VisibleBy(term, filter));
    } else if filter != "All" {
      FilterAgree(problems, DifficultyBy(filter), VisibleBy(term, filter));
    } else {
      FilterKeepsAll(problems, VisibleBy(term, filter));
    }
  }
}
