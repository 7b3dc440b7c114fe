/** The problem list of the home page: the filtered list shown to the user,
    the difficulty counts, and the colour of a difficulty badge. */
module Homepage {
  import opened Text
  import opened Seqs
  import opened Problems

  /** The three drop-down filters; each starts at `all`. */
  datatype Filters = Filters(difficulty: string, tag: string, status: string)

  const InitialFilters := Filters("all", "all", "all")

  /** `solvedProblems.some(sp => sp._id === problem._id)`. */
  predicate IsSolved(solved: seq<Problem>, p: Problem) {
    exists sp :: sp in solved && sp.id == p.id
  }

  /** The callback of `problems.filter` (lines 47-55). */
  predicate Shown(f: Filters, query: string, solved: seq<Problem>, p: Problem)
    ensures f == InitialFilters && query == "" ==> Shown(f, query, solved, p)
    ensures f.status != "all" && f.status != "solved" ==> !Shown(f, query, solved, p)
    ensures Shown(f, query, solved, p) ==> Contains(Lower(p.title), Lower(query))
  {
    ContainsEmpty(Lower(p.title));
    && (f.difficulty == "all" || p.difficulty == f.difficulty)
    && (f.tag == "all" || p.tags == f.tag)
    && (f.status == "all" || (f.status == "solved" && IsSolved(solved, p)))
    && (query == "" || Contains(Lower(p.title), Lower(query)))
  }

  function ShownBy(f: Filters, query: string, solved: seq<Problem>): Problem -> bool {
    (p: Problem) => Shown(f, query, solved, p)
  }

  /** `filteredProblems`: an order-preserving selection of `problems`; a
      problem is kept exactly when it meets every active filter and the
      lower-cased title contains the lower-cased query. */
  function FilteredProblems(problems: seq<Problem>, f: Filters, query: string,
                            solved: seq<Problem>): (r: seq<Problem>)
    ensures IsSubsequence(r, problems)
    ensures forall p :: p in r ==> p in problems
    ensures forall p :: p in r <==>
      (&& p in problems
       && (f.difficulty == "all" || p.difficulty == f.difficulty)
       && (f.tag == "all" || p.tags == f.tag)
       && (f.status == "all" || (f.status == "solved" && IsSolved(solved, p)))
       && Contains(Lower(p.title), Lower(query)))
    ensures |r| == |set i | 0 <= i < |problems| && Shown(f, query, solved, problems[i])|
  {
    FilterIsSubsequence(problems, ShownBy(f, query, solved));
    FilterCountsPositions(problems, ShownBy(f, query, solved));
    assert Positions(problems, ShownBy(f, query, solved))
      == set i | 0 <= i < |problems| && Shown(f, query, solved, problems[i]);
    EmptyQueryMatches(problems);
    Filter(problems, ShownBy(f, query, solved))
  }

  /** The empty query is contained in every title. */
  lemma EmptyQueryMatches(problems: seq<Problem>)
    ensures forall p :: p in problems ==> Contains(Lower(p.title), Lower(""))
  {
    forall p | p in problems
      ensures Contains(Lower(p.title), Lower(""))
    {
      ContainsEmpty(Lower(p.title));
    }
  }

  /** With every filter at `all` and no query, every problem is listed. */
  lemma NoFilterShowsAll(problems: seq<Problem>, solved: seq<Problem>)
    ensures FilteredProblems(problems, InitialFilters, "", solved) == problems
  {
    FilterKeepsAll(problems, ShownBy(InitialFilters, "", solved));
  }

  /** A status other than `all` and `solved` lists nothing. */
  lemma UnknownStatusShowsNothing(problems: seq<Problem>, f: Filters, query: string,
                                  solved: seq<Problem>)
    requires f.status != "all" && f.status != "solved"
    ensures FilteredProblems(problems, f, query, solved) == []
  {
  }

  /** The `stats` object (lines 57-63). */
  datatype Stats = Stats(total: nat, solved: nat, easy: nat, medium: nat, hard: nat)

  function DifficultyIs(d: string): Problem -> bool {
    (p: Problem) => p.difficulty == d
  }

  /** Filtering on one difficulty keeps one problem per position holding
      that difficulty. */
  lemma CountDifficulty(problems: seq<Problem>, d: string)
    ensures |Filter(problems, DifficultyIs(d))| == |set i | 0 <= i < |problems| && problems[i].difficulty == d|
  {
    FilterCountsPositions(problems, DifficultyIs(d));
    assert Positions(problems, DifficultyIs(d)) == set i | 0 <= i < |problems| && problems[i].difficulty == d;
  }

  /** The counts: each difficulty count is the number of problems with that
      difficulty, the three together never exceed the total, and `solved`
      is the length of the solved list. */
  function ComputeStats(problems: seq<Problem>, solved: seq<Problem>): (s: Stats)
    ensures s.total == |problems| && s.solved == |solved|
    ensures s.easy == |set i | 0 <= i < |problems| && problems[i].difficulty == "easy"|
    ensures s.medium == |set i | 0 <= i < |problems| && problems[i].difficulty == "medium"|
    ensures s.hard == |set i | 0 <= i < |problems| && problems[i].difficulty == "hard"|
    ensures s.easy + s.medium + s.hard <= s.total
  {
    var easy, medium, hard := DifficultyIs("easy"), DifficultyIs("medium"), DifficultyIs("hard");
    FilterDisjointCount(problems, easy, medium);
    FilterDisjointCount(problems, Either(easy, medium), hard);
    CountDifficulty(problems, "easy");
    CountDifficulty(problems, "medium");
    CountDifficulty(problems, "hard");
    Stats(|problems|, |solved|, |Filter(problems, easy)|, |Filter(problems, medium)|,
          |Filter(problems, hard)|)
  }

  /** `getDifficultyBadgeColor`: a case-insensitive match of the difficulty. */
  function DifficultyBadgeColor(difficulty: string): (c: string)
    ensures c == "badge-success" <==> Lower(difficulty) == "easy"
    ensures c == "badge-warning" <==> Lower(difficulty) == "medium"
    ensures c == "badge-error" <==> Lower(difficulty) == "hard"
    ensures c == "badge-neutral" <==> !SchemaDifficulty(Lower(difficulty))
  {
    match Lower(difficulty)
    case "easy" => "badge-success"
    case "medium" => "badge-warning"
    case "hard" => "badge-error"
    case _ => "badge-neutral"
  }

  /** Two spellings that differ only in case get the same badge, and every
      difficulty of the problem schema gets a coloured one. */
  lemma BadgeIgnoresCase(d: string)
    ensures DifficultyBadgeColor(Lower(d)) == DifficultyBadgeColor(d)
    ensures SchemaDifficulty(d) ==> DifficultyBadgeColor(d) != "badge-neutral"
  {
  }
}
