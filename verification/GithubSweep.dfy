/**
 The code-search sweep: a cursor over the pages of a few queries, saved after every
 page, so that interrupted runs resume where the last completed page ended.
 */
module GithubSweep {
  import opened Wrappers

  const RESULTS_PER_PAGE := 100
  const MAX_PAGES_PER_RUN := 3
  const LAST_PAGE := 10
  const MAX_QUERIES := 5

  datatype Cursor = Cursor(queryIndex: int, page: int)

  const START := Cursor(0, 1)

  /** Out-of-range cursors restart the sweep. */
  function SanitizeGitHubCursor(cursor: Cursor, queryCount: nat): (c: Cursor)
    ensures queryCount > 0 ==> InRange(c, queryCount)
  {
    if 0 <= cursor.queryIndex < queryCount && 1 <= cursor.page <= LAST_PAGE then cursor else START
  }

  predicate InRange(c: Cursor, queryCount: nat) {
    0 <= c.queryIndex < queryCount && 1 <= c.page <= LAST_PAGE
  }

  /** What happens to one search: a page, a failure, or the process dying before it saved the cursor. */
  datatype Answer = Page(items: nat, totalCount: nat, incomplete: bool) | Threw(code: string) | Died

  predicate HasReachedQueryEnd(page: Answer, pageNumber: int)
    requires page.Page?
  {
    page.items < RESULTS_PER_PAGE || pageNumber * RESULTS_PER_PAGE >= page.totalCount || pageNumber >= LAST_PAGE
  }

  /** A page that was processed and after which the cursor was saved: its results, and how many the query has. */
  datatype Visit = Visit(queryIndex: int, page: int, items: nat, totalCount: nat)

  /** More results of the query are left, on a page that the search still serves. */
  predicate HasMore(v: Visit) {
    v.items >= 100 && 100 * v.page < v.totalCount && v.page < 10
  }

  lemma EndIff(v: Visit)
    ensures HasReachedQueryEnd(Page(v.items, v.totalCount, false), v.page) <==> !HasMore(v)
  {
  }

  /** A page with more behind it is followed by the next page of its query, any other by the next query. */
  function Following(v: Visit): Cursor {
    if !HasMore(v) then Cursor(v.queryIndex + 1, 1) else Cursor(v.queryIndex, v.page + 1)
  }

  /** Where the sweep goes on after `log`. */
  function Resumes(log: seq<Visit>, queryCount: nat): Cursor {
    if log == [] then START else SanitizeGitHubCursor(Following(log[|log| - 1]), queryCount)
  }

  /** A visit is where the one before leaves off. */
  predicate IsNext(log: seq<Visit>, queryCount: nat, i: nat)
    requires i < |log|
  {
    Cursor(log[i].queryIndex, log[i].page)
    == if i == 0 then START else SanitizeGitHubCursor(Following(log[i - 1]), queryCount)
  }

  predicate IsSweep(log: seq<Visit>, queryCount: nat) {
    forall i | 0 <= i < |log| :: IsNext(log, queryCount, i)
  }

  predicate EndsSweep(v: Visit, queryCount: nat) {
    v.queryIndex == queryCount - 1 && !HasMore(v)
  }

  predicate AtEnd(log: seq<Visit>, queryCount: nat) {
    log != [] && EndsSweep(log[|log| - 1], queryCount)
  }

  datatype Outcome = Finished | Failed(code: string) | Dead

  class Source {
    const queryCount: nat
    var saved: Option<Cursor>
    ghost var log: seq<Visit>

    ghost predicate Valid()
      reads this
    {
      && 1 <= queryCount <= MAX_QUERIES && IsSweep(log, queryCount)
      && SanitizeGitHubCursor(if saved.Some? then saved.value else START, queryCount) == Resumes(log, queryCount)
    }

    constructor (queryCount: nat)
      requires 1 <= queryCount <= MAX_QUERIES
      ensures Valid() && log == []
    {
      this.queryCount := queryCount;
      saved := None;
      log := [];
    }

    /**
     One run over whatever the searches answer. It completes at most three pages, each the
     one after the last completed page of any earlier run, and the saved cursor moves only
     with a completed page: failures and deaths leave their page to be read again.
     */
    method RunGitHubSource(answers: seq<Answer>, diesAtWrap: bool)
      returns (outcome: Outcome, pagesRead: nat, ghost completed: nat)
      requires Valid() && |answers| >= 3
      modifies this
      ensures Valid() && HasRead(old(log), log, answers, completed)
      ensures completed <= pagesRead <= 3 && pagesRead <= completed + 1
      ensures completed > 0 ==> saved.Some? && SavesAfter(log[|log| - 1], saved.value, queryCount)
      ensures completed == 0 && outcome != Finished ==> saved == old(saved)
      ensures match outcome
              case Finished => pagesRead == completed && (completed == 3 || AtEnd(log, queryCount))
              case Failed(code) => completed < 3 && Fails(answers[completed], code)
              case Dead => (diesAtWrap && AtEnd(log, queryCount)) || (completed < 3 && answers[completed].Died?)
      ensures outcome == Finished && AtEnd(log, queryCount) ==> saved == Some(Cursor(0, 1))
    {
      var cursor := SanitizeGitHubCursor(if saved.Some? then saved.value else START, queryCount);
      pagesRead, completed := 0, 0;
      while cursor.queryIndex < queryCount && pagesRead < MAX_PAGES_PER_RUN
        invariant completed == pagesRead <= MAX_PAGES_PER_RUN
        invariant Valid() && HasRead(old(log), log, answers, completed)
        invariant if cursor.queryIndex < queryCount then cursor == Resumes(log, queryCount)
                  else AtEnd(log, queryCount)
        invariant if completed == 0 then saved == old(saved)
                  else saved == Some(cursor) && SavesAfter(log[|log| - 1], cursor, queryCount)
      {
        var answer := answers[pagesRead];
        if answer.Threw? {
          return Failed(answer.code), pagesRead, completed;
        }
        if answer.Died? {
          return Dead, pagesRead, completed;
        }
        pagesRead := pagesRead + 1;
        if answer.incomplete {
          return Failed("incomplete_results"), pagesRead, completed;
        }
        var reachedQueryEnd := HasReachedQueryEnd(answer, cursor.page);
        ghost var visit := Visit(cursor.queryIndex, cursor.page, answer.items, answer.totalCount);
        EndIff(visit);
        LongerSweep(log, visit, queryCount);
        OneMoreRead(old(log), log, answers, completed, visit);
        cursor := if reachedQueryEnd then Cursor(cursor.queryIndex + 1, 1)
            else Cursor(cursor.queryIndex, cursor.page + 1);
        saved := Some(cursor);
        log, completed := log + [visit], completed + 1;
      }
      if cursor.queryIndex >= queryCount {
        if diesAtWrap {
          return Dead, pagesRead, completed;
        }
        saved := Some(START);
      }
      return Finished, pagesRead, completed;
    }
  }

  /** The answer was a whole page, and the visit says what it held. */
  predicate Completes(answer: Answer, v: Visit) {
    answer == Page(v.items, v.totalCount, false)
  }

  /**
   The cursor saved after a page: with more results on a page before the tenth, the next page
   of the query; otherwise the first page of the next query, or of the first once all are done.
   */
  predicate SavesAfter(v: Visit, saved: Cursor, queryCount: nat) {
    if v.items >= 100 && 100 * v.page < v.totalCount && v.page < 10 then saved == Cursor(v.queryIndex, v.page + 1)
    else saved == Cursor(v.queryIndex + 1, 1) || (v.queryIndex + 1 == queryCount && saved == Cursor(0, 1))
  }

  /** The log grew by one visit for each of the first answers, and says what each of them held. */
  predicate HasRead(before: seq<Visit>, log: seq<Visit>, answers: seq<Answer>, completed: nat) {
    && before <= log && |log| == |before| + completed && completed <= |answers|
    && forall k | 0 <= k < completed :: Completes(answers[k], log[|before| + k])
  }

  lemma OneMoreRead(before: seq<Visit>, log: seq<Visit>, answers: seq<Answer>, completed: nat, v: Visit)
    requires HasRead(before, log, answers, completed) && completed < |answers| && Completes(answers[completed], v)
    ensures HasRead(before, log + [v], answers, completed + 1)
  {
  }

  predicate Fails(answer: Answer, code: string) {
    answer == Threw(code) || (answer.Page? && answer.incomplete && code == "incomplete_results")
  }

  lemma LongerSweep(log: seq<Visit>, v: Visit, queryCount: nat)
    requires IsSweep(log, queryCount) && Cursor(v.queryIndex, v.page) == Resumes(log, queryCount)
    ensures IsSweep(log + [v], queryCount)
    ensures Resumes(log + [v], queryCount) == SanitizeGitHubCursor(Following(v), queryCount)
  {
    forall i | 0 <= i < |log + [v]| ensures IsNext(log + [v], queryCount, i) {
      assert i < |log| ==> IsNext(log, queryCount, i);
    }
  }

  // ---------------------------------------------------------------- what a sweep visits

  lemma Succession(log: seq<Visit>, queryCount: nat, i: nat)
    requires IsSweep(log, queryCount) && queryCount > 0 && i < |log|
    ensures InRange(Cursor(log[i].queryIndex, log[i].page), queryCount)
    ensures Cursor(log[i].queryIndex, log[i].page)
         == if i == 0 then START else SanitizeGitHubCursor(Following(log[i - 1]), queryCount)
  {
    assert IsNext(log, queryCount, i);
  }

  /** Before a visited page of a query come all its earlier pages, in order, with none skipped. */
  lemma {:induction false} PagesComeInOrder(log: seq<Visit>, queryCount: nat, i: nat)
    requires IsSweep(log, queryCount) && queryCount > 0 && i < |log|
    ensures InRange(Cursor(log[i].queryIndex, log[i].page), queryCount) && i >= log[i].page - 1
    ensures forall k | i - log[i].page < k < i ::
              log[k].queryIndex == log[i].queryIndex && log[k].page == log[i].page - (i - k) && HasMore(log[k])
  {
    Succession(log, queryCount, i);
    if log[i].page > 1 {
      PagesComeInOrder(log, queryCount, i - 1);
    }
  }

  lemma FirstPageFollowsEnd(log: seq<Visit>, queryCount: nat, i: nat)
    requires IsSweep(log, queryCount) && queryCount > 0 && i < |log| && log[i].queryIndex > 0 && log[i].page == 1
    ensures i > 0 && log[i - 1].queryIndex == log[i].queryIndex - 1 && !HasMore(log[i - 1])
  {
    Succession(log, queryCount, i);
    if i > 0 {
      Succession(log, queryCount, i - 1);
    }
  }

  /** A query's first page is read only after the query before it was read to its end. */
  lemma QueriesComeInOrder(log: seq<Visit>, queryCount: nat, i: nat)
    requires IsSweep(log, queryCount) && queryCount > 0 && i < |log| && log[i].queryIndex > 0
    ensures i >= log[i].page >= 1
    ensures log[i - log[i].page].queryIndex == log[i].queryIndex - 1 && !HasMore(log[i - log[i].page])
  {
    PagesComeInOrder(log, queryCount, i);
    var first := i - log[i].page + 1;
    assert log[i].page > 1 ==> log[i - log[i].page + 1].page == 1;
    assert log[first].queryIndex == log[i].queryIndex && log[first].page == 1;
    FirstPageFollowsEnd(log, queryCount, first);
  }

  /** So by the time a query is read, every earlier query of the sweep has been read to its end. */
  lemma {:induction false} EarlierQueriesAreDone(log: seq<Visit>, queryCount: nat, i: nat, q: nat) returns (j: nat)
    requires IsSweep(log, queryCount) && queryCount > 0 && i < |log| && q < log[i].queryIndex
    ensures j < i && log[j].queryIndex == q && !HasMore(log[j])
    decreases log[i].queryIndex
  {
    QueriesComeInOrder(log, queryCount, i);
    j := i - log[i].page;
    if log[j].queryIndex > q {
      j := EarlierQueriesAreDone(log, queryCount, j, q);
    }
  }

  /**
   No page with results is skipped: when a query is read, every earlier query has been read page
   by page up to one that was not full, that reached the query's total, or that was the tenth.
   */
  lemma NoPageIsSkipped(log: seq<Visit>, queryCount: nat, i: nat, q: nat) returns (j: nat)
    requires IsSweep(log, queryCount) && queryCount > 0 && i < |log| && q < log[i].queryIndex
    ensures j < i && log[j].queryIndex == q && j + 1 >= log[j].page
    ensures log[j].items < 100 || 100 * log[j].page >= log[j].totalCount || log[j].page == 10
    ensures forall k | j - log[j].page < k <= j :: log[k].queryIndex == q && log[k].page == log[j].page - (j - k)
  {
    j := EarlierQueriesAreDone(log, queryCount, i, q);
    PagesComeInOrder(log, queryCount, j);
  }

  /** And a full page with more results behind it, before the tenth, is followed by the next page of its query. */
  lemma MoreIsReadNext(log: seq<Visit>, queryCount: nat, i: nat)
    requires IsSweep(log, queryCount) && queryCount > 0 && i + 1 < |log|
    requires log[i].items >= 100 && 100 * log[i].page < log[i].totalCount && log[i].page < 10
    ensures log[i + 1].queryIndex == log[i].queryIndex && log[i + 1].page == log[i].page + 1
  {
    Succession(log, queryCount, i);
    Succession(log, queryCount, i + 1);
  }

  // ---------------------------------------------------------------- termination

  /** Pages left in the sweep at most, counting this one. */
  function Remaining(c: Cursor, queryCount: nat): int {
    (queryCount - c.queryIndex) * LAST_PAGE - (c.page - 1)
  }

  lemma RemainingFalls(v: Visit, queryCount: nat)
    requires InRange(Cursor(v.queryIndex, v.page), queryCount)
    ensures 0 <= Remaining(Following(v), queryCount) < Remaining(Cursor(v.queryIndex, v.page), queryCount)
    ensures EndsSweep(v, queryCount) <==> !InRange(Following(v), queryCount)
  {
  }

  /** However runs are cut, the completed pages reach the end of the sweep within the pages that remained. */
  lemma {:induction false} SweepEnds(log: seq<Visit>, queryCount: nat, i: nat) returns (j: nat)
    requires IsSweep(log, queryCount) && queryCount > 0 && i < |log|
    requires i + Remaining(Cursor(log[i].queryIndex, log[i].page), queryCount) <= |log|
    ensures i <= j < i + Remaining(Cursor(log[i].queryIndex, log[i].page), queryCount) && j < |log|
    ensures EndsSweep(log[j], queryCount)
    decreases |log| - i
  {
    PagesComeInOrder(log, queryCount, i);
    assert IsNext(log, queryCount, i);
    RemainingFalls(log[i], queryCount);
    j := i;
    if !EndsSweep(log[i], queryCount) {
      Succession(log, queryCount, i + 1);
      j := SweepEnds(log, queryCount, i + 1);
    }
  }
}
