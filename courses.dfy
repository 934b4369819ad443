/**
 * Course progress: which module cards can be opened, the list of completed
 * modules, and the note-sequence exercise that closes module 13.
 *
 * Module ids are the decimal numbers the page stores as strings ("1", "2",
 * …); here they are integers, so `parseInt(id) - 1` is `id - 1`.
 */
module Courses {

  // ---------------------------------------------------------------------------
  // Unlocking
  // ---------------------------------------------------------------------------

  /** What `updateProgressUI` shows on a module card. */
  datatype CardState = CardState(done: bool, canOpen: bool)

  /** The card of module `id`: done when completed; its open button is enabled
      when the module is done, is the first module, or follows a completed one,
      and disabled otherwise. */
  function ModuleCard(completed: seq<int>, id: int): (c: CardState)
    ensures c.done <==> id in completed
    ensures c.done ==> c.canOpen
    ensures c.canOpen <==> id in completed || id == 1 || id - 1 in completed
  {
    if id in completed then CardState(true, true)
    else CardState(false, id == 1 || id - 1 in completed)
  }

  /** Completing modules 1..k in any order opens exactly modules 1..k+1: the
      course unlocks one module at a time. */
  lemma {:induction false} SequentialUnlock(completed: seq<int>, k: nat, id: int)
    requires forall m :: m in completed <==> 1 <= m <= k
    requires id >= 1
    ensures ModuleCard(completed, id).canOpen <==> id <= k + 1
    ensures ModuleCard(completed, id).done <==> id <= k
  {
    if id <= k {
      assert id in completed;
    } else if id == k + 1 {
      assert id == 1 || id - 1 in completed;
    } else {
      assert id !in completed && id - 1 !in completed;
    }
  }

  // ---------------------------------------------------------------------------
  // The completed list
  // ---------------------------------------------------------------------------

  predicate NoDuplicates(s: seq<int>)
  {
    forall i, j :: 0 <= i < j < |s| ==> s[i] != s[j]
  }

  /** The update inside `updateUserProgress`: append the module unless it is
      already listed. The list keeps its order and gains only this module, and
      a list without duplicates stays so. */
  function AddCompleted(completed: seq<int>, id: int): (r: seq<int>)
    ensures id in r
    ensures forall m :: m in r <==> m in completed || m == id
    ensures |completed| <= |r| <= |completed| + 1 && r[..|completed|] == completed
    ensures NoDuplicates(completed) ==> NoDuplicates(r)
  {
    if id in completed then completed else completed + [id]
  }

  /** Completing a module twice changes nothing the second time. */
  lemma AddCompletedIdempotent(completed: seq<int>, id: int)
    ensures AddCompleted(AddCompleted(completed, id), id) == AddCompleted(completed, id)
  {
  }

  // ---------------------------------------------------------------------------
  // Module 13: the note-sequence exercise
  // ---------------------------------------------------------------------------

  /** The melody the student must transcribe, one select box per note. */
  const CorrectSequence: seq<string> := [
    "DÓ", "RÉ", "MI", "FÁ", "FÁ", "FÁ", "DÓ", "RÉ", "DÓ", "RÉ", "RÉ", "RÉ",
    "DÓ", "SOL", "FÁ", "MI", "MI", "MI", "DÓ", "RÉ", "MI", "FÁ", "FÁ", "FÁ"]

  /** Number of positions i < k where the choice equals the melody; a choice
      beyond the melody's end never matches (the source compares it with
      `undefined`). */
  function MatchCount(chosen: seq<string>, k: nat): nat
    requires k <= |chosen|
    decreases k
  {
    if k == 0 then 0
    else
      var hit := k - 1 < |CorrectSequence| && chosen[k - 1] == CorrectSequence[k - 1];
      MatchCount(chosen, k - 1) + (if hit then 1 else 0)
  }

  /** The counting loop of the "check notes" button. */
  method CountCorrect(chosen: seq<string>) returns (correct: nat)
    ensures correct == MatchCount(chosen, |chosen|)
  {
    correct := 0;
    var i := 0;
    while i < |chosen|
      invariant 0 <= i <= |chosen|
      invariant correct == MatchCount(chosen, i)
    {
      if i < |CorrectSequence| && chosen[i] == CorrectSequence[i] {
        correct := correct + 1;
      }
      i := i + 1;
    }
  }

  /** The first k choices all match the melody. */
  predicate AllMatch(chosen: seq<string>, k: nat)
    requires k <= |chosen|
  {
    forall i :: 0 <= i < k ==> Matches(chosen, i)
  }

  predicate Matches(chosen: seq<string>, i: nat)
    requires i < |chosen|
  {
    i < |CorrectSequence| && chosen[i] == CorrectSequence[i]
  }

  /** All of the first k choices match exactly when the count is k. */
  lemma {:induction false} MatchCountBound(chosen: seq<string>, k: nat)
    requires k <= |chosen|
    ensures MatchCount(chosen, k) <= k
    ensures MatchCount(chosen, k) == k <==> AllMatch(chosen, k)
    decreases k
  {
    if k > 0 {
      MatchCountBound(chosen, k - 1);
      assert MatchCount(chosen, k) == MatchCount(chosen, k - 1) + (if Matches(chosen, k - 1) then 1 else 0);
      if AllMatch(chosen, k) {
        assert Matches(chosen, k - 1);
        assert AllMatch(chosen, k - 1);
      }
      if MatchCount(chosen, k) == k {
        assert Matches(chosen, k - 1) && AllMatch(chosen, k - 1);
      }
    }
  }

  /** Choices past the melody's end add nothing to the count. */
  lemma {:induction false} MatchCountPastEnd(chosen: seq<string>, k: nat)
    requires |CorrectSequence| <= k <= |chosen|
    ensures MatchCount(chosen, k) == MatchCount(chosen, |CorrectSequence|)
    decreases k
  {
    if k > |CorrectSequence| {
      MatchCountPastEnd(chosen, k - 1);
    }
  }

  /** The exercise is complete (all 24 notes right) exactly when the first 24
      choices spell the melody. */
  lemma ExerciseComplete(chosen: seq<string>)
    ensures MatchCount(chosen, |chosen|) == |CorrectSequence| <==>
      |chosen| >= |CorrectSequence| && chosen[..|CorrectSequence|] == CorrectSequence
  {
    var n := |CorrectSequence|;
    if |chosen| < n {
      MatchCountBound(chosen, |chosen|);
    } else {
      MatchCountPastEnd(chosen, |chosen|);
      MatchCountBound(chosen, n);
      var prefix := chosen[..n];
      if AllMatch(chosen, n) {
        forall i | 0 <= i < n ensures prefix[i] == CorrectSequence[i] {
          assert Matches(chosen, i);
        }
      }
      if prefix == CorrectSequence {
        forall i | 0 <= i < n ensures Matches(chosen, i) {
          assert chosen[i] == prefix[i];
        }
      }
    }
  }
}
