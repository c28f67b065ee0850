/**
 * `filter_questions_by_metadata` over question records (cafe/forecast/processing/helpers.py):
 * one pass that skips a question as soon as one of its guards fails.
 */
module ForecastHelpers {
  import opened Py
  import opened Records
  import opened Filtering

  /**
   * The helper's keyword arguments. An absent bound, flag or count is None; so is the
   * predicate. Datetimes are epoch seconds, and a datetime is always truthy.
   */
  datatype MetadataFilter = MetadataFilter(
    createdAfter: Option<int>,
    createdBefore: Option<int>,
    hasResolutionCriteria: Option<bool>,
    minComments: Option<int>,
    tag: Option<string>,
    custom: Option<Question -> bool>)

  /** A filter with every argument left at its default of None. */
  const NoConstraints: MetadataFilter := MetadataFilter(None, None, None, None, None, None)

  /** `tag` is a non-empty string, so `if tag` holds. */
  predicate TagGiven(tag: Option<string>)
  {
    tag.Some? && tag.value != ""
  }

  /** What a kept question satisfies, one clause per argument. */
  ghost predicate MeetsMetadata(q: Question, f: MetadataFilter)
  {
    (f.createdAfter.Some? ==> q.createdAt.Some? && q.createdAt.value >= f.createdAfter.value) &&
    (f.createdBefore.Some? ==> q.createdAt.Some? && q.createdAt.value <= f.createdBefore.value) &&
    (f.hasResolutionCriteria.Some? ==> Truthy(q.resolutionCriteria) == f.hasResolutionCriteria.value) &&
    (f.minComments.Some? && q.comments.Some? ==>
       Len(q.comments.value).Ok? && Len(q.comments.value).value >= f.minComments.value) &&
    (TagGiven(f.tag) ==> Truthy(q.tags) && Contains(q.tags, f.tag.value) == Ok(true)) &&
    (f.custom.Some? ==> f.custom.value(q))
  }

  /**
   * The guards of one iteration, in the source's order; `len` of a comments value without
   * a length and `in` on tags that are not a container raise TypeError.
   */
  function MetadataKeep(q: Question, f: MetadataFilter): (r: Result<bool>)
    ensures r == Ok(true) <==> MeetsMetadata(q, f)
    ensures r.Err? ==> r.error == TypeError
  {
    if f.createdAfter.Some? && (q.createdAt.None? || q.createdAt.value < f.createdAfter.value) then Ok(false)
    else if f.createdBefore.Some? && (q.createdAt.None? || q.createdAt.value > f.createdBefore.value) then Ok(false)
    else if f.hasResolutionCriteria.Some? && Truthy(q.resolutionCriteria) != f.hasResolutionCriteria.value then Ok(false)
    else
      var count :- if f.minComments.Some? && q.comments.Some? then Len(q.comments.value) else Ok(0);
      if f.minComments.Some? && q.comments.Some? && count < f.minComments.value then Ok(false)
      else if TagGiven(f.tag) && !Truthy(q.tags) then Ok(false)
      else
        var hasTag :- if TagGiven(f.tag) then Contains(q.tags, f.tag.value) else Ok(true);
        if !hasTag then Ok(false)
        else Ok(f.custom.None? || f.custom.value(q))
  }

  function Keeps(f: MetadataFilter): Question -> Result<bool>
  {
    q => MetadataKeep(q, f)
  }

  /** `filter_questions_by_metadata`: the loop, its `continue` guards and its `append`. */
  method FilterByMetadata(questions: seq<Question>, f: MetadataFilter) returns (r: Result<seq<Question>>)
    ensures r == Filter(questions, Keeps(f))
  {
    var filtered: seq<Question> := [];
    var i := 0;
    while i < |questions|
      invariant 0 <= i <= |questions|
      invariant Filter(questions[..i], Keeps(f)) == Ok(filtered)
    {
      var q := questions[i];
      FilterStep(questions, i, Keeps(f), filtered);
      i := i + 1;
      if f.createdAfter.Some? && (q.createdAt.None? || q.createdAt.value < f.createdAfter.value) {
        continue;
      }
      if f.createdBefore.Some? && (q.createdAt.None? || q.createdAt.value > f.createdBefore.value) {
        continue;
      }
      if f.hasResolutionCriteria.Some? && Truthy(q.resolutionCriteria) != f.hasResolutionCriteria.value {
        continue;
      }
      if f.minComments.Some? && q.comments.Some? {
        var count := Len(q.comments.value);
        if count.Err? {
          FilterErrPrefix(questions, i, Keeps(f));
          return Err(count.error);
        }
        if count.value < f.minComments.value {
          continue;
        }
      }
      if TagGiven(f.tag) {
        if !Truthy(q.tags) {
          continue;
        }
        var hasTag := Contains(q.tags, f.tag.value);
        if hasTag.Err? {
          FilterErrPrefix(questions, i, Keeps(f));
          return Err(hasTag.error);
        }
        if !hasTag.value {
          continue;
        }
      }
      if f.custom.Some? && !f.custom.value(q) {
        continue;
      }
      filtered := filtered + [q];
    }
    assert questions[..i] == questions;
    return Ok(filtered);
  }

  /**
   * A successful filter keeps, in order, exactly the questions that meet every constraint:
   * `created_after` and `created_before` are inclusive bounds that a question without a
   * creation time never meets, and `min_comments` binds only questions carrying comments.
   */
  lemma FilteredMeetMetadata(questions: seq<Question>, f: MetadataFilter)
    requires Filter(questions, Keeps(f)).Ok?
    ensures var kept := Filter(questions, Keeps(f)).value;
            IsSubsequence(kept, questions) &&
            (forall q | q in kept :: MeetsMetadata(q, f)) &&
            (forall q | q in questions && MeetsMetadata(q, f) :: q in kept)
  {
    FilterIsSubsequence(questions, Keeps(f));
    FilterMembers(questions, Keeps(f));
    var kept := Filter(questions, Keeps(f)).value;
    forall q | q in kept ensures MeetsMetadata(q, f) {
      assert Keeps(f)(q) == Ok(true);
    }
    forall q | q in questions && MeetsMetadata(q, f) ensures q in kept {
      assert Keeps(f)(q) == Ok(true);
    }
  }

  /** With every argument None the helper returns its input unchanged. */
  lemma NoConstraintsKeepsAll(questions: seq<Question>)
    ensures Filter(questions, Keeps(NoConstraints)) == Ok(questions)
  {
    forall q | q in questions ensures Keeps(NoConstraints)(q) == Ok(true) {
      assert MeetsMetadata(q, NoConstraints);
    }
    FilterAllPass(questions, Keeps(NoConstraints));
  }

  /** The helper raises only when some question's comments or tags cannot be measured or searched. */
  lemma FilterRaisesOnlyTypeError(questions: seq<Question>, f: MetadataFilter)
    requires Filter(questions, Keeps(f)).Err?
    ensures Filter(questions, Keeps(f)).error == TypeError
  {
    FilterFirstError(questions, Keeps(f));
    var k :| 0 <= k < |questions| && Keeps(f)(questions[k]) == Err(Filter(questions, Keeps(f)).error);
    assert MetadataKeep(questions[k], f).Err?;
  }
}
