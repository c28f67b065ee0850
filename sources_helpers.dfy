/**
 * `filter_questions_by_metadata` over question dicts (cafe/sources/processing/helpers.py).
 * Unlike the record helper, creation bounds demand a `datetime` value, `min_comments` is
 * applied whenever it is not None, and tags must be a list.
 */
module SourcesHelpers {
  import opened Py
  import opened Filtering

  /** The helper's keyword arguments; datetimes are epoch seconds. */
  datatype DictFilter = DictFilter(
    createdAfter: Option<int>,
    createdBefore: Option<int>,
    hasResolutionCriteria: Option<bool>,
    minComments: Option<int>,
    tag: Option<string>,
    custom: Option<Obj -> bool>)

  const NoConstraints: DictFilter := DictFilter(None, None, None, None, None, None)

  predicate TagGiven(tag: Option<string>)
  {
    tag.Some? && tag.value != ""
  }

  /** `len(q.get("comments", []))`: a missing collection has length 0. */
  function CommentCount(q: Obj): Result<nat>
  {
    Len(Get(q, "comments", List([])))
  }

  /** What a kept question satisfies, one clause per argument. */
  ghost predicate MeetsMetadata(q: Obj, f: DictFilter)
  {
    (f.createdAfter.Some? ==>
       Get(q, "created_at").DateTime? && Get(q, "created_at").epoch >= f.createdAfter.value) &&
    (f.createdBefore.Some? ==>
       Get(q, "created_at").DateTime? && Get(q, "created_at").epoch <= f.createdBefore.value) &&
    (f.hasResolutionCriteria.Some? ==> Truthy(Get(q, "resolution_criteria")) == f.hasResolutionCriteria.value) &&
    (f.minComments.Some? ==> CommentCount(q).Ok? && CommentCount(q).value >= f.minComments.value) &&
    (TagGiven(f.tag) ==> Get(q, "tags").List? && Str(f.tag.value) in Get(q, "tags").items) &&
    (f.custom.Some? ==> f.custom.value(q))
  }

  /** The guards of one iteration, in the source's order; only `len` can raise. */
  function MetadataKeep(q: Obj, f: DictFilter): (r: Result<bool>)
    ensures r == Ok(true) <==> MeetsMetadata(q, f)
    ensures r.Err? <==> f.minComments.Some? && CommentCount(q).Err? &&
                        !(f.createdAfter.Some? && !(Get(q, "created_at").DateTime? && Get(q, "created_at").epoch >= f.createdAfter.value)) &&
                        !(f.createdBefore.Some? && !(Get(q, "created_at").DateTime? && Get(q, "created_at").epoch <= f.createdBefore.value)) &&
                        !(f.hasResolutionCriteria.Some? && Truthy(Get(q, "resolution_criteria")) != f.hasResolutionCriteria.value)
  {
    var createdAt := Get(q, "created_at");
    if f.createdAfter.Some? && (createdAt == Null || !createdAt.DateTime? || createdAt.epoch < f.createdAfter.value) then Ok(false)
    else if f.createdBefore.Some? && (createdAt == Null || !createdAt.DateTime? || createdAt.epoch > f.createdBefore.value) then Ok(false)
    else if f.hasResolutionCriteria.Some? && Truthy(Get(q, "resolution_criteria")) != f.hasResolutionCriteria.value then Ok(false)
    else
      var count :- if f.minComments.Some? then CommentCount(q) else Ok(0);
      if f.minComments.Some? && count < f.minComments.value then Ok(false)
      else
        var tags := Get(q, "tags");
        if TagGiven(f.tag) && (!Truthy(tags) || !tags.List? || Str(f.tag.value) !in tags.items) then Ok(false)
        else Ok(f.custom.None? || f.custom.value(q))
  }

  function Keeps(f: DictFilter): Obj -> Result<bool>
  {
    q => MetadataKeep(q, f)
  }

  /** `filter_questions_by_metadata`: the loop, its `continue` guards and its `append`. */
  method FilterByMetadata(questions: seq<Obj>, f: DictFilter) returns (r: Result<seq<Obj>>)
    ensures r == Filter(questions, Keeps(f))
  {
    var filtered: seq<Obj> := [];
    var i := 0;
    while i < |questions|
      invariant 0 <= i <= |questions|
      invariant Filter(questions[..i], Keeps(f)) == Ok(filtered)
    {
      var q := questions[i];
      FilterStep(questions, i, Keeps(f), filtered);
      i := i + 1;
      var createdAt := Get(q, "created_at");
      if f.createdAfter.Some? {
        if createdAt == Null || !createdAt.DateTime? || createdAt.epoch < f.createdAfter.value {
          continue;
        }
      }
      if f.createdBefore.Some? {
        if createdAt == Null || !createdAt.DateTime? || createdAt.epoch > f.createdBefore.value {
          continue;
        }
      }
      if f.hasResolutionCriteria.Some? && Truthy(Get(q, "resolution_criteria")) != f.hasResolutionCriteria.value {
        continue;
      }
      if f.minComments.Some? {
        var count := CommentCount(q);
        if count.Err? {
          FilterErrPrefix(questions, i, Keeps(f));
          return Err(count.error);
        }
        if count.value < f.minComments.value {
          continue;
        }
      }
      var tags := Get(q, "tags");
      if TagGiven(f.tag) {
        if !Truthy(tags) || !tags.List? || Str(f.tag.value) !in tags.items {
          continue;
        }
      }
      if f.custom.Some? && !f.custom.value(q) {
        continue;
      }
      filtered := filtered + [q];
    }
    assert questions[..i] == questions;
    return Ok(filtered);
  }

  /**
   * A successful filter keeps, in order, exactly the questions that meet every constraint:
   * bounded creation times must be datetimes within the inclusive bound, and a tag must be
   * an element of a list of tags.
   */
  lemma FilteredMeetMetadata(questions: seq<Obj>, f: DictFilter)
    requires Filter(questions, Keeps(f)).Ok?
    ensures var kept := Filter(questions, Keeps(f)).value;
            IsSubsequence(kept, questions) &&
            (forall q | q in kept :: MeetsMetadata(q, f)) &&
            (forall q | q in questions && MeetsMetadata(q, f) :: q in kept)
  {
    FilterIsSubsequence(questions, Keeps(f));
    FilterMembers(questions, Keeps(f));
    var kept := Filter(questions, Keeps(f)).value;
    forall q | q in kept ensures MeetsMetadata(q, f) {
      assert Keeps(f)(q) == Ok(true);
    }
    forall q | q in questions && MeetsMetadata(q, f) ensures q in kept {
      assert Keeps(f)(q) == Ok(true);
    }
  }

  /**
   * `min_comments=0` constrains nothing beyond the collection having a length, because the
   * guard tests `is not None` and no length is below zero.
   */
  lemma ZeroMinCommentsKeepsMeasurable(questions: seq<Obj>)
    requires forall q | q in questions :: CommentCount(q).Ok?
    ensures Filter(questions, Keeps(NoConstraints.(minComments := Some(0)))) == Ok(questions)
  {
    var f := NoConstraints.(minComments := Some(0));
    forall q | q in questions ensures Keeps(f)(q) == Ok(true) {
      assert MeetsMetadata(q, f);
    }
    FilterAllPass(questions, Keeps(f));
  }

  /** With every argument None the helper returns its input unchanged. */
  lemma NoConstraintsKeepsAll(questions: seq<Obj>)
    ensures Filter(questions, Keeps(NoConstraints)) == Ok(questions)
  {
    forall q | q in questions ensures Keeps(NoConstraints)(q) == Ok(true) {
      assert MeetsMetadata(q, NoConstraints);
    }
    FilterAllPass(questions, Keeps(NoConstraints));
  }
}
