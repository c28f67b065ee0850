/**
 * The forecast pipeline's Metaculus processing (cafe/forecast/processing/metaculus.py):
 * loading comments, filtering questions, and attaching every comment to the latest forecast
 * snapshot not after it, found by `bisect_right` over the snapshots' end times.
 */
module ForecastMetaculus {
  import opened Py
  import opened Filtering
  import opened Alignment
  import opened QuestionData
  import SourceLocal
  import Records
  import ForecastHelpers

  // ---------------------------------------------------------------------------------------
  // Loading comments

  /** A single comments file: its `comments_by_question` member if it has one, else all of it. */
  function FileComments(obj: Value): Value
  {
    if obj.Dict? && "comments_by_question" in obj.fields then obj.fields["comments_by_question"] else obj
  }

  /** What one file of a directory contributes: its `data`, else its `comments_by_question`, else all of it. */
  function DirFileComments(obj: Value): (r: Value)
    ensures obj.Dict? && "data" in obj.fields ==> r == obj.fields["data"]
    ensures obj.Dict? && "data" !in obj.fields ==> r == FileComments(obj)
    ensures !obj.Dict? ==> r == obj
  {
    if obj.Dict? && "data" in obj.fields then obj.fields["data"] else FileComments(obj)
  }

  /** No file after file `k` has the stem of file `k`. */
  ghost predicate LastWithStem(files: seq<(string, Value)>, k: nat, upTo: nat)
    requires k < upTo <= |files|
  {
    forall j | k < j < upTo :: files[j].0 != files[k].0
  }

  /**
   * `load_comments`: a file as `FileComments` reads it; a directory as a dict from each
   * file's stem to what that file contributes, a later file replacing an earlier one with
   * the same stem; FileNotFoundError for anything else.
   */
  method LoadComments(path: Path) returns (r: Result<Value>)
    ensures path.Missing? <==> r.Err?
    ensures r.Err? ==> r.error == FileNotFound
    ensures path.File? ==> r == Ok(FileComments(path.content))
    ensures path.Dir? ==> r.Ok? && r.value.Dict?
    ensures path.Dir? && r.Ok? && r.value.Dict? ==>
              r.value.fields.Keys == (set k | 0 <= k < |path.files| :: path.files[k].0)
    ensures path.Dir? && r.Ok? && r.value.Dict? ==>
              forall k | 0 <= k < |path.files| && LastWithStem(path.files, k, |path.files|) ::
                r.value.fields[path.files[k].0] == DirFileComments(path.files[k].1)
  {
    match path
    case File(obj) =>
      return Ok(FileComments(obj));
    case Missing =>
      return Err(FileNotFound);
    case Dir(files) =>
      var result: map<string, Value> := map[];
      var i := 0;
      while i < |files|
        invariant 0 <= i <= |files|
        invariant result.Keys == set k | 0 <= k < i :: files[k].0
        invariant forall k | 0 <= k < i && LastWithStem(files, k, i) :: result[files[k].0] == DirFileComments(files[k].1)
      {
        var (stem, obj) := files[i];
        result := result[stem := DirFileComments(obj)];
        i := i + 1;
        forall k | 0 <= k < i && LastWithStem(files, k, i)
          ensures result[files[k].0] == DirFileComments(files[k].1)
        {
          if k < i - 1 {
            assert LastWithStem(files, k, i - 1);
          }
        }
        assert (set k | 0 <= k < i :: files[k].0) == (set k | 0 <= k < i - 1 :: files[k].0) + {stem} by {
          var next := set k | 0 <= k < i :: files[k].0;
          forall id | id in next ensures id in (set k | 0 <= k < i - 1 :: files[k].0) + {stem} {
            var k :| 0 <= k < i && files[k].0 == id;
          }
          assert files[i - 1].0 in next;
        }
      }
      return Ok(Dict(result));
  }

  // ---------------------------------------------------------------------------------------
  // Filtering questions

  /** The keyword arguments of `filter_questions`; dates are ISO strings. */
  datatype QuestionFilter = QuestionFilter(
    status: Option<string>,
    tag: Option<string>,
    minForecasters: Option<int>,
    createdAfter: Option<string>,
    createdBefore: Option<string>,
    hasResolutionCriteria: Option<bool>,
    minComments: Option<int>,
    custom: Option<Obj -> bool>)

  const NoFilter: QuestionFilter := QuestionFilter(None, None, None, None, None, None, None, None)

  /** A string argument that is given and non-empty, so `if s` holds. */
  predicate Given(s: Option<string>)
  {
    s.Some? && s.value != ""
  }

  /** `if min_forecasters` holds. */
  predicate CountGiven(n: Option<int>)
  {
    n.Some? && n.value != 0
  }

  /** `q.get("community_prediction", {}).get("num_forecasters")`. */
  function NumForecasters(q: Obj): Result<Value>
  {
    GetFrom(Get(q, "community_prediction", Dict(map[])), "num_forecasters")
  }

  /** What a question that survives the direct loop satisfies. */
  ghost predicate MeetsDirect(q: Obj, f: QuestionFilter)
  {
    (Given(f.status) ==> Get(q, "status") == Str(f.status.value)) &&
    (Given(f.tag) ==> Contains(Or(Get(q, "tags"), List([])), f.tag.value) == Ok(true)) &&
    (CountGiven(f.minForecasters) ==>
       NumForecasters(q).Ok? && IsNumber(NumForecasters(q).value) &&
       NumberOf(NumForecasters(q).value) >= f.minForecasters.value)
  }

  /** One iteration of the direct loop: status, then tag, then the forecaster count. */
  function DirectKeep(q: Obj, f: QuestionFilter): (r: Result<bool>)
    ensures r == Ok(true) <==> MeetsDirect(q, f)
    ensures r.Err? ==> r.error == TypeError || r.error == AttributeError
  {
    if Given(f.status) && Get(q, "status") != Str(f.status.value) then Ok(false)
    else
      var hasTag :- if Given(f.tag) then Contains(Or(Get(q, "tags"), List([])), f.tag.value) else Ok(true);
      if !hasTag then Ok(false)
      else if CountGiven(f.minForecasters) then
        var fc :- NumForecasters(q);
        if fc == Null then Ok(false)
        else
          var few :- Less(fc, Int(f.minForecasters.value));
          Ok(!few)
      else Ok(true)
  }

  function DirectKeeps(f: QuestionFilter): Obj -> Result<bool>
  {
    q => DirectKeep(q, f)
  }

  /** The direct `for` loop of `filter_questions`. */
  method DirectFilter(questions: seq<Obj>, f: QuestionFilter) returns (r: Result<seq<Obj>>)
    ensures r == Filter(questions, DirectKeeps(f))
  {
    var filtered: seq<Obj> := [];
    var i := 0;
    while i < |questions|
      invariant 0 <= i <= |questions|
      invariant Filter(questions[..i], DirectKeeps(f)) == Ok(filtered)
    {
      var q := questions[i];
      FilterStep(questions, i, DirectKeeps(f), filtered);
      i := i + 1;
      if Given(f.status) && Get(q, "status") != Str(f.status.value) {
        continue;
      }
      if Given(f.tag) {
        var hasTag := Contains(Or(Get(q, "tags"), List([])), f.tag.value);
        if hasTag.Err? {
          FilterErrPrefix(questions, i, DirectKeeps(f));
          return Err(hasTag.error);
        }
        if !hasTag.value {
          continue;
        }
      }
      if CountGiven(f.minForecasters) {
        var fc := NumForecasters(q);
        if fc.Err? {
          FilterErrPrefix(questions, i, DirectKeeps(f));
          return Err(fc.error);
        }
        if fc.value == Null {
          continue;
        }
        var few := Less(fc.value, Int(f.minForecasters.value));
        if few.Err? {
          FilterErrPrefix(questions, i, DirectKeeps(f));
          return Err(few.error);
        }
        if few.value {
          continue;
        }
      }
      filtered := filtered + [q];
    }
    assert questions[..i] == questions;
    return Ok(filtered);
  }

  /** `datetime.fromisoformat(s) if s else None`. */
  function ParseBound(s: Option<string>, parseIso: SourceLocal.IsoParser): (r: Result<Option<int>>)
    ensures !Given(s) ==> r == Ok(None)
    ensures Given(s) ==> (r.Ok? <==> parseIso(s.value).Some?) && (r.Ok? ==> r.value == parseIso(s.value))
    ensures r.Err? ==> r.error == ValueError
  {
    if !Given(s) then Ok(None)
    else if parseIso(s.value).Some? then Ok(parseIso(s.value))
    else Err(ValueError)
  }

  // The metadata stage as written: the record helper reads attributes of what it is given,
  // and it is given dicts.

  /**
   * One iteration of `filter_questions_by_metadata` run on a dict: `q.created_at`,
   * `q.resolution_criteria` and `q.tags` raise AttributeError, and `hasattr(q, "comments")`
   * is False, so `min_comments` never applies.
   */
  function HelperOnDictKeep(q: Obj, f: QuestionFilter, after: Option<int>, before: Option<int>): (r: Result<bool>)
    ensures r.Err? <==> after.Some? || before.Some? || f.hasResolutionCriteria.Some? || Given(f.tag)
    ensures r.Err? ==> r.error == AttributeError
    ensures r.Ok? ==> (r.value <==> f.custom.None? || f.custom.value(q))
  {
    if after.Some? then Err(AttributeError)
    else if before.Some? then Err(AttributeError)
    else if f.hasResolutionCriteria.Some? then Err(AttributeError)
    else if Given(f.tag) then Err(AttributeError)
    else Ok(f.custom.None? || f.custom.value(q))
  }

  function HelperOnDictKeeps(f: QuestionFilter, after: Option<int>, before: Option<int>): Obj -> Result<bool>
  {
    q => HelperOnDictKeep(q, f, after, before)
  }

  /** The record helper's loop, run over the dicts the direct loop kept. */
  method HelperOnDicts(questions: seq<Obj>, f: QuestionFilter, after: Option<int>, before: Option<int>)
    returns (r: Result<seq<Obj>>)
    ensures r == Filter(questions, HelperOnDictKeeps(f, after, before))
  {
    var filtered: seq<Obj> := [];
    var i := 0;
    while i < |questions|
      invariant 0 <= i <= |questions|
      invariant Filter(questions[..i], HelperOnDictKeeps(f, after, before)) == Ok(filtered)
    {
      var q := questions[i];
      FilterStep(questions, i, HelperOnDictKeeps(f, after, before), filtered);
      i := i + 1;
      if after.Some? || before.Some? || f.hasResolutionCriteria.Some? || Given(f.tag) {
        FilterErrPrefix(questions, i, HelperOnDictKeeps(f, after, before));
        return Err(AttributeError);
      }
      if f.custom.Some? && !f.custom.value(q) {
        continue;
      }
      filtered := filtered + [q];
    }
    assert questions[..i] == questions;
    return Ok(filtered);
  }

  /** What `filter_questions` computes as written. */
  function AsWrittenResult(questions: seq<Obj>, f: QuestionFilter, parseIso: SourceLocal.IsoParser): Result<seq<Obj>>
  {
    var after :- ParseBound(f.createdAfter, parseIso);
    var before :- ParseBound(f.createdBefore, parseIso);
    var direct :- Filter(questions, DirectKeeps(f));
    Filter(direct, HelperOnDictKeeps(f, after, before))
  }

  /** `filter_questions` as written: the direct loop, then the record helper applied to dicts. */
  method FilterQuestionsAsWritten(questions: seq<Obj>, f: QuestionFilter, parseIso: SourceLocal.IsoParser)
    returns (r: Result<seq<Obj>>)
    ensures r == AsWrittenResult(questions, f, parseIso)
  {
    var after :- ParseBound(f.createdAfter, parseIso);
    var before :- ParseBound(f.createdBefore, parseIso);
    var direct :- DirectFilter(questions, f);
    r := HelperOnDicts(direct, f, after, before);
  }

  /**
   * As written, giving `tag`, `has_resolution_criteria`, `created_after` or `created_before`
   * makes `filter_questions` raise AttributeError as soon as one question survives the
   * direct loop.
   */
  lemma AsWrittenRaisesOnMetadata(questions: seq<Obj>, f: QuestionFilter, parseIso: SourceLocal.IsoParser)
    requires ParseBound(f.createdAfter, parseIso).Ok? && ParseBound(f.createdBefore, parseIso).Ok?
    requires Filter(questions, DirectKeeps(f)).Ok? && Filter(questions, DirectKeeps(f)).value != []
    requires Given(f.createdAfter) || Given(f.createdBefore) || f.hasResolutionCriteria.Some? || Given(f.tag)
    ensures AsWrittenResult(questions, f, parseIso) == Err(AttributeError)
  {
    var after := ParseBound(f.createdAfter, parseIso).value;
    var before := ParseBound(f.createdBefore, parseIso).value;
    var direct := Filter(questions, DirectKeeps(f)).value;
    var keep := HelperOnDictKeeps(f, after, before);
    assert keep(direct[0]) == Err(AttributeError);
    assert direct[..1][..0] == [];
    assert Filter(direct[..1], keep) == Err(AttributeError);
    FilterErrPrefix(direct, 1, keep);
  }

  /** The direct loop keeps a question tagged "ai" when asked for that tag. */
  lemma TaggedPassesDirect()
    ensures Filter([map["tags" := List([Str("ai")])]], DirectKeeps(NoFilter.(tag := Some("ai")))) ==
            Ok([map["tags" := List([Str("ai")])]])
  {
    var q: Obj := map["tags" := List([Str("ai")])];
    var f := NoFilter.(tag := Some("ai"));
    assert Get(q, "tags") == List([Str("ai")]);
    assert Contains(Or(Get(q, "tags"), List([])), "ai") == Ok(true);
    assert DirectKeeps(f)(q) == Ok(true);
    assert [q][..0] == [] && [] + [q] == [q];
    FilterStep([q], 0, DirectKeeps(f), []);
    assert [q][..1] == [q];
  }

  /** The smallest case: one question tagged "ai", filtered by that tag, raises as written. */
  method TagFilterCounterexample(parseIso: SourceLocal.IsoParser) returns (r: Result<seq<Obj>>)
    ensures r == Err(AttributeError)
  {
    var q: Obj := map["tags" := List([Str("ai")])];
    var f := NoFilter.(tag := Some("ai"));
    TaggedPassesDirect();
    AsWrittenRaisesOnMetadata([q], f, parseIso);
    r := FilterQuestionsAsWritten([q], f, parseIso);
  }

  // The metadata stage as intended: the helper applied to record views of the dicts.

  /** The record `_parse_question` builds from a question dict. */
  function View(q: Obj, parseIso: SourceLocal.IsoParser): (r: Records.Question)
    ensures r.raw == Dict(q)
  {
    SourceLocal.ParseQuestion(Dict(q), parseIso).value
  }

  function ViewOf(parseIso: SourceLocal.IsoParser): Obj -> Records.Question
  {
    q => View(q, parseIso)
  }

  function Views(qs: seq<Obj>, parseIso: SourceLocal.IsoParser): (r: seq<Records.Question>)
    ensures |r| == |qs|
  {
    MapSeq(qs, ViewOf(parseIso))
  }

  /** The dicts the records were built from. */
  function Raws(rs: seq<Records.Question>): (r: seq<Obj>)
    ensures |r| == |rs|
  {
    seq(|rs|, i requires 0 <= i < |rs| => if rs[i].raw.Dict? then rs[i].raw.fields else map[])
  }

  lemma RawsOfViews(qs: seq<Obj>, parseIso: SourceLocal.IsoParser)
    ensures Raws(Views(qs, parseIso)) == qs
  {
  }

  /** The dict predicate, asked of the dict a record was built from. */
  function OnRaw(p: Obj -> bool): Records.Question -> bool
  {
    (rec: Records.Question) => rec.raw.Dict? && p(rec.raw.fields)
  }

  /** The helper's arguments as `filter_questions` passes them. */
  function RecordFilterOf(f: QuestionFilter, after: Option<int>, before: Option<int>): ForecastHelpers.MetadataFilter
  {
    ForecastHelpers.MetadataFilter(after, before, f.hasResolutionCriteria, f.minComments, f.tag,
                                   if f.custom.Some? then Some(OnRaw(f.custom.value)) else None)
  }

  function ViewKeeps(rf: ForecastHelpers.MetadataFilter, parseIso: SourceLocal.IsoParser): Obj -> Result<bool>
  {
    Pullback(ViewOf(parseIso), ForecastHelpers.Keeps(rf))
  }



  /** What `filter_questions` evidently means to compute. */
  function IntendedResult(questions: seq<Obj>, f: QuestionFilter, parseIso: SourceLocal.IsoParser): Result<seq<Obj>>
  {
    var after :- ParseBound(f.createdAfter, parseIso);
    var before :- ParseBound(f.createdBefore, parseIso);
    var direct :- Filter(questions, DirectKeeps(f));
    Filter(direct, ViewKeeps(RecordFilterOf(f, after, before), parseIso))
  }

  /** `filter_questions` with the helper given the records it is written for. */
  method FilterQuestions(questions: seq<Obj>, f: QuestionFilter, parseIso: SourceLocal.IsoParser)
    returns (r: Result<seq<Obj>>)
    ensures r == IntendedResult(questions, f, parseIso)
  {
    var after :- ParseBound(f.createdAfter, parseIso);
    var before :- ParseBound(f.createdBefore, parseIso);
    var direct :- DirectFilter(questions, f);
    var rf := RecordFilterOf(f, after, before);
    var views := Views(direct, parseIso);
    FilterMapped(direct, ViewOf(parseIso), ForecastHelpers.Keeps(rf));
    var kept :- ForecastHelpers.FilterByMetadata(views, rf);
    RawsOfViews(Filter(direct, ViewKeeps(rf, parseIso)).value, parseIso);
    r := Ok(Raws(kept));
  }

  /**
   * The intended filter keeps, in order, exactly the questions that pass the direct loop and
   * whose records meet every metadata constraint.
   */
  lemma FilterQuestionsKeepsExactly(questions: seq<Obj>, f: QuestionFilter, parseIso: SourceLocal.IsoParser)
    requires IntendedResult(questions, f, parseIso).Ok?
    ensures var after := ParseBound(f.createdAfter, parseIso).value;
            var before := ParseBound(f.createdBefore, parseIso).value;
            var rf := RecordFilterOf(f, after, before);
            var kept := IntendedResult(questions, f, parseIso).value;
            IsSubsequence(kept, questions) &&
            (forall q | q in kept :: MeetsDirect(q, f) && ForecastHelpers.MeetsMetadata(View(q, parseIso), rf)) &&
            (forall q | q in questions && MeetsDirect(q, f) && ForecastHelpers.MeetsMetadata(View(q, parseIso), rf) ::
               q in kept)
  {
    var after := ParseBound(f.createdAfter, parseIso).value;
    var before := ParseBound(f.createdBefore, parseIso).value;
    var rf := RecordFilterOf(f, after, before);
    var first, second := DirectKeeps(f), ViewKeeps(rf, parseIso);
    var direct := Filter(questions, first).value;
    var kept := Filter(direct, second).value;
    FilterThen(questions, first, second);
    FilterIsSubsequence(questions, Then(first, second));
    FilterMembers(questions, first);
    FilterMembers(direct, second);
    forall q | q in kept ensures MeetsDirect(q, f) && ForecastHelpers.MeetsMetadata(View(q, parseIso), rf) {
      assert second(q) == Ok(true);
      SubsequenceElements(kept, direct) by { FilterIsSubsequence(direct, second); }
      assert first(q) == Ok(true);
    }
    forall q | q in questions && MeetsDirect(q, f) && ForecastHelpers.MeetsMetadata(View(q, parseIso), rf)
      ensures q in kept
    {
      assert first(q) == Ok(true);
      assert second(q) == Ok(true);
    }
  }

  /** Filtered by the tag it carries, the one-question case keeps its question. */
  lemma TagFilterIntended(parseIso: SourceLocal.IsoParser)
    ensures IntendedResult([map["tags" := List([Str("ai")])]], NoFilter.(tag := Some("ai")), parseIso) ==
            Ok([map["tags" := List([Str("ai")])]])
  {
    var q: Obj := map["tags" := List([Str("ai")])];
    var f := NoFilter.(tag := Some("ai"));
    TaggedPassesDirect();
    var rf := RecordFilterOf(f, None, None);
    assert View(q, parseIso).tags == List([Str("ai")]);
    assert ForecastHelpers.MeetsMetadata(View(q, parseIso), rf);
    assert ViewKeeps(rf, parseIso)(q) == Ok(true);
  }

  // ---------------------------------------------------------------------------------------
  // Aligning comments with forecast snapshots

  /**
   * `bisect.bisect_right(a, x, lo, hi)`: the binary search of the standard library, which
   * asks `x < a[mid]` and raises when that comparison does.
   */
  function BisectFrom(a: seq<Value>, x: Value, lo: nat, hi: nat): (r: Result<nat>)
    requires lo <= hi <= |a|
    ensures r.Ok? ==> lo <= r.value <= hi
    decreases hi - lo
  {
    if lo == hi then Ok(lo)
    else
      var mid := (lo + hi) / 2;
      var before :- Less(x, a[mid]);
      if before then BisectFrom(a, x, lo, mid) else BisectFrom(a, x, mid + 1, hi)
  }

  function BisectRight(a: seq<Value>, x: Value): (r: Result<nat>)
    ensures r.Ok? ==> r.value <= |a|
  {
    BisectFrom(a, x, 0, |a|)
  }

  predicate AllNumbers(a: seq<Value>)
  {
    forall k | 0 <= k < |a| :: IsNumber(a[k])
  }

  /** The end times are numbers in non-decreasing order, which nothing in the pipeline checks. */
  predicate Ascending(a: seq<Value>)
  {
    AllNumbers(a) && forall i, j | 0 <= i < j < |a| :: NumberOf(a[i]) <= NumberOf(a[j])
  }

  /** The element just before position `p`, if any, is not after `x`. */
  predicate NotAfterBefore(a: seq<Value>, x: int, p: nat)
    requires p <= |a| && AllNumbers(a)
  {
    p == 0 || NumberOf(a[p - 1]) <= x
  }

  /** The element at position `p`, if any, is after `x`. */
  predicate AfterAt(a: seq<Value>, x: int, p: nat)
    requires p <= |a| && AllNumbers(a)
  {
    p == |a| || x < NumberOf(a[p])
  }

  /**
   * On numbers the search succeeds and, sorted or not, stops between an element not after
   * `x` and an element after it.
   */
  lemma {:induction false} BisectBrackets(a: seq<Value>, x: int, lo: nat, hi: nat)
    requires lo <= hi <= |a| && AllNumbers(a)
    requires NotAfterBefore(a, x, lo) && AfterAt(a, x, hi)
    ensures var r := BisectFrom(a, Int(x), lo, hi);
            r.Ok? && NotAfterBefore(a, x, r.value) && AfterAt(a, x, r.value)
    decreases hi - lo
  {
    if lo < hi {
      var mid := (lo + hi) / 2;
      BisectStep(a, x, lo, hi);
      if x < NumberOf(a[mid]) {
        BisectBrackets(a, x, lo, mid);
      } else {
        BisectBrackets(a, x, mid + 1, hi);
      }
    }
  }

  /** One halving step of the search, on a number in the middle. */
  lemma BisectStep(a: seq<Value>, x: int, lo: nat, hi: nat)
    requires lo < hi <= |a| && IsNumber(a[(lo + hi) / 2])
    ensures var mid := (lo + hi) / 2;
            BisectFrom(a, Int(x), lo, hi) ==
              if x < NumberOf(a[mid]) then BisectFrom(a, Int(x), lo, mid) else BisectFrom(a, Int(x), mid + 1, hi)
  {
  }

  /** On ascending times `bisect_right` counts the times not after `x`. */
  lemma BisectRightSorted(a: seq<Value>, x: int)
    requires Ascending(a)
    ensures var r := BisectRight(a, Int(x));
            r.Ok? &&
            (forall i | 0 <= i < r.value :: NumberOf(a[i]) <= x) &&
            (forall i | r.value <= i < |a| :: x < NumberOf(a[i]))
  {
    BisectBrackets(a, x, 0, |a|);
    var r := BisectRight(a, Int(x)).value;
    assert NotAfterBefore(a, x, r) && AfterAt(a, x, r);
    forall i | 0 <= i < r ensures NumberOf(a[i]) <= x {
      assert NumberOf(a[i]) <= NumberOf(a[r - 1]);
    }
    forall i | r <= i < |a| ensures x < NumberOf(a[i]) {
      assert NumberOf(a[r]) <= NumberOf(a[i]);
    }
  }

  /** `bisect_right(forecast_times, parse_time(c["created_at"])) - 1`. */
  function CommentSlot(c: Value, times: seq<Value>, parse: TimeParser): (r: Result<int>)
    ensures r.Ok? ==> -1 <= r.value < |times|
  {
    var ctime :- CreatedTime(c, parse);
    var pos :- BisectRight(times, Int(ctime));
    Ok(pos - 1)
  }

  function BisectSlot(times: seq<Value>, parse: TimeParser): Value -> Result<int>
  {
    c => CommentSlot(c, times, parse)
  }

  /**
   * With ascending end times, a comment goes to the latest snapshot not after it, and is
   * dropped (slot -1) when every snapshot is after it.
   */
  lemma CommentGoesToLatestPreceding(c: Value, times: seq<Value>, parse: TimeParser)
    requires Ascending(times) && CreatedTime(c, parse).Ok?
    ensures var t, s := CreatedTime(c, parse).value, CommentSlot(c, times, parse);
            s.Ok? &&
            (s.value >= 0 ==> NumberOf(times[s.value]) <= t) &&
            (forall i | s.value < i < |times| :: t < NumberOf(times[i])) &&
            (s.value == -1 <==> forall i | 0 <= i < |times| :: t < NumberOf(times[i]))
  {
    BisectRightSorted(times, CreatedTime(c, parse).value);
  }

  /**
   * The series `link_comments_to_forecasts` stores for one question. `comments_by_qid` is
   * whatever `load_comments` returned, so `.get` on it raises when it is not a dict.
   */
  function SeriesFor(q: Obj, commentsByQid: Value, parse: TimeParser): Result<seq<Entry>>
  {
    var forecasts :- ResolveHistory(q);
    var snaps :- Filter(forecasts, HasEndTime);
    var stored :- GetFrom(commentsByQid, QidOf(q), List([]));
    var cs :- CommentList(stored);
    var slots :- MapResult(cs, BisectSlot(EndTimes(snaps), parse));
    Ok(Attached(BaseSeries(snaps), cs, slots))
  }

  /** The body of the loop over questions: build the series, then attach each comment in turn. */
  method LinkQuestion(q: Obj, commentsByQid: Value, parse: TimeParser) returns (r: Result<seq<Entry>>)
    ensures r == SeriesFor(q, commentsByQid, parse)
  {
    var forecasts :- ResolveHistory(q);
    var snaps :- Filter(forecasts, HasEndTime);
    var times := EndTimes(snaps);
    var series := BaseSeries(snaps);
    var stored :- GetFrom(commentsByQid, QidOf(q), List([]));
    var comments :- CommentList(stored);
    ghost var slots: seq<int> := [];
    var k := 0;
    AttachLoopStart(series, comments, BisectSlot(times, parse));
    while k < |comments|
      invariant 0 <= k <= |comments|
      invariant AttachedPrefix(BaseSeries(snaps), comments, k, BisectSlot(times, parse), slots, series)
    {
      var c := comments[k];
      var slot := CommentSlot(c, times, parse);
      if slot.Err? {
        AttachLoopRaise(BaseSeries(snaps), comments, k, BisectSlot(times, parse), slots, series);
        return Err(slot.error);
      }
      AttachLoopStep(BaseSeries(snaps), comments, k, BisectSlot(times, parse), slots, series, slot.value);
      if slot.value >= 0 {
        series := series[slot.value := series[slot.value].(comments := series[slot.value].comments + [c])];
      }
      slots := slots + [slot.value];
      k := k + 1;
    }
    AttachLoopEnd(BaseSeries(snaps), comments, BisectSlot(times, parse), slots, series);
    return Ok(series);
  }

  /** The series of each question, as the loop over questions computes it. */
  function Linker(commentsByQid: Value, parse: TimeParser): Obj -> Result<seq<Entry>>
  {
    q => SeriesFor(q, commentsByQid, parse)
  }

  /**
   * `link_comments_to_forecasts`: the loop over questions `LinkAll` describes, each series
   * built by `LinkQuestion`.
   */
  method LinkCommentsToForecasts(questions: seq<Obj>, commentsByQid: Value, parse: TimeParser)
    returns (r: Result<map<string, seq<Entry>>>)
    ensures r == LinkAll(questions, Linker(commentsByQid, parse))
  {
    var result: map<string, seq<Entry>> := map[];
    var i := 0;
    while i < |questions|
      invariant 0 <= i <= |questions|
      invariant LinkAll(questions[..i], Linker(commentsByQid, parse)) == Ok(result)
    {
      var q := questions[i];
      LinkAllStep(questions, i, Linker(commentsByQid, parse), result);
      var s := LinkQuestion(q, commentsByQid, parse);
      i := i + 1;
      if s.Err? {
        LinkAllErrPrefix(questions, i, Linker(commentsByQid, parse));
        return Err(s.error);
      }
      result := result[QidOf(q) := s.value];
    }
    assert questions[..i] == questions;
    return Ok(result);
  }

  /**
   * A `comments_by_qid` that is not a dict raises AttributeError at `.get` for the first
   * question whose history resolves, whatever its comments would have been.
   */
  lemma NonDictCommentsRaise(q: Obj, commentsByQid: Value, parse: TimeParser)
    requires !commentsByQid.Dict?
    requires ResolveHistory(q).Ok? && Filter(ResolveHistory(q).value, HasEndTime).Ok?
    ensures SeriesFor(q, commentsByQid, parse) == Err(AttributeError)
  {
  }

  /**
   * A comments file that is a flat JSON list loads as that list, and linking any question
   * against it then raises AttributeError.
   */
  lemma FlatListFileRaisesAtLink(comments: seq<Value>, parse: TimeParser)
    ensures FileComments(List(comments)) == List(comments)
    ensures LinkAll([map[]], Linker(FileComments(List(comments)), parse)) == Err(AttributeError)
  {
    assert ResolveHistory(map[]) == Ok([]);
    assert Filter([], HasEndTime) == Ok([]);
    assert SeriesFor(map[], List(comments), parse) == Err(AttributeError);
    LinkAllFirstError([map[]], Linker(List(comments), parse));
  }
}
