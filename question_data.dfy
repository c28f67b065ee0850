/**
 * What cafe/forecast/processing/metaculus.py and cafe/sources/processing/metaculus.py define
 * identically: `load_questions`, `extract_question_metadata` and the value that
 * `export_time_series_with_comments` writes. Files are given already parsed.
 */
module QuestionData {
  import opened Py
  import opened Alignment

  /**
   * A path as the loaders see it: one parsed JSON file, a directory given as the stems and
   * parsed contents of its `*.json` files in the order `glob` yields them, or nothing.
   */
  datatype Path = File(content: Value) | Dir(files: seq<(string, Value)>) | Missing

  /** `load_questions`: the `data` member of a dict that has one, else the whole document. */
  function LoadQuestions(obj: Value): Value
  {
    if obj.Dict? && "data" in obj.fields then obj.fields["data"] else obj
  }

  /**
   * A dict document with a `data` member loads as that member, whatever it holds; every
   * other document (a list, a dict without `data`, a scalar) loads unchanged.
   */
  lemma LoadQuestionsUnwraps(data: Value, others: Obj, doc: Value)
    requires !(doc.Dict? && "data" in doc.fields)
    ensures LoadQuestions(Dict(others["data" := data])) == data
    ensures LoadQuestions(doc) == doc
  {
  }

  // ---------------------------------------------------------------------------------------
  // Question metadata

  /** The keys of the metadata record, which always has all of them. */
  const MetadataFields: set<string> := {
    "id", "title", "description", "created_at", "open_time", "cp_reveal_time",
    "scheduled_resolve_time", "actual_resolve_time", "scheduled_close_time",
    "actual_close_time", "type", "status", "tags", "url", "resolution_criteria",
    "fine_print", "unit", "possibilities", "options", "group_variable",
    "include_bots_in_aggregates", "question_weight", "default_project"}

  /** `q.get("question", q)`: the nested question of an export record, or the flat record. */
  function QuestionPart(q: Obj): Value
  {
    Get(q, "question", Dict(q))
  }

  /** One field of the record; `created_at` falls back to `created_time` when falsy. */
  function MetadataField(qdata: Obj, key: string): Value
  {
    if key == "created_at" then Or(Get(qdata, "created_at"), Get(qdata, "created_time")) else Get(qdata, key)
  }

  /** `extract_question_metadata`; a nested `question` that is not a dict has no `get`. */
  function ExtractQuestionMetadata(q: Obj): (r: Result<Obj>)
    ensures r.Ok? <==> "question" !in q || q["question"].Dict?
    ensures r.Err? ==> r.error == AttributeError
    ensures r.Ok? ==> r.value.Keys == MetadataFields
  {
    var qdata := QuestionPart(q);
    if !qdata.Dict? then Err(AttributeError)
    else Ok(map key | key in MetadataFields :: MetadataField(qdata.fields, key))
  }

  /**
   * Every field is read from the nested question when the record has one and from the record
   * itself otherwise; an absent field is None, and an absent or falsy `created_at` is
   * replaced by `created_time`.
   */
  lemma MetadataReadsNestedOrFlat(q: Obj)
    requires ExtractQuestionMetadata(q).Ok?
    ensures var src := if "question" in q then q["question"].fields else q;
            var meta := ExtractQuestionMetadata(q).value;
            (forall key | key in MetadataFields && key != "created_at" :: meta[key] == Get(src, key)) &&
            (forall key | key in MetadataFields && key !in src && key != "created_at" :: meta[key] == Null) &&
            (Truthy(Get(src, "created_at")) ==> meta["created_at"] == src["created_at"]) &&
            (!Truthy(Get(src, "created_at")) ==> meta["created_at"] == Get(src, "created_time"))
  {
    assert "created_at" in MetadataFields;
  }

  /** The metadata of a question that is missing, extracted from `{}`: every field None. */
  lemma MetadataOfNothing()
    ensures ExtractQuestionMetadata(map[]) == Ok(map key | key in MetadataFields :: Null)
  {
    var meta := ExtractQuestionMetadata(map[]).value;
    var nothing := map key | key in MetadataFields :: Null;
    assert meta.Keys == nothing.Keys;
    forall key | key in MetadataFields ensures meta[key] == nothing[key] {
      assert MetadataField(map[], key) == Null;
    }
    assert meta == nothing;
  }

  // ---------------------------------------------------------------------------------------
  // The export

  /** `{str(q.get("id")): q for q in questions}`; a later question with the same id replaces an earlier one. */
  function QuestionIndex(questions: seq<Value>): (r: Result<map<string, Obj>>)
    ensures r.Ok? <==> forall k | 0 <= k < |questions| :: questions[k].Dict?
    ensures r.Err? ==> r.error == AttributeError
    decreases |questions|
  {
    if questions == [] then Ok(map[])
    else
      var index :- QuestionIndex(questions[..|questions| - 1]);
      var q := questions[|questions| - 1];
      if !q.Dict? then Err(AttributeError) else Ok(index[QidOf(q.fields) := q.fields])
  }

  /** No later question of `questions` shares the id of question `k`. */
  ghost predicate LastWithItsId(questions: seq<Value>, k: nat)
    requires k < |questions| && forall j | 0 <= j < |questions| :: questions[j].Dict?
  {
    forall j | k < j < |questions| :: QidOf(questions[j].fields) != QidOf(questions[k].fields)
  }

  /** The index holds exactly the questions' ids. */
  lemma QuestionIndexKeys(questions: seq<Value>)
    requires QuestionIndex(questions).Ok?
    ensures QuestionIndex(questions).value.Keys == set k | 0 <= k < |questions| :: QidOf(questions[k].fields)
  {
    var ids := set k | 0 <= k < |questions| :: QidOf(questions[k].fields);
    forall id ensures id in QuestionIndex(questions).value <==> id in ids {
      QuestionIndexHas(questions, id);
    }
  }

  /** An id is in the index exactly when some question has it. */
  lemma {:induction false} QuestionIndexHas(questions: seq<Value>, id: string)
    requires QuestionIndex(questions).Ok?
    ensures id in QuestionIndex(questions).value <==> exists k | 0 <= k < |questions| :: QidOf(questions[k].fields) == id
    decreases |questions|
  {
    if questions != [] {
      var n := |questions| - 1;
      var init := questions[..n];
      var last := questions[n];
      assert QuestionIndex(questions) == Ok(QuestionIndex(init).value[QidOf(last.fields) := last.fields]);
      QuestionIndexHas(init, id);
      if exists k | 0 <= k < |questions| :: QidOf(questions[k].fields) == id {
        var k :| 0 <= k < |questions| && QidOf(questions[k].fields) == id;
        if k < n {
          assert init[k] == questions[k];
        }
      }
      if exists k | 0 <= k < n :: QidOf(init[k].fields) == id {
        var k :| 0 <= k < n && QidOf(init[k].fields) == id;
        assert questions[k] == init[k];
      }
    }
  }

  /** Each id is mapped to the last question that has it. */
  lemma QuestionIndexLastWins(questions: seq<Value>)
    requires QuestionIndex(questions).Ok?
    ensures forall k | 0 <= k < |questions| && LastWithItsId(questions, k) ::
              QidOf(questions[k].fields) in QuestionIndex(questions).value &&
              QuestionIndex(questions).value[QidOf(questions[k].fields)] == questions[k].fields
  {
    forall k | 0 <= k < |questions| && LastWithItsId(questions, k)
      ensures QidOf(questions[k].fields) in QuestionIndex(questions).value &&
              QuestionIndex(questions).value[QidOf(questions[k].fields)] == questions[k].fields
    {
      QuestionIndexAt(questions, k);
    }
  }

  /** The entry of one question that no later question shares an id with. */
  lemma {:induction false} QuestionIndexAt(questions: seq<Value>, k: nat)
    requires QuestionIndex(questions).Ok?
    requires k < |questions| && LastWithItsId(questions, k)
    ensures QidOf(questions[k].fields) in QuestionIndex(questions).value
    ensures QuestionIndex(questions).value[QidOf(questions[k].fields)] == questions[k].fields
    decreases |questions|
  {
    var n := |questions| - 1;
    var init := questions[..n];
    var last := questions[n];
    assert QuestionIndex(questions) == Ok(QuestionIndex(init).value[QidOf(last.fields) := last.fields]);
    if k < n {
      var id := QidOf(questions[k].fields);
      assert init[k] == questions[k];
      assert id != QidOf(last.fields);
      assert LastWithItsId(init, k) by {
        forall j | k < j < n ensures QidOf(init[j].fields) != id {
          assert init[j] == questions[j];
        }
      }
      QuestionIndexAt(init, k);
    }
  }

  /** `sum(len(v) for v in series_by_qid.values())`. */
  ghost function SumLengths(m: map<string, seq<Entry>>): nat
    decreases |m.Keys|
  {
    if m == map[] then 0
    else
      var k :| k in m;
      |m[k]| + SumLengths(m - {k})
  }

  /** The sum does not depend on the order in which the series are visited. */
  lemma {:induction false} SumLengthsRemove(m: map<string, seq<Entry>>, k: string)
    requires k in m
    ensures SumLengths(m) == |m[k]| + SumLengths(m - {k})
    decreases |m.Keys|
  {
    var j :| j in m && SumLengths(m) == |m[j]| + SumLengths(m - {j});
    if j != k {
      assert (m - {j}).Keys == m.Keys - {j} && (m - {k}).Keys == m.Keys - {k};
      SumLengthsRemove(m - {j}, k);
      SumLengthsRemove(m - {k}, j);
      assert m - {j} - {k} == m - {k} - {j};
    }
  }

  /** `qid_to_question.get(qid, {})`. */
  function QuestionFor(index: map<string, Obj>, qid: string): Obj
  {
    if qid in index then index[qid] else map[]
  }

  /** The generator `sum(len(v) for v in series_by_qid.values())`, one series at a time. */
  method TotalLength(seriesByQid: map<string, seq<Entry>>) returns (total: nat)
    ensures total == SumLengths(seriesByQid)
  {
    total := 0;
    var rest := seriesByQid;
    while rest != map[]
      invariant total + SumLengths(rest) == SumLengths(seriesByQid)
      decreases |rest.Keys|
    {
      var qid :| qid in rest;
      SumLengthsRemove(rest, qid);
      total := total + |rest[qid]|;
      assert (rest - {qid}).Keys == rest.Keys - {qid};
      rest := rest - {qid};
    }
  }

  /** One question of the exported document. */
  datatype QuestionExport = QuestionExport(metadata: Obj, series: seq<Entry>)

  /**
   * The document `export_time_series_with_comments` writes, less the capture of the
   * environment: the arguments it passes to `get_metadata`, and one record per series.
   */
  datatype ExportDoc = ExportDoc(script: string, params: Obj, recordCount: nat, questions: map<string, QuestionExport>)

  /** The metadata `export_time_series_with_comments` records for the series under `qid`. */
  function MetadataOf(index: map<string, Obj>): string -> Result<Obj>
  {
    qid => ExtractQuestionMetadata(QuestionFor(index, qid))
  }

  /**
   * The loop of `export_time_series_with_comments` over `series_by_qid.items()`: each series
   * with the metadata `meta` gives for its id, or the first exception that raises.
   */
  method ExportEach(seriesByQid: map<string, seq<Entry>>, meta: string -> Result<Obj>)
    returns (r: Result<map<string, QuestionExport>>)
    ensures r.Ok? <==> forall qid | qid in seriesByQid :: meta(qid).Ok?
    ensures r.Err? ==> exists qid | qid in seriesByQid :: meta(qid) == Err(r.error)
    ensures r.Ok? ==> r.value.Keys == seriesByQid.Keys
    ensures r.Ok? ==> forall qid | qid in seriesByQid :: r.value[qid] == QuestionExport(meta(qid).value, seriesByQid[qid])
  {
    var output: map<string, QuestionExport> := map[];
    var todo := seriesByQid.Keys;
    while todo != {}
      invariant todo <= seriesByQid.Keys
      invariant output.Keys == seriesByQid.Keys - todo
      invariant forall qid | qid in output :: meta(qid).Ok? && output[qid] == QuestionExport(meta(qid).value, seriesByQid[qid])
      decreases |todo|
    {
      var qid :| qid in todo;
      var m := meta(qid);
      if m.Err? {
        return Err(m.error);
      }
      output := output[qid := QuestionExport(m.value, seriesByQid[qid])];
      todo := todo - {qid};
    }
    return Ok(output);
  }

  /**
   * `export_time_series_with_comments` up to `json.dump`. `script` is `sys.argv[0]`. Every
   * series is exported under its own key with the metadata of the question that has that
   * id, or of `{}`; the record count is the total length of all series.
   */
  method ExportTimeSeries(seriesByQid: map<string, seq<Entry>>, script: string, params: Option<Obj>,
                          questions: Option<seq<Value>>)
    returns (r: Result<ExportDoc>)
    ensures var index := QuestionIndex(if questions.Some? then questions.value else []);
            r.Ok? <==> index.Ok? &&
                       forall qid | qid in seriesByQid :: ExtractQuestionMetadata(QuestionFor(index.value, qid)).Ok?
    ensures r.Err? ==> r.error == AttributeError
    ensures r.Ok? ==> r.value.recordCount == SumLengths(seriesByQid)
    ensures r.Ok? ==> r.value.script == script && r.value.params == if params.Some? then params.value else map[]
    ensures r.Ok? ==> r.value.questions.Keys == seriesByQid.Keys
    ensures r.Ok? ==> var index := QuestionIndex(if questions.Some? then questions.value else []).value;
            forall qid | qid in seriesByQid ::
              r.value.questions[qid] ==
                QuestionExport(ExtractQuestionMetadata(QuestionFor(index, qid)).value, seriesByQid[qid])
  {
    var total := TotalLength(seriesByQid);
    var index :- QuestionIndex(if questions.Some? then questions.value else []);
    var output :- ExportEach(seriesByQid, MetadataOf(index));
    return Ok(ExportDoc(script, if params.Some? then params.value else map[], total, output));
  }
}
