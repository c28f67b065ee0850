/**
 * The sources pipeline's Metaculus processing (cafe/sources/processing/metaculus.py):
 * merging comment files into one mapping from question id to comments, filtering question
 * dicts, and attaching every comment to the last snapshot whose UTC date is not after the
 * comment's date.
 */
module SourcesMetaculus {
  import opened Py
  import opened Filtering
  import opened Alignment
  import opened QuestionData
  import SourcesHelpers

  // ---------------------------------------------------------------------------------------
  // Loading comments

  /** A single comments file: its `comments_by_question` mapping, all of it if it is a dict, else nothing. */
  function LoadFile(obj: Value): (r: Result<Obj>)
    ensures r.Err? <==> obj.Dict? && "comments_by_question" in obj.fields && !obj.fields["comments_by_question"].Dict?
    ensures r.Err? ==> r.error == AttributeError
    ensures !obj.Dict? ==> r == Ok(map[])
  {
    if obj.Dict? && "comments_by_question" in obj.fields then
      var cbq := obj.fields["comments_by_question"];
      if cbq.Dict? then Ok(cbq.fields) else Err(AttributeError)
    else if obj.Dict? then Ok(obj.fields)
    else Ok(map[])
  }

  /** The list already filed under `key`, or none. */
  function Existing(acc: Obj, key: string): seq<Value>
  {
    if key in acc && acc[key].List? then acc[key].items else []
  }

  /** `comments_by_qid.setdefault(key, []).extend(items)`; only a list can be extended. */
  function Extend(acc: Obj, key: string, items: seq<Value>): (r: Result<Obj>)
    ensures r.Ok? <==> key !in acc || acc[key].List?
    ensures r.Err? ==> r.error == AttributeError
    ensures r.Ok? ==> r.value.Keys == acc.Keys + {key} && r.value[key] == List(Existing(acc, key) + items) &&
                      forall k | k in acc && k != key :: r.value[k] == acc[k]
  {
    if key !in acc then assert [] + items == items; Ok(acc[key := List(items)])
    else if acc[key].List? then Ok(acc[key := List(acc[key].items + items)])
    else Err(AttributeError)
  }

  /** `str(c.get("question_id") or c.get("questionId") or c.get("qid"))`. */
  function FlatKey(c: Obj): string
  {
    ToStr(Or(Or(Get(c, "question_id"), Get(c, "questionId")), Get(c, "qid")))
  }

  /** `if qid and qid != "None"`. */
  predicate Fileable(key: string)
  {
    key != "" && key != "None"
  }

  /** The comments of a flat `data` list filed under their own ids, in order; a non-dict raises. */
  function FileFlat(acc: Obj, data: seq<Value>): Result<Obj>
    decreases |data|
  {
    if data == [] then Ok(acc)
    else
      var before :- FileFlat(acc, data[..|data| - 1]);
      var c := data[|data| - 1];
      if !c.Dict? then Err(AttributeError)
      else if Fileable(FlatKey(c.fields)) then Extend(before, FlatKey(c.fields), [c])
      else Ok(before)
  }

  /** The comments of a flat `data` list that go under `key`, in order. */
  ghost function FiledUnder(data: seq<Value>, key: string): seq<Value>
    decreases |data|
  {
    if data == [] then []
    else
      var c := data[|data| - 1];
      FiledUnder(data[..|data| - 1], key) +
        (if c.Dict? && Fileable(FlatKey(c.fields)) && FlatKey(c.fields) == key then [c] else [])
  }

  /** Every comment is a dict, and none is to be appended to something that is not a list. */
  ghost predicate FlatOk(acc: Obj, data: seq<Value>)
  {
    forall k | 0 <= k < |data| ::
      data[k].Dict? &&
      (Fileable(FlatKey(data[k].fields)) && FlatKey(data[k].fields) in acc ==> acc[FlatKey(data[k].fields)].List?)
  }

  /** Filing a flat list succeeds exactly when `FlatOk` holds. */
  lemma {:induction false} FileFlatOk(acc: Obj, data: seq<Value>)
    ensures FileFlat(acc, data).Ok? <==> FlatOk(acc, data)
    decreases |data|
  {
    if data != [] {
      var init := data[..|data| - 1];
      var c := data[|data| - 1];
      FileFlatOk(acc, init);
      assert forall k | 0 <= k < |init| :: init[k] == data[k];
      if FileFlat(acc, init).Ok? && c.Dict? && Fileable(FlatKey(c.fields)) {
        var key := FlatKey(c.fields);
        var before := FileFlat(acc, init).value;
        FileFlatContents(acc, init);
        if FiledUnder(init, key) != [] {
          FiledUnderWitness(init, key);
          var k :| 0 <= k < |init| && init[k].Dict? && FlatKey(init[k].fields) == key;
          assert key in before && before[key].List?;
          assert key in acc ==> acc[key].List?;
        } else if key in acc {
          assert before[key] == acc[key];
        } else {
          assert key !in before;
        }
        FlatOkStep(acc, data);
      } else {
        FlatOkStep(acc, data);
      }
    }
  }

  lemma FlatOkStep(acc: Obj, data: seq<Value>)
    requires data != []
    ensures var c := data[|data| - 1];
            FlatOk(acc, data) <==>
              FlatOk(acc, data[..|data| - 1]) && c.Dict? &&
              (Fileable(FlatKey(c.fields)) && FlatKey(c.fields) in acc ==> acc[FlatKey(c.fields)].List?)
  {
    var init := data[..|data| - 1];
    assert forall k | 0 <= k < |init| :: init[k] == data[k];
  }

  /** A comment filed under `key` is one of the list's dicts whose id is `key`. */
  lemma {:induction false} FiledUnderWitness(data: seq<Value>, key: string)
    requires FiledUnder(data, key) != []
    ensures exists k | 0 <= k < |data| :: data[k].Dict? && FlatKey(data[k].fields) == key
    decreases |data|
  {
    var init := data[..|data| - 1];
    var c := data[|data| - 1];
    if !(c.Dict? && FlatKey(c.fields) == key) {
      assert FiledUnder(init, key) != [];
      FiledUnderWitness(init, key);
      var k :| 0 <= k < |init| && init[k].Dict? && FlatKey(init[k].fields) == key;
      assert data[k] == init[k];
    }
  }

  /**
   * A successful filing adds to every id the comments filed under it, after the list it
   * already had, and leaves the other ids alone.
   */
  lemma FileFlatContents(acc: Obj, data: seq<Value>)
    requires FileFlat(acc, data).Ok?
    ensures var r := FileFlat(acc, data).value;
            (forall key | key in r :: key in acc || FiledUnder(data, key) != []) &&
            (forall key | key in acc && FiledUnder(data, key) == [] :: key in r && r[key] == acc[key]) &&
            (forall key | FiledUnder(data, key) != [] ::
               key in r && r[key] == List(Existing(acc, key) + FiledUnder(data, key)))
  {
    forall key | key in FileFlat(acc, data).value ensures key in acc || FiledUnder(data, key) != [] {
      FileFlatKey(acc, data, key);
    }
    forall key | key in acc && FiledUnder(data, key) == []
      ensures key in FileFlat(acc, data).value && FileFlat(acc, data).value[key] == acc[key]
    {
      FileFlatKey(acc, data, key);
    }
    forall key | FiledUnder(data, key) != []
      ensures key in FileFlat(acc, data).value &&
              FileFlat(acc, data).value[key] == List(Existing(acc, key) + FiledUnder(data, key))
    {
      FileFlatKey(acc, data, key);
    }
  }

  /** What a successful filing holds under one id. */
  lemma {:induction false} FileFlatKey(acc: Obj, data: seq<Value>, key: string)
    requires FileFlat(acc, data).Ok?
    ensures KeyAsListed(acc, data, FileFlat(acc, data).value, key)
    decreases |data|
  {
    if data != [] {
      FileFlatKey(acc, data[..|data| - 1], key);
      FileFlatKeyStep(acc, data, key);
    }
  }

  /** `r` holds under `key` what `acc` had there followed by the comments of `data` filed under it. */
  ghost predicate KeyAsListed(acc: Obj, data: seq<Value>, r: Obj, key: string)
  {
    KeyHolds(acc, r, key, FiledUnder(data, key))
  }

  /** `r` holds under `key` what `acc` had there followed by `filed`. */
  ghost predicate KeyHolds(acc: Obj, r: Obj, key: string, filed: seq<Value>)
  {
    (key in r ==> key in acc || filed != []) &&
    (key in acc && filed == [] ==> key in r && r[key] == acc[key]) &&
    (filed != [] ==> key in r && r[key] == List(Existing(acc, key) + filed))
  }

  /** Filing one more comment under `key` appends it to what `key` holds. */
  lemma KeyHoldsHit(acc: Obj, before: Obj, key: string, filed: seq<Value>, c: Value)
    requires KeyHolds(acc, before, key, filed) && Extend(before, key, [c]).Ok?
    ensures KeyHolds(acc, Extend(before, key, [c]).value, key, filed + [c])
  {
    if filed == [] {
      assert Existing(before, key) == Existing(acc, key);
      assert [] + [c] == [c];
    } else {
      assert Existing(before, key) == Existing(acc, key) + filed;
    }
  }

  /** Filing a comment under another id leaves `key` as it was. */
  lemma KeyHoldsMiss(acc: Obj, before: Obj, key: string, filed: seq<Value>, other: string, c: Value)
    requires KeyHolds(acc, before, key, filed) && other != key && Extend(before, other, [c]).Ok?
    ensures KeyHolds(acc, Extend(before, other, [c]).value, key, filed)
  {
  }

  lemma FileFlatKeyStep(acc: Obj, data: seq<Value>, key: string)
    requires data != [] && FileFlat(acc, data).Ok? && FileFlat(acc, data[..|data| - 1]).Ok?
    requires KeyAsListed(acc, data[..|data| - 1], FileFlat(acc, data[..|data| - 1]).value, key)
    ensures KeyAsListed(acc, data, FileFlat(acc, data).value, key)
  {
    var init := data[..|data| - 1];
    var c := data[|data| - 1];
    var before := FileFlat(acc, init).value;
    assert c.Dict?;
    var ck := FlatKey(c.fields);
    if Fileable(ck) && ck == key {
      assert FileFlat(acc, data) == Extend(before, key, [c]);
      assert FiledUnder(data, key) == FiledUnder(init, key) + [c];
      KeyHoldsHit(acc, before, key, FiledUnder(init, key), c);
    } else if Fileable(ck) {
      assert FileFlat(acc, data) == Extend(before, ck, [c]);
      assert FiledUnder(data, key) == FiledUnder(init, key);
      KeyHoldsMiss(acc, before, key, FiledUnder(init, key), ck, c);
    } else {
      assert FileFlat(acc, data).value == before;
      assert FiledUnder(data, key) == FiledUnder(init, key);
    }
  }

  /** `isinstance(v, list) and all(isinstance(c, dict) for c in v)`. */
  predicate IsCommentList(v: Value)
  {
    v.List? && forall c | c in v.items :: c.Dict?
  }

  /** `"qid" in obj["metadata"] and "data" in obj and isinstance(obj["data"], list)`, for a dict with `metadata`. */
  function QidShape(m: Obj): Result<bool>
  {
    if "metadata" !in m then Ok(false)
    else
      var hasQid :- Contains(m["metadata"], "qid");
      Ok(hasQid && "data" in m && m["data"].List?)
  }

  /** What one file of a directory does to the mapping built so far. */
  function MergeFile(acc: Obj, obj: Value): Result<Obj>
  {
    if !obj.Dict? then Ok(acc)
    else
      var m := obj.fields;
      var qidShape :- QidShape(m);
      if qidShape then
        var qid :- Index(m["metadata"], "qid");
        Extend(acc, ToStr(qid), m["data"].items)
      else if "comments_by_question" in m then
        var cbq := m["comments_by_question"];
        if cbq.Dict? then Ok(acc + cbq.fields) else Err(AttributeError)
      else if "data" in m then
        if m["data"].List? then FileFlat(acc, m["data"].items) else Ok(acc)
      else Ok(acc + map k | k in m && IsCommentList(m[k]) :: m[k])
  }

  /**
   * A file without `metadata`: its `comments_by_question` entries overwrite the ones read so
   * far; without that or `data`, only its entries whose value is a list of dicts are kept.
   */
  lemma MergeFileOverwrites(acc: Obj, obj: Value)
    requires obj.Dict? && "metadata" !in obj.fields
    ensures var m := obj.fields;
            "comments_by_question" in m && m["comments_by_question"].Dict? ==>
              MergeFile(acc, obj).Ok? &&
              forall k | k in m["comments_by_question"].fields ::
                MergeFile(acc, obj).value[k] == m["comments_by_question"].fields[k]
    ensures var m := obj.fields;
            "comments_by_question" !in m && "data" !in m ==>
              MergeFile(acc, obj).Ok? && MergeFile(acc, obj).value.Keys == acc.Keys + (set k | k in m && IsCommentList(m[k])) &&
              (forall k | k in m && IsCommentList(m[k]) :: MergeFile(acc, obj).value[k] == m[k]) &&
              (forall k | k in acc && !(k in m && IsCommentList(m[k])) :: MergeFile(acc, obj).value[k] == acc[k])
  {
    assert QidShape(obj.fields) == Ok(false);
  }

  /** The files of a directory merged in `glob` order. */
  function MergeAll(files: seq<(string, Value)>): Result<Obj>
    decreases |files|
  {
    if files == [] then Ok(map[])
    else
      var acc :- MergeAll(files[..|files| - 1]);
      MergeFile(acc, files[|files| - 1].1)
  }

  /** `load_comments` on each kind of path. */
  function LoadCommentsSpec(path: Path): Result<Obj>
  {
    match path
    case File(obj) => LoadFile(obj)
    case Dir(files) => MergeAll(files)
    case Missing => Err(FileNotFound)
  }

  /** The inner loop over a flat `data` list. */
  method FileFlatData(acc: Obj, data: seq<Value>) returns (r: Result<Obj>)
    ensures r == FileFlat(acc, data)
  {
    var result := acc;
    var i := 0;
    while i < |data|
      invariant 0 <= i <= |data|
      invariant FileFlat(acc, data[..i]) == Ok(result)
    {
      var c := data[i];
      assert data[..i + 1][..i] == data[..i] && data[..i + 1][i] == c;
      i := i + 1;
      if !c.Dict? {
        assert FileFlat(acc, data[..i]).Err?;
        FileFlatErrPrefix(acc, data, i);
        return Err(AttributeError);
      }
      var qid := FlatKey(c.fields);
      if Fileable(qid) {
        var next := Extend(result, qid, [c]);
        if next.Err? {
          FileFlatErrPrefix(acc, data, i);
          return next;
        }
        result := next.value;
      }
    }
    assert data[..i] == data;
    return Ok(result);
  }

  lemma {:induction false} FileFlatErrPrefix(acc: Obj, data: seq<Value>, i: nat)
    requires i <= |data| && FileFlat(acc, data[..i]).Err?
    ensures FileFlat(acc, data) == FileFlat(acc, data[..i])
    decreases |data| - i
  {
    if i < |data| {
      assert data[..i + 1][..i] == data[..i];
      FileFlatErrPrefix(acc, data, i + 1);
    } else {
      assert data[..i] == data;
    }
  }

  /** The body of the loop over a directory's files. */
  method MergeDirFile(acc: Obj, obj: Value) returns (r: Result<Obj>)
    ensures r == MergeFile(acc, obj)
  {
    if !obj.Dict? {
      return Ok(acc);
    }
    var m := obj.fields;
    var qidShape :- QidShape(m);
    if qidShape {
      var qid :- Index(m["metadata"], "qid");
      return Extend(acc, ToStr(qid), m["data"].items);
    } else if "comments_by_question" in m {
      var cbq := m["comments_by_question"];
      if !cbq.Dict? {
        return Err(AttributeError);
      }
      return Ok(acc + cbq.fields);
    } else if "data" in m {
      if m["data"].List? {
        r := FileFlatData(acc, m["data"].items);
        return;
      }
      return Ok(acc);
    }
    return Ok(acc + map k | k in m && IsCommentList(m[k]) :: m[k]);
  }

  /** `load_comments`: one file, or every file of a directory merged in turn, or FileNotFoundError. */
  method LoadComments(path: Path) returns (r: Result<Obj>)
    ensures r == LoadCommentsSpec(path)
  {
    match path
    case File(obj) =>
      return LoadFile(obj);
    case Missing =>
      return Err(FileNotFound);
    case Dir(files) =>
      var acc: Obj := map[];
      var i := 0;
      while i < |files|
        invariant 0 <= i <= |files|
        invariant MergeAll(files[..i]) == Ok(acc)
      {
        assert files[..i + 1][..i] == files[..i];
        var next := MergeDirFile(acc, files[i].1);
        i := i + 1;
        if next.Err? {
          MergeAllErrPrefix(files, i);
          return next;
        }
        acc := next.value;
      }
      assert files[..i] == files;
      return Ok(acc);
  }

  lemma {:induction false} MergeAllErrPrefix(files: seq<(string, Value)>, i: nat)
    requires i <= |files| && MergeAll(files[..i]).Err?
    ensures MergeAll(files) == MergeAll(files[..i])
    decreases |files| - i
  {
    if i < |files| {
      assert files[..i + 1][..i] == files[..i];
      MergeAllErrPrefix(files, i + 1);
    } else {
      assert files[..i] == files;
    }
  }

  /** A file of the shape `{"metadata": {"qid": ...}, "data": [...]}`. */
  ghost predicate QidFile(obj: Value)
  {
    obj.Dict? && "metadata" in obj.fields && obj.fields["metadata"].Dict? &&
    "qid" in obj.fields["metadata"].fields && "data" in obj.fields && obj.fields["data"].List?
  }

  ghost function FileQid(obj: Value): string
    requires QidFile(obj)
  {
    ToStr(obj.fields["metadata"].fields["qid"])
  }

  /** The ids the first files name. */
  ghost function FileQids(files: seq<(string, Value)>): set<string>
    requires forall k | 0 <= k < |files| :: QidFile(files[k].1)
    decreases |files|
  {
    if files == [] then {} else FileQids(files[..|files| - 1]) + {FileQid(files[|files| - 1].1)}
  }

  /** The `data` lists of the files naming `key`, concatenated in `glob` order. */
  ghost function DataFor(files: seq<(string, Value)>, key: string): seq<Value>
    requires forall k | 0 <= k < |files| :: QidFile(files[k].1)
    decreases |files|
  {
    if files == [] then []
    else
      var obj := files[|files| - 1].1;
      DataFor(files[..|files| - 1], key) + (if FileQid(obj) == key then obj.fields["data"].items else [])
  }

  /**
   * A directory of per-question files merges into one list per id: the `data` of every file
   * naming that id, in the order the files are read.
   */
  lemma {:induction false} MergeQidFiles(files: seq<(string, Value)>)
    requires forall k | 0 <= k < |files| :: QidFile(files[k].1)
    ensures MergeAll(files).Ok?
    ensures MergeAll(files).value.Keys == FileQids(files)
    ensures forall key | key in MergeAll(files).value :: MergeAll(files).value[key] == List(DataFor(files, key))
    decreases |files|
  {
    if files != [] {
      var init := files[..|files| - 1];
      var obj := files[|files| - 1].1;
      assert forall k | 0 <= k < |init| :: init[k] == files[k];
      MergeQidFiles(init);
      var acc := MergeAll(init).value;
      var key := FileQid(obj);
      var data := obj.fields["data"].items;
      QidFileMerges(acc, obj);
      assert MergeAll(files) == MergeFile(acc, obj);
      var r := MergeAll(files).value;
      assert FileQids(files) == FileQids(init) + {key};
      forall k | k in r ensures r[k] == List(DataFor(files, k)) {
        assert DataFor(files, k) == DataFor(init, k) + (if key == k then data else []);
        if k == key {
          if key !in acc {
            DataForAbsent(init, key);
          }
        } else {
          assert DataFor(init, k) + [] == DataFor(init, k);
        }
      }
    }
  }

  /** A per-question file extends the list of the id it names. */
  lemma QidFileMerges(acc: Obj, obj: Value)
    requires QidFile(obj)
    ensures MergeFile(acc, obj) == Extend(acc, FileQid(obj), obj.fields["data"].items)
  {
    assert QidShape(obj.fields) == Ok(true);
  }

  /** Two per-question files naming the same id merge into one list holding both, in order. */
  lemma TwoFilesSameQid(a: (string, Value), b: (string, Value))
    requires QidFile(a.1) && QidFile(b.1) && FileQid(a.1) == FileQid(b.1)
    ensures MergeAll([a, b]).Ok?
    ensures MergeAll([a, b]).value == map[FileQid(a.1) := List(a.1.fields["data"].items + b.1.fields["data"].items)]
  {
    var key := FileQid(a.1);
    var da, db := a.1.fields["data"].items, b.1.fields["data"].items;
    MergeQidFiles([a, b]);
    assert [a, b][..1] == [a] && [a][..0] == [];
    assert FileQids([a]) == {key};
    assert FileQids([a, b]) == {key};
    assert DataFor([a], key) == [] + da;
    assert DataFor([a, b], key) == DataFor([a], key) + db;
    assert [] + da == da;
  }

  /** An id no file names has no data. */
  lemma {:induction false} DataForAbsent(files: seq<(string, Value)>, key: string)
    requires forall k | 0 <= k < |files| :: QidFile(files[k].1)
    requires key !in FileQids(files)
    ensures DataFor(files, key) == []
    decreases |files|
  {
    if files != [] {
      var init := files[..|files| - 1];
      assert forall k | 0 <= k < |init| :: init[k] == files[k];
      DataForAbsent(init, key);
    }
  }

  // ---------------------------------------------------------------------------------------
  // Filtering questions

  /** The keyword arguments of `filter_questions`. */
  datatype QuestionFilter = QuestionFilter(
    status: Option<string>,
    tag: Option<string>,
    minForecasters: Option<int>,
    hasResolutionCriteria: Option<bool>,
    minComments: Option<int>,
    custom: Option<Obj -> bool>,
    filters: Option<Obj>)

  const NoFilter: QuestionFilter := QuestionFilter(None, None, None, None, None, None, None)

  /** A string argument that is given and non-empty, so `if s` holds. */
  predicate Given(s: Option<string>)
  {
    s.Some? && s.value != ""
  }

  /** `if n` holds for an optional count. */
  predicate CountGiven(n: Option<int>)
  {
    n.Some? && n.value != 0
  }

  /** `if filters` holds. */
  predicate FiltersGiven(filters: Option<Obj>)
  {
    filters.Some? && filters.value != map[]
  }

  /** The `published_at__gt` bound: a truthy `published_at` before it is dropped. */
  function PublishedAfterKeep(q: Obj, filters: Obj): Result<bool>
  {
    if "published_at__gt" in filters && Truthy(Get(q, "published_at")) then
      var early :- Less(Get(q, "published_at"), filters["published_at__gt"]);
      Ok(!early)
    else Ok(true)
  }

  /** The `published_at__lt` bound: a truthy `published_at` after it is dropped. */
  function PublishedBeforeKeep(q: Obj, filters: Obj): Result<bool>
  {
    if "published_at__lt" in filters && Truthy(Get(q, "published_at")) then
      var late :- Less(filters["published_at__lt"], Get(q, "published_at"));
      Ok(!late)
    else Ok(true)
  }

  /** A question without `published_at` passes both bounds, whatever they are. */
  lemma UnpublishedPasses(q: Obj, filters: Obj)
    requires "published_at" !in q
    ensures PublishedAfterKeep(q, filters) == Ok(true) && PublishedBeforeKeep(q, filters) == Ok(true)
  {
  }

  /** A question published on the wrong side of a bound is dropped. */
  lemma PublishedOutsideDropped(q: Obj, filters: Obj)
    requires "published_at" in q && q["published_at"].Str? && q["published_at"].s != ""
    ensures ("published_at__gt" in filters && filters["published_at__gt"].Str? &&
             StrLess(q["published_at"].s, filters["published_at__gt"].s)) ==> PublishedAfterKeep(q, filters) == Ok(false)
    ensures ("published_at__lt" in filters && filters["published_at__lt"].Str? &&
             StrLess(filters["published_at__lt"].s, q["published_at"].s)) ==> PublishedBeforeKeep(q, filters) == Ok(false)
  {
  }

  /** List-valued dates compare element by element: `[1] < [2]`, so the question is dropped. */
  lemma ListPublishedComparedLexicographically()
    ensures DirectKeep(map["published_at" := List([Int(1)])],
                       NoFilter.(filters := Some(map["published_at__gt" := List([Int(2)])]))) == Ok(false)
  {
    var q := map["published_at" := List([Int(1)])];
    var filters := map["published_at__gt" := List([Int(2)])];
    assert !Equal(Int(1), Int(2));
    assert ListLess(List([Int(1)]), List([Int(2)]), 0) == Ok(true);
    assert PublishedAfterKeep(q, filters) == Ok(false);
  }

  /** What a question that survives the direct loop satisfies. */
  ghost predicate MeetsDirect(q: Obj, f: QuestionFilter)
  {
    (Given(f.status) ==> Get(q, "status") == Str(f.status.value)) &&
    (Given(f.tag) ==> Contains(Get(q, "tags", List([])), f.tag.value) == Ok(true)) &&
    (CountGiven(f.minForecasters) ==> Less(Get(q, "num_forecasters", Int(0)), Int(f.minForecasters.value)) == Ok(false)) &&
    (FiltersGiven(f.filters) ==>
       PublishedAfterKeep(q, f.filters.value) == Ok(true) && PublishedBeforeKeep(q, f.filters.value) == Ok(true)) &&
    (f.hasResolutionCriteria.Some? ==> Truthy(Get(q, "resolution_criteria")) == f.hasResolutionCriteria.value) &&
    (CountGiven(f.minComments) ==> Less(Get(q, "num_comments", Int(0)), Int(f.minComments.value)) == Ok(false)) &&
    (f.custom.Some? ==> f.custom.value(q))
  }

  /** One iteration of the direct loop, its guards in the source's order. */
  function DirectKeep(q: Obj, f: QuestionFilter): (r: Result<bool>)
    ensures r == Ok(true) <==> MeetsDirect(q, f)
    ensures r.Err? ==> r.error == TypeError
  {
    if Given(f.status) && Get(q, "status") != Str(f.status.value) then Ok(false)
    else
      var hasTag :- if Given(f.tag) then Contains(Get(q, "tags", List([])), f.tag.value) else Ok(true);
      if !hasTag then Ok(false)
      else
        var few :- if CountGiven(f.minForecasters)
                   then Less(Get(q, "num_forecasters", Int(0)), Int(f.minForecasters.value)) else Ok(false);
        if few then Ok(false)
        else
          var after :- if FiltersGiven(f.filters) then PublishedAfterKeep(q, f.filters.value) else Ok(true);
          if !after then Ok(false)
          else
            var before :- if FiltersGiven(f.filters) then PublishedBeforeKeep(q, f.filters.value) else Ok(true);
            if !before then Ok(false)
            else if f.hasResolutionCriteria.Some? &&
                    Truthy(Get(q, "resolution_criteria")) != f.hasResolutionCriteria.value then Ok(false)
            else
              var fewComments :- if CountGiven(f.minComments)
                                 then Less(Get(q, "num_comments", Int(0)), Int(f.minComments.value)) else Ok(false);
              Ok(!fewComments && (f.custom.None? || f.custom.value(q)))
  }

  function DirectKeeps(f: QuestionFilter): Obj -> Result<bool>
  {
    q => DirectKeep(q, f)
  }

  /** The direct `for` loop of `filter_questions`. */
  method DirectFilter(questions: seq<Obj>, f: QuestionFilter) returns (r: Result<seq<Obj>>)
    ensures r == Filter(questions, DirectKeeps(f))
  {
    var filtered: seq<Obj> := [];
    var i := 0;
    while i < |questions|
      invariant 0 <= i <= |questions|
      invariant Filter(questions[..i], DirectKeeps(f)) == Ok(filtered)
    {
      var q := questions[i];
      FilterStep(questions, i, DirectKeeps(f), filtered);
      i := i + 1;
      if Given(f.status) && Get(q, "status") != Str(f.status.value) {
        continue;
      }
      if Given(f.tag) {
        var hasTag := Contains(Get(q, "tags", List([])), f.tag.value);
        if hasTag.Err? {
          FilterErrPrefix(questions, i, DirectKeeps(f));
          return Err(hasTag.error);
        }
        if !hasTag.value {
          continue;
        }
      }
      if CountGiven(f.minForecasters) {
        var few := Less(Get(q, "num_forecasters", Int(0)), Int(f.minForecasters.value));
        if few.Err? {
          FilterErrPrefix(questions, i, DirectKeeps(f));
          return Err(few.error);
        }
        if few.value {
          continue;
        }
      }
      if FiltersGiven(f.filters) {
        var after := PublishedAfterKeep(q, f.filters.value);
        if after.Err? {
          FilterErrPrefix(questions, i, DirectKeeps(f));
          return Err(after.error);
        }
        if !after.value {
          continue;
        }
        var before := PublishedBeforeKeep(q, f.filters.value);
        if before.Err? {
          FilterErrPrefix(questions, i, DirectKeeps(f));
          return Err(before.error);
        }
        if !before.value {
          continue;
        }
      }
      if f.hasResolutionCriteria.Some? && Truthy(Get(q, "resolution_criteria")) != f.hasResolutionCriteria.value {
        continue;
      }
      if CountGiven(f.minComments) {
        var few := Less(Get(q, "num_comments", Int(0)), Int(f.minComments.value));
        if few.Err? {
          FilterErrPrefix(questions, i, DirectKeeps(f));
          return Err(few.error);
        }
        if few.value {
          continue;
        }
      }
      if f.custom.Some? && !f.custom.value(q) {
        continue;
      }
      filtered := filtered + [q];
    }
    assert questions[..i] == questions;
    return Ok(filtered);
  }

  /** The helper's arguments as `filter_questions` passes them: no date bounds. */
  function HelperFilterOf(f: QuestionFilter): SourcesHelpers.DictFilter
  {
    SourcesHelpers.DictFilter(None, None, f.hasResolutionCriteria, f.minComments, f.tag, f.custom)
  }

  /** What `filter_questions` computes. */
  function FilterQuestionsSpec(questions: seq<Obj>, f: QuestionFilter): Result<seq<Obj>>
  {
    var direct :- Filter(questions, DirectKeeps(f));
    Filter(direct, SourcesHelpers.Keeps(HelperFilterOf(f)))
  }

  /** `filter_questions`: the direct loop, then the dict helper over what it kept. */
  method FilterQuestions(questions: seq<Obj>, f: QuestionFilter) returns (r: Result<seq<Obj>>)
    ensures r == FilterQuestionsSpec(questions, f)
  {
    var direct :- DirectFilter(questions, f);
    r := SourcesHelpers.FilterByMetadata(direct, HelperFilterOf(f));
  }

  /**
   * `filter_questions` keeps, in order, exactly the questions that pass the direct loop and
   * meet the helper's constraints.
   */
  lemma FilterQuestionsKeepsExactly(questions: seq<Obj>, f: QuestionFilter)
    requires FilterQuestionsSpec(questions, f).Ok?
    ensures var kept := FilterQuestionsSpec(questions, f).value;
            IsSubsequence(kept, questions) &&
            (forall q | q in kept :: MeetsDirect(q, f) && SourcesHelpers.MeetsMetadata(q, HelperFilterOf(f))) &&
            (forall q | q in questions && MeetsDirect(q, f) && SourcesHelpers.MeetsMetadata(q, HelperFilterOf(f)) ::
               q in kept)
  {
    var first, second := DirectKeeps(f), SourcesHelpers.Keeps(HelperFilterOf(f));
    var direct := Filter(questions, first).value;
    var kept := Filter(direct, second).value;
    FilterThen(questions, first, second);
    FilterIsSubsequence(questions, Then(first, second));
    FilterMembers(questions, first);
    FilterMembers(direct, second);
    forall q | q in kept ensures MeetsDirect(q, f) && SourcesHelpers.MeetsMetadata(q, HelperFilterOf(f)) {
      assert second(q) == Ok(true);
      SubsequenceElements(kept, direct) by { FilterIsSubsequence(direct, second); }
      assert first(q) == Ok(true);
    }
    forall q | q in questions && MeetsDirect(q, f) && SourcesHelpers.MeetsMetadata(q, HelperFilterOf(f))
      ensures q in kept
    {
      assert first(q) == Ok(true);
      assert second(q) == Ok(true);
    }
  }

  /**
   * `min_comments` is checked twice: a kept question has `num_comments` (0 when absent) and
   * the length of `comments` (0 when absent) both at least the bound.
   */
  lemma MinCommentsChecksBoth(questions: seq<Obj>, f: QuestionFilter, q: Obj)
    requires FilterQuestionsSpec(questions, f).Ok? && q in FilterQuestionsSpec(questions, f).value
    requires CountGiven(f.minComments)
    ensures IsNumber(Get(q, "num_comments", Int(0))) && NumberOf(Get(q, "num_comments", Int(0))) >= f.minComments.value
    ensures SourcesHelpers.CommentCount(q).Ok? && SourcesHelpers.CommentCount(q).value >= f.minComments.value
  {
    FilterQuestionsKeepsExactly(questions, f);
    assert MeetsDirect(q, f);
  }

  /**
   * The two stages read `tag` differently: the direct loop accepts a substring of a string
   * `tags`, the helper only an element of a list, so such a question is dropped.
   */
  lemma StringTagsDropped()
    ensures FilterQuestionsSpec([map["tags" := Str("ai-safety")]], NoFilter.(tag := Some("ai"))) == Ok([])
  {
    var q: Obj := map["tags" := Str("ai-safety")];
    var f := NoFilter.(tag := Some("ai"));
    StringTagsStages();
    assert [q][..0] == [] && [] + [q] == [q];
    FilterStep([q], 0, DirectKeeps(f), []);
    assert [q][..1] == [q];
    FilterStep([q], 0, SourcesHelpers.Keeps(HelperFilterOf(f)), []);
  }

  lemma StringTagsStages()
    ensures DirectKeeps(NoFilter.(tag := Some("ai")))(map["tags" := Str("ai-safety")]) == Ok(true)
    ensures SourcesHelpers.Keeps(HelperFilterOf(NoFilter.(tag := Some("ai"))))(map["tags" := Str("ai-safety")]) == Ok(false)
  {
    StringTagsPassDirect();
  }

  lemma StringTagsPassDirect()
    ensures DirectKeeps(NoFilter.(tag := Some("ai")))(map["tags" := Str("ai-safety")]) == Ok(true)
  {
    assert IsSubstring("ai", "ai-safety") by {
      assert "ai-safety"[0..2] == "ai";
    }
  }

  // ---------------------------------------------------------------------------------------
  // Aligning comments with forecast snapshots by UTC date

  /** `datetime.utcfromtimestamp(t).date()`, as a count of days since 1970-01-01 (floor division). */
  function DayOf(t: int): int
  {
    t / 86400
  }

  /** The date of an `end_time` that is a number, else None. */
  function DateOf(ft: Value): (r: Option<int>)
    ensures r.Some? <==> IsNumber(ft)
  {
    match ft
    case Int(i) => Some(DayOf(i))
    case Bool(b) => Some(DayOf(if b then 1 else 0))
    case _ => None
  }

  function Dates(times: seq<Value>): (r: seq<Option<int>>)
    ensures |r| == |times|
  {
    seq(|times|, i requires 0 <= i < |times| => DateOf(times[i]))
  }

  /** `fdate is not None and fdate > cdate`: the scan stops here. */
  predicate Later(d: Option<int>, day: int)
  {
    d.Some? && d.value > day
  }

  /** Where the scan stops: the first dated snapshot after `day`, or the end. */
  function FirstLater(dates: seq<Option<int>>, day: int): (r: nat)
    ensures r <= |dates|
    ensures forall i | 0 <= i < r :: !Later(dates[i], day)
    ensures r < |dates| ==> Later(dates[r], day)
    decreases |dates|
  {
    if dates == [] then 0
    else if Later(dates[0], day) then 0
    else 1 + FirstLater(dates[1..], day)
  }

  /** The last dated snapshot before position `n`, or -1. */
  function LastDated(dates: seq<Option<int>>, n: nat): (r: int)
    requires n <= |dates|
    ensures -1 <= r < n
    ensures r >= 0 ==> dates[r].Some?
    ensures forall i | r < i < n :: dates[i].None?
  {
    if n == 0 then -1
    else if dates[n - 1].Some? then n - 1
    else LastDated(dates, n - 1)
  }

  /** The snapshot the scan picks for a comment of date `day`, or -1 for none. */
  function ScanSlot(dates: seq<Option<int>>, day: int): (r: int)
    ensures -1 <= r < |dates|
    ensures r >= 0 ==> dates[r].Some? && dates[r].value <= day
  {
    LastDated(dates, FirstLater(dates, day))
  }

  /** The `for i, fdate in enumerate(forecast_dates)` scan with its `break`. */
  method DayScan(dates: seq<Option<int>>, day: int) returns (idx: int)
    ensures idx == ScanSlot(dates, day)
  {
    idx := -1;
    var i := 0;
    while i < |dates|
      invariant 0 <= i <= FirstLater(dates, day)
      invariant idx == LastDated(dates, i)
    {
      var fdate := dates[i];
      if fdate.Some? && fdate.value <= day {
        idx := i;
      } else if fdate.Some? && fdate.value > day {
        break;
      }
      i := i + 1;
    }
  }

  /** The dated snapshots are in non-decreasing date order. */
  predicate DatesAscending(dates: seq<Option<int>>)
  {
    forall i, j | 0 <= i < j < |dates| && dates[i].Some? && dates[j].Some? :: dates[i].value <= dates[j].value
  }

  /**
   * With dates in order, a comment goes to the last dated snapshot on or before its date,
   * and is dropped exactly when every dated snapshot is after it.
   */
  lemma ScanSlotSorted(dates: seq<Option<int>>, day: int)
    requires DatesAscending(dates)
    ensures var r := ScanSlot(dates, day);
            (forall j | r < j < |dates| && dates[j].Some? :: dates[j].value > day) &&
            (r == -1 <==> forall j | 0 <= j < |dates| && dates[j].Some? :: dates[j].value > day)
  {
    var stop := FirstLater(dates, day);
    var r := ScanSlot(dates, day);
    forall j | r < j < |dates| && dates[j].Some? ensures dates[j].value > day {
      if j >= stop {
        assert Later(dates[stop], day);
      }
    }
  }

  /** Out of order, the scan stops at the first later snapshot and misses an earlier one after it. */
  lemma ScanStopsAtFirstLater()
    ensures ScanSlot([Some(5), Some(1)], 2) == -1
  {
    assert FirstLater([Some(5), Some(1)], 2) == 0;
  }

  /** A comment's slot: the scan for the UTC date of `parse_time(c["created_at"])`. */
  function DaySlot(c: Value, dates: seq<Option<int>>, parse: TimeParser): (r: Result<int>)
    ensures r.Ok? ==> -1 <= r.value < |dates|
  {
    var ctime :- CreatedTime(c, parse);
    Ok(ScanSlot(dates, DayOf(ctime)))
  }

  function DaySlots(dates: seq<Option<int>>, parse: TimeParser): Value -> Result<int>
  {
    c => DaySlot(c, dates, parse)
  }

  /**
   * Alignment is by date only: a comment made earlier on the same UTC day as a snapshot's
   * end is attached to that snapshot.
   */
  lemma SameDayCommentAttached(parse: TimeParser)
    ensures DaySlot(Dict(map["created_at" := Int(50)]), Dates([Int(100)]), parse) == Ok(0)
  {
    assert Dates([Int(100)]) == [Some(0)];
    assert CreatedTime(Dict(map["created_at" := Int(50)]), parse) == Ok(50);
    assert FirstLater([Some(0)], 0) == 1;
  }

  /** An undated snapshot never receives a comment. */
  lemma UndatedGetsNothing(c: Value, dates: seq<Option<int>>, parse: TimeParser, i: nat)
    requires i < |dates| && dates[i].None? && DaySlot(c, dates, parse).Ok?
    ensures DaySlot(c, dates, parse).value != i
  {
  }

  /** The series `link_comments_to_forecasts` stores for one question. */
  function SeriesFor(q: Obj, commentsByQid: Obj, parse: TimeParser): Result<seq<Entry>>
  {
    var forecasts :- ResolveHistory(q);
    var snaps :- Filter(forecasts, HasEndTime);
    var cs :- CommentList(Get(commentsByQid, QidOf(q), List([])));
    var slots :- MapResult(cs, DaySlots(Dates(EndTimes(snaps)), parse));
    Ok(Attached(BaseSeries(snaps), cs, slots))
  }

  /** The body of the loop over questions: build the series, then scan for each comment's snapshot. */
  method LinkQuestion(q: Obj, commentsByQid: Obj, parse: TimeParser) returns (r: Result<seq<Entry>>)
    ensures r == SeriesFor(q, commentsByQid, parse)
  {
    var forecasts :- ResolveHistory(q);
    var snaps :- Filter(forecasts, HasEndTime);
    var dates := Dates(EndTimes(snaps));
    var series := BaseSeries(snaps);
    var comments :- CommentList(Get(commentsByQid, QidOf(q), List([])));
    ghost var slots: seq<int> := [];
    var k := 0;
    AttachLoopStart(series, comments, DaySlots(dates, parse));
    while k < |comments|
      invariant 0 <= k <= |comments|
      invariant AttachedPrefix(BaseSeries(snaps), comments, k, DaySlots(dates, parse), slots, series)
    {
      var c := comments[k];
      var ctime := CreatedTime(c, parse);
      if ctime.Err? {
        AttachLoopRaise(BaseSeries(snaps), comments, k, DaySlots(dates, parse), slots, series);
        return Err(ctime.error);
      }
      var idx := DayScan(dates, DayOf(ctime.value));
      AttachLoopStep(BaseSeries(snaps), comments, k, DaySlots(dates, parse), slots, series, idx);
      if idx >= 0 {
        series := series[idx := series[idx].(comments := series[idx].comments + [c])];
      }
      slots := slots + [idx];
      k := k + 1;
    }
    AttachLoopEnd(BaseSeries(snaps), comments, DaySlots(dates, parse), slots, series);
    return Ok(series);
  }

  /** The series of each question, as the loop over questions computes it. */
  function Linker(commentsByQid: Obj, parse: TimeParser): Obj -> Result<seq<Entry>>
  {
    q => SeriesFor(q, commentsByQid, parse)
  }

  /**
   * `link_comments_to_forecasts`: the loop over questions `LinkAll` describes, each series
   * built by `LinkQuestion`.
   */
  method LinkCommentsToForecasts(questions: seq<Obj>, commentsByQid: Obj, parse: TimeParser)
    returns (r: Result<map<string, seq<Entry>>>)
    ensures r == LinkAll(questions, Linker(commentsByQid, parse))
  {
    var result: map<string, seq<Entry>> := map[];
    var i := 0;
    while i < |questions|
      invariant 0 <= i <= |questions|
      invariant LinkAll(questions[..i], Linker(commentsByQid, parse)) == Ok(result)
    {
      var q := questions[i];
      LinkAllStep(questions, i, Linker(commentsByQid, parse), result);
      var s := LinkQuestion(q, commentsByQid, parse);
      i := i + 1;
      if s.Err? {
        LinkAllErrPrefix(questions, i, Linker(commentsByQid, parse));
        return Err(s.error);
      }
      result := result[QidOf(q) := s.value];
    }
    assert questions[..i] == questions;
    return Ok(result);
  }
}
