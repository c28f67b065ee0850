/**
 * The local JSON sources (cafe/forecast/source_local.py): a comment source and a question
 * source over a list of JSON items already read from the file. Reading the file is not
 * modelled; `datetime.fromisoformat` is the parameter `parseIso`.
 */
module SourceLocal {
  import opened Py
  import opened Records
  import opened Filtering

  /** `datetime.fromisoformat`: the instant (epoch seconds) a string denotes, if it parses. */
  type IsoParser = string -> Option<int>

  /** The author a comment gets when its own is missing or empty. */
  const UnknownAuthor: Value := Dict(map["id" := Int(-1), "username" := Str("unknown")])

  /** `datetime(1970, 1, 1)`, the creation time of a comment that has none. */
  const Epoch: int := 0

  // ---------------------------------------------------------------------------------------
  // Parsing comments

  function AuthorOf(kw: Obj): Author
  {
    Author(Get(kw, "id"), Get(kw, "username"), Get(kw, "is_bot", Bool(false)), Get(kw, "is_staff", Bool(false)))
  }

  /** `[MetaculusMentionedUser(**u) for u in xs]`. */
  function MentionedUserList(xs: seq<Value>): Result<seq<MentionedUser>>
    decreases |xs|
  {
    if xs == [] then Ok([])
    else
      var init :- MentionedUserList(xs[..|xs| - 1]);
      var kw :- Kwargs(xs[|xs| - 1], {"id", "username"}, {});
      Ok(init + [MentionedUser(Get(kw, "id"), Get(kw, "username"))])
  }

  /**
   * The `mentioned_users` field: None when falsy. A truthy value other than a list iterates
   * as strings, characters or nothing iterable, and each of those makes `**u` raise.
   */
  function MentionedUsersOf(item: Obj): Result<Option<seq<MentionedUser>>>
  {
    var mu := Get(item, "mentioned_users");
    if !Truthy(mu) then Ok(None)
    else if mu.List? then
      var users :- MentionedUserList(mu.items);
      Ok(Some(users))
    else Err(TypeError)
  }

  function ChangedMyMindOf(item: Obj): Result<Option<ChangedMyMind>>
  {
    var cm := Get(item, "changed_my_mind");
    if !Truthy(cm) then Ok(None)
    else
      var kw :- Kwargs(cm, {"count"}, {"for_this_user"});
      Ok(Some(ChangedMyMind(Get(kw, "count"), Get(kw, "for_this_user", Bool(false)))))
  }

  function CommentCreatedAt(item: Obj, parseIso: IsoParser): Result<int>
  {
    var v := Get(item, "created_at");
    if !Truthy(v) then Ok(Epoch)
    else if !v.Str? then Err(TypeError)
    else if parseIso(v.s).Some? then Ok(parseIso(v.s).value)
    else Err(ValueError)
  }

  function CommentOnPost(item: Obj): Result<int>
  {
    if Get(item, "on_post") == Null then Ok(-1) else ToInt(item["on_post"])
  }

  /**
   * `_parse_comment`: builds a comment record from a JSON item, raising as the source does
   * (in its order of evaluation) when a field has the wrong shape.
   */
  function ParseComment(item: Value, parseIso: IsoParser): (r: Result<Comment>)
    ensures !item.Dict? ==> r == Err(AttributeError)
    ensures r.Ok? ==> item.Dict? && r.value.raw == item
    ensures r.Ok? ==> "id" in item.fields && ToInt(item.fields["id"]) == Ok(r.value.id)
    ensures r.Ok? && !Truthy(Get(item.fields, "author", Dict(map[]))) ==>
              r.value.author == Author(Int(-1), Str("unknown"), Bool(false), Bool(false))
    ensures r.Ok? && Get(item.fields, "on_post") == Null ==> r.value.onPost == -1
    ensures r.Ok? && "on_post" in item.fields && item.fields["on_post"] != Null ==>
              ToInt(item.fields["on_post"]) == Ok(r.value.onPost)
    ensures r.Ok? && !Truthy(Get(item.fields, "created_at")) ==> r.value.createdAt == Epoch
    ensures r.Ok? && Truthy(Get(item.fields, "created_at")) ==>
              item.fields["created_at"].Str? && parseIso(item.fields["created_at"].s) == Some(r.value.createdAt)
    ensures r.Ok? ==> r.value.text == Get(item.fields, "text", Str(""))
  {
    if !item.Dict? then Err(AttributeError)
    else
      var m := item.fields;
      var given := Get(m, "author", Dict(map[]));
      var author := if Truthy(given) then given else UnknownAuthor;
      var mentioned :- MentionedUsersOf(m);
      var changed :- ChangedMyMindOf(m);
      var createdAt :- CommentCreatedAt(m, parseIso);
      var onPost :- CommentOnPost(m);
      var idValue :- Index(item, "id");
      var id :- ToInt(idValue);
      var authorFields :- Kwargs(author, {"id", "username"}, {"is_bot", "is_staff"});
      Ok(Comment(
           id, AuthorOf(authorFields), Get(m, "parent_id"), Get(m, "root_id"), createdAt,
           Get(m, "text", Str("")), onPost, Get(m, "included_forecast"), Get(m, "is_private"),
           Get(m, "vote_score"), changed, mentioned, Get(m, "user_vote"), item))
  }

  /** An item that carries nothing but an integer id parses with every default in place. */
  lemma MinimalCommentDefaults(n: int, parseIso: IsoParser)
    ensures ParseComment(Dict(map["id" := Int(n)]), parseIso) ==
            Ok(Comment(n, Author(Int(-1), Str("unknown"), Bool(false), Bool(false)), Null, Null, Epoch,
                       Str(""), -1, Null, Null, Null, None, None, Null, Dict(map["id" := Int(n)])))
  {
    var m := map["id" := Int(n)];
    assert Kwargs(UnknownAuthor, {"id", "username"}, {"is_bot", "is_staff"}) == Ok(UnknownAuthor.fields);
  }

  // ---------------------------------------------------------------------------------------
  // The comment source

  /** `str(item.get("on_post")) == str(question_id)`. */
  function OnPostMatches(item: Value, questionId: string): Result<bool>
  {
    var onPost :- GetFrom(item, "on_post");
    Ok(ToStr(onPost) == questionId)
  }

  function OnPostIs(questionId: string): Value -> Result<bool>
  {
    item => OnPostMatches(item, questionId)
  }

  /**
   * `list_comments_for_question`: the comprehension that tests each item and parses the
   * ones that match, in source order; the first exception of either step ends it.
   */
  function ListCommentsForQuestion(data: seq<Value>, questionId: string, parseIso: IsoParser)
    : Result<seq<Comment>>
    decreases |data|
  {
    if data == [] then Ok([])
    else
      var init :- ListCommentsForQuestion(data[..|data| - 1], questionId, parseIso);
      var item := data[|data| - 1];
      var matches :- OnPostMatches(item, questionId);
      if matches then
        var c :- ParseComment(item, parseIso);
        Ok(init + [c])
      else Ok(init)
  }

  /** A successful listing is the matching items, kept in order by the filter, each parsed. */
  lemma {:induction false} ListedAreParsedMatches(data: seq<Value>, questionId: string, parseIso: IsoParser)
    requires ListCommentsForQuestion(data, questionId, parseIso).Ok?
    ensures Filter(data, OnPostIs(questionId)).Ok?
    ensures var r := ListCommentsForQuestion(data, questionId, parseIso).value;
            var kept := Filter(data, OnPostIs(questionId)).value;
            |r| == |kept| && forall k | 0 <= k < |kept| :: ParseComment(kept[k], parseIso) == Ok(r[k])
    decreases |data|
  {
    if data != [] {
      var init := data[..|data| - 1];
      ListedAreParsedMatches(init, questionId, parseIso);
      var item := data[|data| - 1];
      assert OnPostIs(questionId)(item) == OnPostMatches(item, questionId);
    }
  }

  /** The comments listed for a question are exactly the items whose `on_post` matches it, in order. */
  lemma ListedCommentsMatch(data: seq<Value>, questionId: string)
    requires Filter(data, OnPostIs(questionId)).Ok?
    ensures var kept := Filter(data, OnPostIs(questionId)).value;
            IsSubsequence(kept, data) &&
            (forall x | x in kept :: x.Dict? && ToStr(Get(x.fields, "on_post")) == questionId) &&
            (forall x | x in data && x.Dict? && ToStr(Get(x.fields, "on_post")) == questionId :: x in kept)
  {
    var keep := OnPostIs(questionId);
    FilterIsSubsequence(data, keep);
    FilterMembers(data, keep);
    FilterOkIff(data, keep);
    var kept := Filter(data, keep).value;
    forall x | x in kept ensures x.Dict? && ToStr(Get(x.fields, "on_post")) == questionId {
      assert keep(x) == Ok(true);
    }
    forall x | x in data && x.Dict? && ToStr(Get(x.fields, "on_post")) == questionId ensures x in kept {
      assert keep(x) == Ok(true);
    }
  }

  /** `int(item.get("id")) == int(comment_id)`. */
  function CommentIdMatches(item: Value, commentId: int): Result<bool>
  {
    var idValue :- GetFrom(item, "id");
    var id :- ToInt(idValue);
    Ok(id == commentId)
  }

  ghost predicate NoCommentIdBefore(data: seq<Value>, i: nat, commentId: int)
    requires i <= |data|
  {
    forall j | 0 <= j < i :: CommentIdMatches(data[j], commentId) == Ok(false)
  }

  /**
   * `get_comment`: the first item whose id equals `commentId`, parsed; the exception of an
   * earlier item whose id cannot be read; or ValueError when no item matches.
   */
  method GetComment(data: seq<Value>, commentId: int, parseIso: IsoParser) returns (r: Result<Comment>)
    ensures forall i | 0 <= i < |data| && NoCommentIdBefore(data, i, commentId) ::
              CommentIdMatches(data[i], commentId) == Ok(true) ==> r == ParseComment(data[i], parseIso)
    ensures forall i | 0 <= i < |data| && NoCommentIdBefore(data, i, commentId) ::
              CommentIdMatches(data[i], commentId).Err? ==> r == Err(CommentIdMatches(data[i], commentId).error)
    ensures NoCommentIdBefore(data, |data|, commentId) ==> r == Err(ValueError)
  {
    var i := 0;
    while i < |data|
      invariant 0 <= i <= |data|
      invariant NoCommentIdBefore(data, i, commentId)
    {
      var matches := CommentIdMatches(data[i], commentId);
      if matches.Err? {
        return Err(matches.error);
      }
      if matches.value {
        return ParseComment(data[i], parseIso);
      }
      i := i + 1;
    }
    return Err(ValueError);
  }

  // ---------------------------------------------------------------------------------------
  // The question source

  /** `_parse_date`: None for a falsy value, a non-string, or a string that does not parse. */
  function ParseDate(v: Value, parseIso: IsoParser): (r: Option<int>)
    ensures r.Some? ==> v.Str? && v.s != "" && parseIso(v.s) == r
    ensures v.Str? && v.s != "" ==> r == parseIso(v.s)
  {
    if !Truthy(v) then None
    else if v.Str? then parseIso(v.s)
    else None
  }

  /** `_parse_question`, including the `tags or []` and `raw or {}` of the record's constructor. */
  function ParseQuestion(item: Value, parseIso: IsoParser): (r: Result<Question>)
    ensures r.Ok? <==> item.Dict?
    ensures r.Ok? ==> r.value.id == ToStr(Get(item.fields, "id"))
    ensures r.Ok? ==> r.value.title == Get(item.fields, "title", Str(""))
    ensures r.Ok? ==> r.value.createdAt == ParseDate(Get(item.fields, "created_at"), parseIso)
    ensures r.Ok? ==> ("tags" !in item.fields || !Truthy(item.fields["tags"]) <==> r.value.tags == List([]))
    ensures r.Ok? && "tags" in item.fields && Truthy(item.fields["tags"]) ==> r.value.tags == item.fields["tags"]
    ensures r.Ok? ==> r.value.raw == item && r.value.comments == None
  {
    if !item.Dict? then Err(AttributeError)
    else
      var m := item.fields;
      Ok(Question(
           ToStr(Get(m, "id")), Get(m, "title", Str("")), Get(m, "description"),
           Get(m, "resolution_criteria"), ParseDate(Get(m, "created_at"), parseIso),
           ParseDate(Get(m, "deadline"), parseIso), ParseDate(Get(m, "resolved_at"), parseIso),
           Get(m, "status"), Get(m, "community_prediction"), Get(m, "url"),
           Or(Get(m, "tags", List([])), List([])), Or(item, Dict(map[])), None))
  }

  /** `list_questions`: every item parsed, in order. */
  function ListQuestions(data: seq<Value>, parseIso: IsoParser): (r: Result<seq<Question>>)
    ensures r.Ok? <==> forall k | 0 <= k < |data| :: data[k].Dict?
    ensures r.Ok? ==> |r.value| == |data| &&
                      forall k | 0 <= k < |data| :: ParseQuestion(data[k], parseIso) == Ok(r.value[k])
    decreases |data|
  {
    if data == [] then Ok([])
    else
      var init :- ListQuestions(data[..|data| - 1], parseIso);
      var q :- ParseQuestion(data[|data| - 1], parseIso);
      Ok(init + [q])
  }

  /** `str(item.get("id")) == str(id)`. */
  function QuestionIdMatches(item: Value, id: string): Result<bool>
  {
    var idValue :- GetFrom(item, "id");
    Ok(ToStr(idValue) == id)
  }

  ghost predicate NoQuestionIdBefore(data: seq<Value>, i: nat, id: string)
    requires i <= |data|
  {
    forall j | 0 <= j < i :: QuestionIdMatches(data[j], id) == Ok(false)
  }

  /**
   * What `get_question` returns: scanning from the front, the first item whose stringified
   * id equals `id`, parsed; the exception of an earlier item that is not a dict; or
   * ValueError when no item matches.
   */
  function FindQuestion(data: seq<Value>, id: string, parseIso: IsoParser): Result<Question>
    decreases |data|
  {
    if data == [] then Err(ValueError)
    else
      var matches :- QuestionIdMatches(data[0], id);
      if matches then ParseQuestion(data[0], parseIso) else FindQuestion(data[1..], id, parseIso)
  }

  /** `get_question`'s loop, which returns from inside at the first match. */
  method GetQuestion(data: seq<Value>, id: string, parseIso: IsoParser) returns (r: Result<Question>)
    ensures r == FindQuestion(data, id, parseIso)
  {
    var i := 0;
    assert data[i..] == data;
    while i < |data|
      invariant 0 <= i <= |data|
      invariant FindQuestion(data[i..], id, parseIso) == FindQuestion(data, id, parseIso)
    {
      var matches := QuestionIdMatches(data[i], id);
      assert data[i..][0] == data[i] && data[i..][1..] == data[i + 1..];
      if matches.Err? {
        return Err(matches.error);
      }
      if matches.value {
        return ParseQuestion(data[i], parseIso);
      }
      i := i + 1;
    }
    assert data[i..] == [];
    return Err(ValueError);
  }

  /**
   * The question found is that of the first item whose id matches; an item before it that
   * is not a dict raises AttributeError; with no match the result is ValueError.
   */
  lemma {:induction false} FindQuestionFirst(data: seq<Value>, id: string, parseIso: IsoParser)
    ensures forall i | 0 <= i < |data| && NoQuestionIdBefore(data, i, id) ::
              QuestionIdMatches(data[i], id) == Ok(true) ==> FindQuestion(data, id, parseIso) == ParseQuestion(data[i], parseIso)
    ensures forall i | 0 <= i < |data| && NoQuestionIdBefore(data, i, id) ::
              QuestionIdMatches(data[i], id).Err? ==> FindQuestion(data, id, parseIso) == Err(AttributeError)
    ensures NoQuestionIdBefore(data, |data|, id) ==> FindQuestion(data, id, parseIso) == Err(ValueError)
    decreases |data|
  {
    if data != [] {
      var rest := data[1..];
      var first := QuestionIdMatches(data[0], id);
      assert forall i | 0 < i < |data| && NoQuestionIdBefore(data, i, id) :: first == Ok(false);
      if first == Ok(false) {
        FindQuestionFirst(rest, id, parseIso);
        assert FindQuestion(data, id, parseIso) == FindQuestion(rest, id, parseIso);
        forall i | 0 < i <= |data| && NoQuestionIdBefore(data, i, id) ensures NoQuestionIdBefore(rest, i - 1, id) {
          forall j | 0 <= j < i - 1 ensures QuestionIdMatches(rest[j], id) == Ok(false) {
            assert rest[j] == data[j + 1];
          }
        }
        forall i | 0 < i < |data| ensures data[i] == rest[i - 1] {
        }
      }
    }
  }

  // ---------------------------------------------------------------------------------------
  // The repository's comment-source test, on the model

  function SampleComment(id: int, questionId: string): Value
  {
    Dict(map[
      "id" := Int(id), "author" := Dict(map["id" := Int(1), "username" := Str("testuser")]),
      "parent_id" := Null, "root_id" := Null, "created_at" := Str("2025-05-26T20:00:00"),
      "text" := Str("Sample comment text."), "on_post" := Str(questionId),
      "included_forecast" := Null, "is_private" := Null, "vote_score" := Int(5),
      "changed_my_mind" := Null, "mentioned_users" := List([]), "user_vote" := Null])
  }

  lemma WellFormedCommentParses(item: Value, parseIso: IsoParser, id: int, author: Obj)
    requires item.Dict? && Index(item, "id") == Ok(Int(id))
    requires MentionedUsersOf(item.fields) == Ok(None) && ChangedMyMindOf(item.fields) == Ok(None)
    requires CommentCreatedAt(item.fields, parseIso).Ok? && CommentOnPost(item.fields).Ok?
    requires Get(item.fields, "author", Dict(map[])) == Dict(author) && author != map[]
    requires Kwargs(Dict(author), {"id", "username"}, {"is_bot", "is_staff"}) == Ok(author)
    ensures var c := ParseComment(item, parseIso);
            c.Ok? && c.value.id == id && c.value.author == AuthorOf(author) &&
            c.value.text == Get(item.fields, "text", Str(""))
  {
  }

  const SampleAuthor: Obj := map["id" := Int(1), "username" := Str("testuser")]

  lemma SampleAuthorField(id: int, questionId: string)
    ensures Get(SampleComment(id, questionId).fields, "author", Dict(map[])) == Dict(SampleAuthor)
  {
  }

  lemma SampleOptionalFields(id: int, questionId: string)
    ensures MentionedUsersOf(SampleComment(id, questionId).fields) == Ok(None)
    ensures ChangedMyMindOf(SampleComment(id, questionId).fields) == Ok(None)
  {
  }

  lemma SampleTimeField(id: int, questionId: string, parseIso: IsoParser)
    requires parseIso("2025-05-26T20:00:00").Some?
    ensures CommentCreatedAt(SampleComment(id, questionId).fields, parseIso) == Ok(parseIso("2025-05-26T20:00:00").value)
  {
  }

  lemma SamplePostField(id: int, questionId: string)
    ensures Get(SampleComment(id, questionId).fields, "on_post") == Str(questionId)
  {
  }

  lemma SampleOnPost(id: int, questionId: string, asked: string)
    ensures OnPostMatches(SampleComment(id, questionId), asked) == Ok(questionId == asked)
  {
    SamplePostField(id, questionId);
  }

  lemma SampleIdTextFields(id: int, questionId: string)
    ensures Index(SampleComment(id, questionId), "id") == Ok(Int(id))
    ensures Get(SampleComment(id, questionId).fields, "text", Str("")) == Str("Sample comment text.")
  {
  }

  lemma SampleCommentParses(id: int, questionId: string, parseIso: IsoParser)
    requires parseIso("2025-05-26T20:00:00").Some? && ParseInt(questionId).Some?
    ensures var c := ParseComment(SampleComment(id, questionId), parseIso);
            c.Ok? && c.value.id == id && c.value.author.username == Str("testuser") &&
            c.value.text == Str("Sample comment text.")
  {
    var item := SampleComment(id, questionId);
    SampleAuthorField(id, questionId);
    SampleOptionalFields(id, questionId);
    SampleTimeField(id, questionId, parseIso);
    SamplePostField(id, questionId);
    SampleIdTextFields(id, questionId);
    assert CommentOnPost(item.fields) == Ok(ParseInt(questionId).value);
    assert Kwargs(Dict(SampleAuthor), {"id", "username"}, {"is_bot", "is_staff"}) == Ok(SampleAuthor);
    WellFormedCommentParses(item, parseIso, id, SampleAuthor);
  }

  lemma ListSnocMatching(init: seq<Value>, item: Value, questionId: string, parseIso: IsoParser,
                          listed: seq<Comment>, c: Comment)
    requires ListCommentsForQuestion(init, questionId, parseIso) == Ok(listed)
    requires OnPostMatches(item, questionId) == Ok(true) && ParseComment(item, parseIso) == Ok(c)
    ensures ListCommentsForQuestion(init + [item], questionId, parseIso) == Ok(listed + [c])
  {
    var data := init + [item];
    assert data[..|data| - 1] == init && data[|data| - 1] == item;
  }

  lemma ListSnocOther(init: seq<Value>, item: Value, questionId: string, parseIso: IsoParser,
                      listed: seq<Comment>)
    requires ListCommentsForQuestion(init, questionId, parseIso) == Ok(listed)
    requires OnPostMatches(item, questionId) == Ok(false)
    ensures ListCommentsForQuestion(init + [item], questionId, parseIso) == Ok(listed)
  {
    var data := init + [item];
    assert data[..|data| - 1] == init && data[|data| - 1] == item;
  }

  lemma ListTwoOfThree(a: Value, b: Value, c: Value, questionId: string, parseIso: IsoParser)
    requires OnPostMatches(a, questionId) == Ok(true) && OnPostMatches(b, questionId) == Ok(true)
    requires OnPostMatches(c, questionId) == Ok(false)
    requires ParseComment(a, parseIso).Ok? && ParseComment(b, parseIso).Ok?
    ensures ListCommentsForQuestion([a, b, c], questionId, parseIso) ==
            Ok([ParseComment(a, parseIso).value, ParseComment(b, parseIso).value])
  {
    var pa, pb := ParseComment(a, parseIso).value, ParseComment(b, parseIso).value;
    ListSnocMatching([], a, questionId, parseIso, [], pa);
    assert [] + [a] == [a] && [] + [pa] == [pa];
    ListSnocMatching([a], b, questionId, parseIso, [pa], pb);
    assert [a] + [b] == [a, b] && [pa] + [pb] == [pa, pb];
    ListSnocOther([a, b], c, questionId, parseIso, [pa, pb]);
    assert [a, b] + [c] == [a, b, c];
  }

  lemma Parses101()
    ensures ParseInt("101").Some?
  {
    assert "101"[0] == '1' && "101"[1] == '0' && "101"[2] == '1';
    assert AllDigits("101");
  }

  /** The three sample comments of the repository's test. */
  function SampleData(): seq<Value>
  {
    [SampleComment(1, "101"), SampleComment(2, "101"), SampleComment(3, "102")]
  }

  /** Two of the three sample comments belong to question "101". */
  lemma LocalCommentSourceScenario(parseIso: IsoParser)
    requires parseIso("2025-05-26T20:00:00").Some?
    ensures var listed := ListCommentsForQuestion(SampleData(), "101", parseIso);
            listed.Ok? && |listed.value| == 2 && listed.value[0].text == Str("Sample comment text.")
  {
    Parses101();
    SampleCommentParses(1, "101", parseIso);
    SampleCommentParses(2, "101", parseIso);
    var a, b, c := SampleComment(1, "101"), SampleComment(2, "101"), SampleComment(3, "102");
    SampleOnPost(1, "101", "101");
    SampleOnPost(2, "101", "101");
    SampleOnPost(3, "102", "101");
    assert "102" != "101" by { assert "102"[2] != "101"[2]; }
    ListTwoOfThree(a, b, c, "101", parseIso);
  }

  lemma SampleIdMatches(id: int, questionId: string, asked: int)
    ensures CommentIdMatches(SampleComment(id, questionId), asked) == Ok(id == asked)
  {
    SampleIdTextFields(id, questionId);
  }

  /** Looking up comment 2 among the samples skips comment 1 and parses comment 2. */
  method GetCommentScenario(parseIso: IsoParser) returns (found: Result<Comment>)
    requires parseIso("2025-05-26T20:00:00").Some?
    ensures found.Ok? && found.value.id == 2 && found.value.author.username == Str("testuser")
  {
    var data := SampleData();
    found := GetComment(data, 2, parseIso);
    SampleIdMatches(1, "101", 2);
    SampleIdMatches(2, "101", 2);
    assert NoCommentIdBefore(data, 1, 2);
    Parses101();
    SampleCommentParses(2, "101", parseIso);
  }
}
