/**
 * What the two `link_comments_to_forecasts` functions share
 * (cafe/forecast/processing/metaculus.py:102-150 and cafe/sources/processing/metaculus.py:139-203):
 * resolving a question's forecast history, keeping the snapshots that have an `end_time`,
 * reading a comment's creation time, and the specification of attaching every comment to
 * the snapshot its slot names.
 */
module Alignment {
  import opened Py
  import opened Filtering

  /**
   * `parse_time` on a string: `float(s)`, or else `datetime.fromisoformat` after writing `Z`
   * as `+00:00`; the instant in epoch seconds, or None when neither parses.
   */
  type TimeParser = string -> Option<int>

  /** One element of a question's time series: `{"timestamp", "forecast", "comments"}`. */
  datatype Entry = Entry(timestamp: Value, forecast: Value, comments: seq<Value>)

  /** `str(q.get("id"))`, the key a question's series is stored under. */
  function QidOf(q: Obj): string
  {
    ToStr(Get(q, "id"))
  }

  /** No question among `questions[k + 1..upTo]` has the id of question `k`. */
  ghost predicate LastWithQid(questions: seq<Obj>, k: nat, upTo: nat)
    requires k < upTo <= |questions|
  {
    forall j | k < j < upTo :: QidOf(questions[j]) != QidOf(questions[k])
  }

  /** The ids of the first `n` questions. */
  ghost function QidsUpTo(questions: seq<Obj>, n: nat): set<string>
    requires n <= |questions|
  {
    set k | 0 <= k < n :: QidOf(questions[k])
  }

  lemma QidsStep(questions: seq<Obj>, n: nat)
    requires n < |questions|
    ensures QidsUpTo(questions, n + 1) == QidsUpTo(questions, n) + {QidOf(questions[n])}
  {
    var next, prev := QidsUpTo(questions, n + 1), QidsUpTo(questions, n);
    forall id | id in next ensures id in prev + {QidOf(questions[n])} {
      var k :| 0 <= k < n + 1 && QidOf(questions[k]) == id;
    }
    assert QidOf(questions[n]) in next;
  }

  /**
   * The loop over questions of `link_comments_to_forecasts`: store each question's series
   * under its id, a later question replacing an earlier one, and stop with the exception of
   * the first question whose series raises.
   */
  function LinkAll(questions: seq<Obj>, link: Obj -> Result<seq<Entry>>): Result<map<string, seq<Entry>>>
    decreases |questions|
  {
    if questions == [] then Ok(map[])
    else
      var last := questions[|questions| - 1];
      var result :- LinkAll(questions[..|questions| - 1], link);
      var series :- link(last);
      Ok(result[QidOf(last) := series])
  }

  /** One more question of the loop: it raises, or its series is stored. */
  lemma LinkAllStep(questions: seq<Obj>, i: nat, link: Obj -> Result<seq<Entry>>, result: map<string, seq<Entry>>)
    requires i < |questions| && LinkAll(questions[..i], link) == Ok(result)
    ensures link(questions[i]).Err? ==> LinkAll(questions[..i + 1], link) == Err(link(questions[i]).error)
    ensures link(questions[i]).Ok? ==>
              LinkAll(questions[..i + 1], link) == Ok(result[QidOf(questions[i]) := link(questions[i]).value])
  {
    assert questions[..i + 1][..i] == questions[..i];
  }

  /** Once a prefix raises, the whole loop raises the same exception. */
  lemma {:induction false} LinkAllErrPrefix(questions: seq<Obj>, i: nat, link: Obj -> Result<seq<Entry>>)
    requires i <= |questions| && LinkAll(questions[..i], link).Err?
    ensures LinkAll(questions, link) == LinkAll(questions[..i], link)
    decreases |questions| - i
  {
    if i < |questions| {
      assert questions[..i + 1][..i] == questions[..i];
      LinkAllErrPrefix(questions, i + 1, link);
    } else {
      assert questions[..i] == questions;
    }
  }

  /** The loop succeeds exactly when every question's series does. */
  lemma {:induction false} LinkAllOk(questions: seq<Obj>, link: Obj -> Result<seq<Entry>>)
    ensures LinkAll(questions, link).Ok? <==> forall k | 0 <= k < |questions| :: link(questions[k]).Ok?
    decreases |questions|
  {
    if questions != [] {
      var init := questions[..|questions| - 1];
      LinkAllOk(init, link);
      assert forall k | 0 <= k < |init| :: init[k] == questions[k];
    }
  }

  /** When the loop raises, it raises the exception of the first question whose series raises. */
  lemma {:induction false} LinkAllFirstError(questions: seq<Obj>, link: Obj -> Result<seq<Entry>>)
    requires LinkAll(questions, link).Err?
    ensures exists k | 0 <= k < |questions| ::
              link(questions[k]) == Err(LinkAll(questions, link).error) &&
              forall j | 0 <= j < k :: link(questions[j]).Ok?
    decreases |questions|
  {
    var init := questions[..|questions| - 1];
    assert forall j | 0 <= j < |init| :: init[j] == questions[j];
    if LinkAll(init, link).Err? {
      LinkAllFirstError(init, link);
      var k :| 0 <= k < |init| && link(init[k]) == Err(LinkAll(init, link).error) &&
               forall j | 0 <= j < k :: link(init[j]).Ok?;
      assert link(questions[k]) == Err(LinkAll(questions, link).error);
    } else {
      LinkAllOk(init, link);
      assert link(questions[|questions| - 1]) == Err(LinkAll(questions, link).error);
    }
  }

  /** A successful loop holds exactly the ids of the questions. */
  lemma {:induction false} LinkAllKeys(questions: seq<Obj>, link: Obj -> Result<seq<Entry>>)
    requires LinkAll(questions, link).Ok?
    ensures LinkAll(questions, link).value.Keys == QidsUpTo(questions, |questions|)
    decreases |questions|
  {
    if questions != [] {
      var n := |questions| - 1;
      var init := questions[..n];
      assert forall k | 0 <= k < n :: init[k] == questions[k];
      LinkAllKeys(init, link);
      assert QidsUpTo(init, n) == QidsUpTo(questions, n);
      QidsStep(questions, n);
    }
  }

  /** Under each id, a successful loop holds the series of the last question with that id. */
  lemma {:induction false} LinkAllLastWins(questions: seq<Obj>, link: Obj -> Result<seq<Entry>>)
    requires LinkAll(questions, link).Ok?
    ensures forall k | 0 <= k < |questions| && LastWithQid(questions, k, |questions|) ::
              link(questions[k]).Ok? && QidOf(questions[k]) in LinkAll(questions, link).value &&
              LinkAll(questions, link).value[QidOf(questions[k])] == link(questions[k]).value
    decreases |questions|
  {
    if questions != [] {
      var n := |questions| - 1;
      var init := questions[..n];
      LinkAllLastWins(init, link);
      LinkAllOk(questions, link);
      var last := questions[n];
      var prev := LinkAll(init, link).value;
      var result := LinkAll(questions, link).value;
      assert result == prev[QidOf(last) := link(last).value];
      forall k | 0 <= k < |questions| && LastWithQid(questions, k, |questions|)
        ensures QidOf(questions[k]) in result && result[QidOf(questions[k])] == link(questions[k]).value
      {
        if k < n {
          assert init[k] == questions[k];
          assert QidOf(questions[k]) != QidOf(last);
          assert LastWithQid(init, k, n) by {
            forall j | k < j < n ensures QidOf(init[j]) != QidOf(init[k]) {
              assert init[j] == questions[j];
            }
          }
        }
      }
    }
  }

  // ---------------------------------------------------------------------------------------
  // The forecast history of a question

  /** `q.get("question", {}).get("aggregations", {}).get("recency_weighted", {}).get("history", [])`. */
  function ExportHistory(q: Obj): Result<Value>
  {
    var question := Get(q, "question", Dict(map[]));
    var aggregations :- GetFrom(question, "aggregations", Dict(map[]));
    var weighted :- GetFrom(aggregations, "recency_weighted", Dict(map[]));
    GetFrom(weighted, "history", List([]))
  }

  /**
   * The legacy `community_prediction.history` unless it is None, else the export's
   * recency-weighted history; anything but a list counts as no history.
   */
  function ResolveHistory(q: Obj): (r: Result<seq<Value>>)
    ensures r.Err? ==> r.error == AttributeError
    ensures "community_prediction" !in q && "question" !in q ==> r == Ok([])
    ensures var cp := Get(q, "community_prediction", Dict(map[]));
            cp.Dict? && "history" in cp.fields && cp.fields["history"].List? ==>
              r == Ok(cp.fields["history"].items)
    ensures var cp := Get(q, "community_prediction", Dict(map[]));
            cp.Dict? && "history" in cp.fields && cp.fields["history"] != Null && !cp.fields["history"].List? ==>
              r == Ok([])
    ensures var cp := Get(q, "community_prediction", Dict(map[]));
            cp.Dict? && Get(cp.fields, "history") == Null ==>
              (r.Ok? <==> ExportHistory(q).Ok?) &&
              (r.Ok? ==> r.value == if ExportHistory(q).value.List? then ExportHistory(q).value.items else [])
  {
    var cp := Get(q, "community_prediction", Dict(map[]));
    var legacy :- GetFrom(cp, "history");
    var forecasts :- if legacy != Null then Ok(legacy) else ExportHistory(q);
    Ok(if forecasts.List? then forecasts.items else [])
  }

  // ---------------------------------------------------------------------------------------
  // Snapshots

  /** `"end_time" in f and f["end_time"] is not None`, with the exceptions of `in` and `[]`. */
  function HasEndTime(f: Value): (r: Result<bool>)
    ensures r == Ok(true) ==> f.Dict? && "end_time" in f.fields && f.fields["end_time"] != Null
    ensures f.Dict? ==> r == Ok("end_time" in f.fields && f.fields["end_time"] != Null)
    ensures f.List? || f.Str? ==> (r.Ok? <==> r == Ok(false))
  {
    var present :- Contains(f, "end_time");
    if !present then Ok(false)
    else
      var t :- Index(f, "end_time");
      Ok(t != Null)
  }

  /** `f.get("end_time")` for a snapshot dict. */
  function EndTime(f: Value): Value
  {
    if f.Dict? then Get(f.fields, "end_time") else Null
  }

  /** `forecast_times`: the end times of the kept snapshots. */
  function EndTimes(snaps: seq<Value>): (r: seq<Value>)
    ensures |r| == |snaps|
  {
    seq(|snaps|, i requires 0 <= i < |snaps| => EndTime(snaps[i]))
  }

  /** `time_series` before any comment is attached. */
  function BaseSeries(snaps: seq<Value>): (r: seq<Entry>)
    ensures |r| == |snaps|
  {
    seq(|snaps|, i requires 0 <= i < |snaps| => Entry(EndTime(snaps[i]), snaps[i], []))
  }

  /**
   * The series has one entry per snapshot with a non-null `end_time`, in source order, each
   * stamped with that end time and starting with no comments; `forecast_times` lines up
   * with it index by index.
   */
  lemma SnapshotSeries(forecasts: seq<Value>)
    requires Filter(forecasts, HasEndTime).Ok?
    ensures var snaps := Filter(forecasts, HasEndTime).value;
            var times, series := EndTimes(snaps), BaseSeries(snaps);
            IsSubsequence(snaps, forecasts) &&
            |times| == |series| == |snaps| &&
            (forall i | 0 <= i < |snaps| ::
               snaps[i].Dict? && "end_time" in snaps[i].fields && snaps[i].fields["end_time"] != Null &&
               times[i] == series[i].timestamp == snaps[i].fields["end_time"] &&
               series[i].forecast == snaps[i] && series[i].comments == []) &&
            (forall f | f in forecasts && f.Dict? && "end_time" in f.fields && f.fields["end_time"] != Null ::
               f in snaps)
  {
    var snaps := Filter(forecasts, HasEndTime).value;
    FilterIsSubsequence(forecasts, HasEndTime);
    FilterMembers(forecasts, HasEndTime);
    forall i | 0 <= i < |snaps|
      ensures snaps[i].Dict? && "end_time" in snaps[i].fields && snaps[i].fields["end_time"] != Null
    {
      assert snaps[i] in snaps;
    }
  }

  // ---------------------------------------------------------------------------------------
  // Comments

  /**
   * `for c in comments_by_qid.get(qid, [])`: a list yields its items; an empty dict or string
   * yields nothing; a non-empty one yields strings, on which the first `c["created_at"]`
   * raises TypeError; anything else is not iterable.
   */
  function CommentList(v: Value): (r: Result<seq<Value>>)
    ensures r.Ok? <==> v.List? || v == Dict(map[]) || v == Str("")
    ensures r.Ok? ==> r.value == if v.List? then v.items else []
    ensures r.Err? ==> r.error == TypeError
  {
    match v
    case List(xs) => Ok(xs)
    case Dict(m) => if m == map[] then Ok([]) else Err(TypeError)
    case Str(s) => if s == "" then Ok([]) else Err(TypeError)
    case _ => Err(TypeError)
  }

  /** `parse_time(v)`: numbers as they are, strings through the parser. */
  function ParseTime(v: Value, parse: TimeParser): (r: Result<int>)
    ensures v.Int? ==> r == Ok(v.i)
    ensures v.Str? ==> (r.Ok? <==> parse(v.s).Some?) && (r.Ok? ==> Some(r.value) == parse(v.s))
    ensures !IsNumber(v) && !v.Str? ==> r.Err?
  {
    match v
    case Int(i) => Ok(i)
    case Bool(b) => Ok(if b then 1 else 0)
    case Str(s) => if parse(s).Some? then Ok(parse(s).value) else Err(ValueError)
    case DateTime(_) => Err(TypeError)
    case _ => Err(AttributeError)
  }

  /** `parse_time(c["created_at"])`. */
  function CreatedTime(c: Value, parse: TimeParser): (r: Result<int>)
    ensures !c.Dict? ==> r == Err(TypeError)
    ensures c.Dict? && "created_at" !in c.fields ==> r == Err(KeyError)
    ensures c.Dict? && "created_at" in c.fields ==> r == ParseTime(c.fields["created_at"], parse)
  {
    var t :- Index(c, "created_at");
    ParseTime(t, parse)
  }

  // ---------------------------------------------------------------------------------------
  // Attaching comments

  /** `[f(x) for x in xs]`, stopping at the first exception. */
  function MapResult<T, U>(xs: seq<T>, f: T -> Result<U>): (r: Result<seq<U>>)
    ensures r.Ok? ==> |r.value| == |xs| && forall k | 0 <= k < |xs| :: f(xs[k]) == Ok(r.value[k])
    ensures r.Ok? <==> forall k | 0 <= k < |xs| :: f(xs[k]).Ok?
    decreases |xs|
  {
    if xs == [] then Ok([])
    else
      var init :- MapResult(xs[..|xs| - 1], f);
      var y :- f(xs[|xs| - 1]);
      Ok(init + [y])
  }

  /** Once a prefix raises, the whole map raises the same exception. */
  lemma {:induction false} MapErrPrefix<T, U>(xs: seq<T>, i: nat, f: T -> Result<U>)
    requires i <= |xs|
    requires MapResult(xs[..i], f).Err?
    ensures MapResult(xs, f) == MapResult(xs[..i], f)
    decreases |xs| - i
  {
    if i < |xs| {
      assert xs[..i + 1][..i] == xs[..i];
      MapErrPrefix(xs, i + 1, f);
    } else {
      assert xs[..i] == xs;
    }
  }

  /** The comments whose slot is `i`, in input order. */
  function Bucket(cs: seq<Value>, slots: seq<int>, i: int): seq<Value>
    requires |cs| == |slots|
    decreases |cs|
  {
    if cs == [] then []
    else
      Bucket(cs[..|cs| - 1], slots[..|slots| - 1], i) + if slots[|slots| - 1] == i then [cs[|cs| - 1]] else []
  }

  /** The series after every comment was appended to the entry its slot names. */
  function Attached(base: seq<Entry>, cs: seq<Value>, slots: seq<int>): (r: seq<Entry>)
    requires |cs| == |slots|
    ensures |r| == |base|
  {
    seq(|base|, j requires 0 <= j < |base| => base[j].(comments := base[j].comments + Bucket(cs, slots, j)))
  }

  /** One more comment: it is appended to the entry of its slot, or dropped when the slot is -1. */
  lemma AttachStep(base: seq<Entry>, cs: seq<Value>, slots: seq<int>, c: Value, s: int)
    requires |cs| == |slots| && -1 <= s < |base|
    ensures var a := Attached(base, cs, slots);
            Attached(base, cs + [c], slots + [s]) ==
              if s >= 0 then a[s := a[s].(comments := a[s].comments + [c])] else a
  {
    var cs', slots' := cs + [c], slots + [s];
    assert cs'[..|cs'| - 1] == cs && slots'[..|slots'| - 1] == slots;
    var a, a' := Attached(base, cs, slots), Attached(base, cs', slots');
    forall j | 0 <= j < |base|
      ensures a'[j] == if j == s then a[j].(comments := a[j].comments + [c]) else a[j]
    {
      assert Bucket(cs', slots', j) == Bucket(cs, slots, j) + if s == j then [c] else [];
    }
  }

  /** The attach loop after its first `k` comments: their slots, and the series they built. */
  ghost predicate AttachedPrefix(base: seq<Entry>, cs: seq<Value>, k: nat, slotOf: Value -> Result<int>,
                                 slots: seq<int>, series: seq<Entry>)
    requires k <= |cs|
  {
    MapResult(cs[..k], slotOf) == Ok(slots) && |slots| == k && series == Attached(base, cs[..k], slots)
  }

  lemma AttachLoopStart(base: seq<Entry>, cs: seq<Value>, slotOf: Value -> Result<int>)
    ensures AttachedPrefix(base, cs, 0, slotOf, [], base)
  {
    assert cs[..0] == [];
    NoCommentsNoChange(base);
  }

  /** The loop body: the next comment's slot is recorded and the comment appended to that entry. */
  lemma AttachLoopStep(base: seq<Entry>, cs: seq<Value>, k: nat, slotOf: Value -> Result<int>,
                       slots: seq<int>, series: seq<Entry>, s: int)
    requires k < |cs| && AttachedPrefix(base, cs, k, slotOf, slots, series)
    requires slotOf(cs[k]) == Ok(s) && -1 <= s < |base|
    ensures AttachedPrefix(base, cs, k + 1, slotOf, slots + [s],
                           if s >= 0 then series[s := series[s].(comments := series[s].comments + [cs[k]])] else series)
  {
    assert cs[..k + 1][..k] == cs[..k] && cs[..k + 1] == cs[..k] + [cs[k]];
    AttachStep(base, cs[..k], slots, cs[k], s);
  }

  /** A comment whose slot raises ends the loop with that exception. */
  lemma AttachLoopRaise(base: seq<Entry>, cs: seq<Value>, k: nat, slotOf: Value -> Result<int>,
                        slots: seq<int>, series: seq<Entry>)
    requires k < |cs| && AttachedPrefix(base, cs, k, slotOf, slots, series) && slotOf(cs[k]).Err?
    ensures MapResult(cs, slotOf) == Err(slotOf(cs[k]).error)
  {
    assert cs[..k + 1][..k] == cs[..k];
    MapErrPrefix(cs, k + 1, slotOf);
  }

  lemma AttachLoopEnd(base: seq<Entry>, cs: seq<Value>, slotOf: Value -> Result<int>,
                      slots: seq<int>, series: seq<Entry>)
    requires AttachedPrefix(base, cs, |cs|, slotOf, slots, series)
    ensures MapResult(cs, slotOf) == Ok(slots) && |slots| == |cs| && series == Attached(base, cs, slots)
  {
    assert cs[..|cs|] == cs;
  }

  /** Each entry keeps its comments in input order. */
  lemma {:induction false} BucketIsSubsequence(cs: seq<Value>, slots: seq<int>, i: int)
    requires |cs| == |slots|
    ensures IsSubsequence(Bucket(cs, slots, i), cs)
    decreases |cs|
  {
    if cs != [] {
      var init, last := cs[..|cs| - 1], cs[|cs| - 1];
      var b := Bucket(init, slots[..|slots| - 1], i);
      BucketIsSubsequence(init, slots[..|slots| - 1], i);
      if slots[|slots| - 1] == i {
        assert (b + [last])[..|b|] == b;
      } else {
        assert Bucket(cs, slots, i) == b;
        SubsequenceOfPrefix(b, init, cs);
      }
    }
  }

  /** Entry `i` holds exactly the comments whose slot is `i`. */
  lemma {:induction false} BucketMembers(cs: seq<Value>, slots: seq<int>, i: int)
    requires |cs| == |slots|
    ensures forall x | x in Bucket(cs, slots, i) :: exists k | 0 <= k < |cs| :: cs[k] == x && slots[k] == i
    ensures forall k | 0 <= k < |cs| && slots[k] == i :: cs[k] in Bucket(cs, slots, i)
    decreases |cs|
  {
    if cs != [] {
      var n := |cs| - 1;
      var init, initSlots := cs[..n], slots[..n];
      BucketMembers(init, initSlots, i);
      var b := Bucket(cs, slots, i);
      forall x | x in b ensures exists k | 0 <= k < |cs| :: cs[k] == x && slots[k] == i {
        if x in Bucket(init, initSlots, i) {
          var k :| 0 <= k < |init| && init[k] == x && initSlots[k] == i;
          assert cs[k] == x && slots[k] == i;
        } else {
          assert cs[n] == x && slots[n] == i;
        }
      }
      forall k | 0 <= k < |cs| && slots[k] == i ensures cs[k] in b {
        if k < n {
          assert init[k] == cs[k] && initSlots[k] == i;
        }
      }
    }
  }

  /** The number of comments a series holds. */
  function TotalComments(es: seq<Entry>): nat
    decreases |es|
  {
    if es == [] then 0 else TotalComments(es[..|es| - 1]) + |es[|es| - 1].comments|
  }

  /** How many slots name an entry of a series of length `n`. */
  function CountPlaced(slots: seq<int>, n: int): (r: nat)
    ensures r <= |slots|
    decreases |slots|
  {
    if slots == [] then 0
    else CountPlaced(slots[..|slots| - 1], n) + if 0 <= slots[|slots| - 1] < n then 1 else 0
  }

  lemma {:induction false} TotalCommentsUpdate(es: seq<Entry>, s: nat, e: Entry)
    requires s < |es|
    ensures TotalComments(es[s := e]) + |es[s].comments| == TotalComments(es) + |e.comments|
    decreases |es|
  {
    var n := |es| - 1;
    var es' := es[s := e];
    assert es'[..n] == if s < n then es[..n][s := e] else es[..n];
    if s < n {
      TotalCommentsUpdate(es[..n], s, e);
    }
  }

  /**
   * Every comment lands in at most one entry: attaching adds exactly one comment per slot
   * that names an entry, so never more than there are comments.
   */
  lemma {:induction false} AttachedTotal(base: seq<Entry>, cs: seq<Value>, slots: seq<int>)
    requires |cs| == |slots|
    requires forall k | 0 <= k < |slots| :: -1 <= slots[k] < |base|
    ensures TotalComments(Attached(base, cs, slots)) == TotalComments(base) + CountPlaced(slots, |base|)
    ensures TotalComments(Attached(base, cs, slots)) <= TotalComments(base) + |cs|
    decreases |cs|
  {
    if cs == [] {
      NoCommentsNoChange(base);
    } else {
      var n := |cs| - 1;
      var init, initSlots := cs[..n], slots[..n];
      AttachedTotal(base, init, initSlots);
      AttachStep(base, init, initSlots, cs[n], slots[n]);
      assert init + [cs[n]] == cs && initSlots + [slots[n]] == slots;
      var a := Attached(base, init, initSlots);
      if slots[n] >= 0 {
        TotalCommentsUpdate(a, slots[n], a[slots[n]].(comments := a[slots[n]].comments + [cs[n]]));
      }
    }
  }

  /** A question without comments keeps every entry as built. */
  lemma NoCommentsNoChange(base: seq<Entry>)
    ensures Attached(base, [], []) == base
  {
    var a := Attached(base, [], []);
    forall j | 0 <= j < |base| ensures a[j] == base[j] {
      assert base[j].comments + [] == base[j].comments;
    }
  }
}
