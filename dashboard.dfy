/**
 * The dashboard: the derivation of the visible list, the status distribution, the
 * creation-date trend and the completion rate from the task collection, the filter
 * and the search text; the mirroring of filter and search into the URL; and the
 * local collection updates after an edit or a delete.
 */
module Dashboard {
  import opened Wrappers
  import opened Effects
  import opened JsString
  import opened Seqs
  import opened TaskRecord
  import opened SessionStore

  /** `STATUS_LABEL`: server status code to displayed label. */
  const STATUS_LABEL: map<string, string> := map["todo" := "待辦", "in_progress" := "進行中", "done" := "已完成"]

  /** `LABEL_STATUS`: displayed label to server status code. */
  const LABEL_STATUS: map<string, string> := map["待辦" := "todo", "進行中" := "in_progress", "已完成" := "done"]

  /** The filter value that keeps every status. */
  const AllLabel := "全部"

  /** The three status codes, in the order of the distribution chart. */
  const Codes: seq<string> := ["todo", "in_progress", "done"]

  /** The two label tables are inverse bijections between the three codes and the three labels, and "全部" is not a label. */
  lemma LabelTablesInverse()
    ensures STATUS_LABEL.Keys == {"todo", "in_progress", "done"} == LABEL_STATUS.Values
    ensures LABEL_STATUS.Keys == STATUS_LABEL.Values
    ensures forall code :: code in STATUS_LABEL ==> LABEL_STATUS[STATUS_LABEL[code]] == code
    ensures forall name :: name in LABEL_STATUS ==> STATUS_LABEL[LABEL_STATUS[name]] == name
    ensures AllLabel !in LABEL_STATUS
  {
    assert LABEL_STATUS.Keys == {"待辦", "進行中", "已完成"};
  }

  // ---------------------------------------------------------------------------
  // URL parameters

  /** The initial filter: `searchParams.get("status") || "全部"`. */
  function InitialFilter(params: map<string, string>): (f: string)
    ensures f != ""
    ensures "status" in params && params["status"] != "" ==> f == params["status"]
    ensures !("status" in params && params["status"] != "") ==> f == AllLabel
  {
    if "status" in params && params["status"] != "" then params["status"] else AllLabel
  }

  /** The initial search text: `searchParams.get("q") || ""`. */
  function InitialQuery(params: map<string, string>): (q: string)
    ensures "q" in params ==> q == params["q"]
    ensures "q" !in params ==> q == ""
  {
    if "q" in params then params["q"] else ""
  }

  /** The parameters written back on every filter or search change: `status` unless the filter is "全部", `q` when the trimmed search is non-empty, nothing else. */
  function SyncParams(filter: string, query: string): (p: map<string, string>)
    ensures p.Keys <= {"status", "q"}
    ensures "status" in p <==> filter != AllLabel
    ensures "status" in p ==> p["status"] == filter
    ensures "q" in p <==> Trim(query) != ""
    ensures "q" in p ==> p["q"] == Trim(query)
  {
    var withStatus := if filter != AllLabel then map["status" := filter] else map[];
    if Trim(query) != "" then withStatus["q" := Trim(query)] else withStatus
  }

  /** Reading the written parameters back gives the same filter and the trimmed search text. */
  lemma SyncRoundTrip(filter: string, query: string)
    requires filter != ""
    ensures InitialFilter(SyncParams(filter, query)) == filter
    ensures InitialQuery(SyncParams(filter, query)) == Trim(query)
  {
    if Trim(query) == "" {
      TrimSpec(query);
    }
  }

  // ---------------------------------------------------------------------------
  // The visible list

  /** A visible task: the record plus its display label (`{ ...t, statusLabel }`); `None` is `undefined`. */
  datatype LabeledTask = LabeledTask(task: Task, statusLabel: Option<string>)

  /**
   * `STATUS_LABEL[t.status] ?? t.status`: a known code shows its label, any other
   * string shows itself, and a missing status stays `undefined`.
   */
  function StatusLabelOf(status: Option<string>): (shown: Option<string>)
    ensures shown.None? <==> status.None?
    ensures status.Some? && status.value in STATUS_LABEL ==> shown == Some(STATUS_LABEL[status.value]) && shown.value in LABEL_STATUS
    ensures status.Some? && status.value !in STATUS_LABEL ==> shown == status
  {
    if status.Some? && status.value in STATUS_LABEL then Some(STATUS_LABEL[status.value]) else status
  }

  /** The search needle: the trimmed, lower-cased search text; empty exactly when the text is blank. */
  function Needle(query: string): (needle: string)
    ensures |needle| <= |query|
    ensures needle == "" <==> AllWhitespace(query)
  {
    TrimSpec(query);
    ToLower(Trim(query))
  }

  /** `statusKey = LABEL_STATUS[statusFilter]`: the code of a label, `undefined` for anything else. */
  function StatusKey(filter: string): (key: Option<string>)
    ensures key.Some? <==> filter in LABEL_STATUS
    ensures key.Some? ==> key.value in STATUS_LABEL && STATUS_LABEL[key.value] == filter
  {
    LabelTablesInverse();
    if filter in LABEL_STATUS then Some(LABEL_STATUS[filter]) else None
  }

  /**
   * `statusOk`: every task under "全部"; under a label, the tasks whose status is the
   * code that label names; under any other filter `statusKey` is `undefined`, and only
   * the tasks without a status compare equal to it.
   */
  predicate StatusOk(filter: string, t: Task)
    ensures filter == AllLabel ==> StatusOk(filter, t)
    ensures filter in LABEL_STATUS ==>
              (StatusOk(filter, t) <==> t.status.Some? && t.status.value in STATUS_LABEL && STATUS_LABEL[t.status.value] == filter)
    ensures filter != AllLabel && filter !in LABEL_STATUS ==> (StatusOk(filter, t) <==> t.status.None?)
  {
    LabelTablesInverse();
    filter == AllLabel || t.status == StatusKey(filter)
  }

  /**
   * The search test: an empty needle keeps everything, otherwise the needle must occur
   * in the lower-cased title (`t.title || ""`) or description.
   */
  predicate SearchOk(needle: string, t: Task)
    ensures needle == "" ==> SearchOk(needle, t)
    ensures SearchOk(needle, t) <==>
              needle == ""
              || (exists i :: 0 <= i <= |ToLower(t.title.GetOr(""))| && needle <= ToLower(t.title.GetOr(""))[i..])
              || (exists i :: 0 <= i <= |ToLower(t.description)| && needle <= ToLower(t.description)[i..])
  {
    IncludesIffOccurs(ToLower(t.title.GetOr("")), needle);
    IncludesIffOccurs(ToLower(t.description), needle);
    needle == "" || Includes(ToLower(t.title.GetOr("")), needle) || Includes(ToLower(t.description), needle)
  }

  function Keeps(filter: string, needle: string): Task -> bool {
    (t: Task) => StatusOk(filter, t) && SearchOk(needle, t)
  }

  function Unlabel(view: seq<LabeledTask>): (s: seq<Task>)
    ensures |s| == |view| && forall i :: 0 <= i < |view| ==> s[i] == view[i].task
  {
    seq(|view|, i requires 0 <= i < |view| => view[i].task)
  }

  /** `viewTasks`: the kept tasks, in order, each with its display label. */
  function ViewTasks(tasks: seq<Task>, filter: string, query: string): (view: seq<LabeledTask>)
    ensures |view| <= |tasks|
    ensures Unlabel(view) == Filter(tasks, Keeps(filter, Needle(query)))
    ensures forall i :: 0 <= i < |view| ==> view[i].statusLabel == StatusLabelOf(view[i].task.status)
  {
    var kept := Filter(tasks, Keeps(filter, Needle(query)));
    var view := seq(|kept|, i requires 0 <= i < |kept| => LabeledTask(kept[i], StatusLabelOf(kept[i].status)));
    assert Unlabel(view) == kept;
    view
  }

  /**
   * A task is visible exactly when it is in the collection, passes the status test and
   * passes the search test; the visible tasks keep the order of the collection.
   */
  lemma ViewMembership(tasks: seq<Task>, filter: string, query: string, t: Task)
    ensures t in Unlabel(ViewTasks(tasks, filter, query)) <==>
              t in tasks && StatusOk(filter, t) && SearchOk(Needle(query), t)
    ensures IsSubsequence(Unlabel(ViewTasks(tasks, filter, query)), tasks)
  {
    FilterMembership(tasks, Keeps(filter, Needle(query)), t);
    FilterIsSubsequence(tasks, Keeps(filter, Needle(query)));
  }

  /**
   * Under a label the visible tasks are those whose status shows that very label;
   * under a filter that is neither "全部" nor a label (a hand-edited `?status=`), the
   * visible tasks are exactly those without a status.
   */
  lemma FilterByLabel(tasks: seq<Task>, filter: string, query: string, t: Task)
    ensures filter in LABEL_STATUS ==>
              (t in Unlabel(ViewTasks(tasks, filter, query)) <==>
                 t in tasks && StatusLabelOf(t.status) == Some(filter) && t.status.value in STATUS_LABEL && SearchOk(Needle(query), t))
    ensures filter != AllLabel && filter !in LABEL_STATUS ==>
              (t in Unlabel(ViewTasks(tasks, filter, query)) <==>
                 t in tasks && t.status.None? && SearchOk(Needle(query), t))
  {
    ViewMembership(tasks, filter, query, t);
  }

  /** A search text that is empty after trimming filters nothing. */
  lemma BlankQueryIsNoOp(tasks: seq<Task>, filter: string, query: string)
    requires AllWhitespace(query)
    ensures ViewTasks(tasks, filter, query) == ViewTasks(tasks, filter, "")
  {
    TrimSpec(query);
    TrimSpec("");
  }

  /** Under "全部" and an empty search every task is visible, in order. */
  lemma AllWithoutSearchShowsEverything(tasks: seq<Task>, query: string)
    requires AllWhitespace(query)
    ensures Unlabel(ViewTasks(tasks, AllLabel, query)) == tasks
  {
    TrimSpec(query);
    FilterAll(tasks, Keeps(AllLabel, Needle(query)));
  }

  /** Only the trimmed search text matters, so the trimmed text the URL keeps reproduces the view. */
  lemma TrimmedQuerySameView(tasks: seq<Task>, filter: string, query: string)
    ensures ViewTasks(tasks, filter, Trim(query)) == ViewTasks(tasks, filter, query)
  {
    TrimIdempotent(query);
  }

  /** Reloading the page from the parameters it wrote shows the same list. */
  lemma ReloadReproducesView(tasks: seq<Task>, filter: string, query: string)
    requires filter != ""
    ensures var p := SyncParams(filter, query);
            ViewTasks(tasks, InitialFilter(p), InitialQuery(p)) == ViewTasks(tasks, filter, query)
  {
    SyncRoundTrip(filter, query);
    TrimmedQuerySameView(tasks, filter, query);
  }

  /** Search finds its needle anywhere in the title: " 任務 " matches a task titled "第一個任務". */
  lemma SearchFindsSubstring(t: Task)
    requires t.title == Some("第一個任務")
    ensures SearchOk(Needle(" 任務 "), t)
  {
    var needle := "任務";
    var title := t.title.value;
    assert TrimStart(" 任務 ") == TrimStart("任務 ") == "任務 ";
    assert "任務 "[..|"任務 "| - 1] == needle;
    assert TrimEnd("任務 ") == TrimEnd(needle) == needle;
    assert ToLower(needle) == needle;
    assert ToLower(title) == title;
    assert needle <= title[3..];
    IncludesIffOccurs(title, needle);
  }

  /** Search ignores ASCII case: "DEMO" matches a task described as "demo". */
  lemma SearchIgnoresCase(t: Task)
    requires t.description == "demo"
    ensures SearchOk(Needle("DEMO"), t)
  {
    TrimOfTrimmed("DEMO");
    assert ToLower("DEMO") == "demo";
    assert ToLower(t.description) == "demo";
  }

  // ---------------------------------------------------------------------------
  // Status distribution and completion rate

  /** One slice of the status chart: `{ name, value }`. */
  datatype Slice = Slice(name: string, value: nat)

  function HasStatus(code: string): LabeledTask -> bool {
    (v: LabeledTask) => v.task.status == Some(code)
  }

  /** The number of visible tasks whose status is `code`. */
  function CountStatus(view: seq<LabeledTask>, code: string): (n: nat)
    ensures n <= |view|
  {
    Count(view, HasStatus(code))
  }

  /**
   * `statusData`: three slices, labelled and ordered todo, in_progress, done, each
   * counting the visible tasks with that status.
   */
  method StatusData(view: seq<LabeledTask>) returns (data: seq<Slice>)
    ensures |data| == |Codes|
    ensures forall i :: 0 <= i < |Codes| ==> data[i] == Slice(STATUS_LABEL[Codes[i]], CountStatus(view, Codes[i]))
  {
    var counts := map["todo" := 0, "in_progress" := 0, "done" := 0];
    for i := 0 to |view|
      invariant counts.Keys == STATUS_LABEL.Keys
      invariant forall code :: code in counts ==> counts[code] == CountStatus(view[..i], code)
    {
      forall code | code in counts
        ensures CountStatus(view[..i + 1], code) == CountStatus(view[..i], code) + (if view[i].task.status == Some(code) then 1 else 0)
      {
        FilterSnoc(view, i, HasStatus(code));
      }
      // `t.status in counts`: a missing status is looked up as the key "undefined", which is not there.
      var status := view[i].task.status;
      if status.Some? && status.value in counts {
        counts := counts[status.value := counts[status.value] + 1];
      }
    }
    assert view[..|view|] == view;
    data := [Slice("待辦", counts["todo"]), Slice("進行中", counts["in_progress"]), Slice("已完成", counts["done"])];
  }

  predicate KnownStatus(v: LabeledTask) {
    v.task.status.Some? && v.task.status.value in STATUS_LABEL
  }

  /**
   * The three counts add up to the number of visible tasks with a known status: at most
   * the number of visible tasks, and exactly that number when every status is known.
   */
  lemma {:induction false} StatusCountsSum(view: seq<LabeledTask>)
    ensures CountStatus(view, "todo") + CountStatus(view, "in_progress") + CountStatus(view, "done")
            == Count(view, KnownStatus)
    ensures Count(view, KnownStatus) <= |view|
    ensures (forall i :: 0 <= i < |view| ==> KnownStatus(view[i])) ==> Count(view, KnownStatus) == |view|
  {
    if view != [] {
      StatusCountsSum(view[1..]);
      CountUnfold(view, HasStatus("todo"));
      CountUnfold(view, HasStatus("in_progress"));
      CountUnfold(view, HasStatus("done"));
      CountUnfold(view, KnownStatus);
    }
    if forall i :: 0 <= i < |view| ==> KnownStatus(view[i]) {
      FilterAll(view, KnownStatus);
    }
  }

  /** `Math.round(completed / total * 100)` when there are visible tasks, else 0: the whole percentage nearest to the exact ratio, halves rounded up. */
  function Rate(completed: nat, total: nat): (r: nat)
    ensures total == 0 ==> r == 0
    ensures total > 0 ==> -(total as int) <= 2 * (100 * completed - r * total) < total
  {
    if total > 0 then
      var r := (200 * completed + total) / (2 * total);
      RoundingBounds(200 * completed + total, 2 * total);
      r
    else 0
  }

  lemma RoundingBounds(a: nat, b: nat)
    requires b > 0
    ensures (a / b) * b <= a < (a / b) * b + b
  {
  }

  /** The completion percentage stays between 0 and 100 when at most all visible tasks are done. */
  lemma RateBetween0And100(completed: nat, total: nat)
    requires completed <= total
    ensures 0 <= Rate(completed, total) <= 100
  {
    if total > 0 {
      var r := Rate(completed, total);
      assert 2 * (r * total) <= 200 * completed + total <= 201 * total;
      if r > 100 {
        assert r * total >= 101 * total by {
          MultiplyMonotone(101, r, total);
        }
      }
    }
  }

  lemma MultiplyMonotone(a: nat, b: nat, c: nat)
    requires a <= b
    ensures a * c <= b * c
  {
  }

  /**
   * The percentage is 0 exactly when nothing is visible or fewer than half a percent
   * of the visible tasks are done; it is 100 when every visible task is done.
   */
  lemma RateZeroAndFull(completed: nat, total: nat)
    ensures Rate(completed, total) == 0 <==> total == 0 || 200 * completed < total
    ensures 0 < total && completed == total ==> Rate(completed, total) == 100
  {
    if total > 0 {
      var r := Rate(completed, total);
      if r >= 1 {
        MultiplyMonotone(1, r, total);
      }
      if completed == total {
        assert -(total as int) <= 2 * ((100 - r) * total) < total;
        if r < 100 {
          MultiplyMonotone(1, 100 - r, total);
        } else if r > 100 {
          MultiplyMonotone(1, r - 100, total);
        }
      }
    }
  }

  /** The done count never exceeds the number of visible tasks, so the displayed rate is a percentage. */
  lemma CompletionRateIsPercentage(view: seq<LabeledTask>)
    ensures CountStatus(view, "done") <= |view|
    ensures 0 <= Rate(CountStatus(view, "done"), |view|) <= 100
  {
    RateBetween0And100(CountStatus(view, "done"), |view|);
  }

  /** With no tasks the rate card reads "0 / 0 (0%)". */
  lemma EmptyDashboardRate()
    ensures var view := ViewTasks([], AllLabel, "");
            |view| == 0 && CountStatus(view, "done") == 0 && Rate(CountStatus(view, "done"), |view|) == 0
  {
  }

  /** The two seeded tasks, one todo and one done, give the distribution 1 / 0 / 1 and a rate of 50. */
  lemma FixtureDistribution(t1: Task, t2: Task)
    requires t1.status == Some("todo") && t2.status == Some("done")
    ensures var view := ViewTasks([t1, t2], AllLabel, "");
            && CountStatus(view, "todo") == 1 && CountStatus(view, "in_progress") == 0
            && CountStatus(view, "done") == 1 && Rate(CountStatus(view, "done"), |view|) == 50
  {
    var view := ViewTasks([t1, t2], AllLabel, "");
    AllWithoutSearchShowsEverything([t1, t2], "");
    assert |view| == 2 && view[0].task == t1 && view[1].task == t2;
    assert view == [view[0], view[1]];
    CountPair(view[0], view[1], HasStatus("todo"));
    CountPair(view[0], view[1], HasStatus("in_progress"));
    CountPair(view[0], view[1], HasStatus("done"));
    assert Rate(1, 2) == 50;
  }

  // ---------------------------------------------------------------------------
  // Creation-date trend

  /** One point of the trend line: `{ date, count }`. */
  datatype Point = Point(date: string, count: nat)

  /** `t.created_at || t.createdAt`: `created_at` wins when present; "" when the task has neither. */
  function Timestamp(t: Task): (raw: string)
    ensures raw == "" <==> t.created_at == "" && t.createdAt == ""
    ensures t.created_at != "" ==> raw == t.created_at
    ensures t.created_at == "" ==> raw == t.createdAt
  {
    if t.created_at != "" then t.created_at else t.createdAt
  }

  predicate Stamped(t: Task) {
    Timestamp(t) != ""
  }

  /** Every timestamp present is one the day function accepts (otherwise `toISOString` throws). */
  predicate DatesParse(tasks: seq<Task>, dayKey: string -> Option<string>) {
    forall i :: 0 <= i < |tasks| && Stamped(tasks[i]) ==> dayKey(Timestamp(tasks[i])).Some?
  }

  function OnDay(dayKey: string -> Option<string>, day: string): Task -> bool {
    (t: Task) => Stamped(t) && dayKey(Timestamp(t)) == Some(day)
  }

  /** The number of tasks created on `day`. */
  function DayCount(tasks: seq<Task>, dayKey: string -> Option<string>, day: string): nat {
    Count(tasks, OnDay(dayKey, day))
  }

  predicate Ascending(points: seq<Point>) {
    forall i, j :: 0 <= i < j < |points| ==> Less(points[i].date, points[j].date)
  }

  predicate DistinctDates(points: seq<Point>) {
    forall i, j :: 0 <= i < j < |points| ==> points[i].date != points[j].date
  }

  function Dates(points: seq<Point>): set<string> {
    set p | p in points :: p.date
  }

  /**
   * What `trendData` promises: dates strictly ascending, one point for each day on which
   * some task was created, and each point counting the tasks created that day.
   */
  ghost predicate IsTrendOf(points: seq<Point>, tasks: seq<Task>, dayKey: string -> Option<string>) {
    && Ascending(points)
    && (forall p :: p in points ==> p.count == DayCount(tasks, dayKey, p.date) && p.count > 0)
    && (forall day :: DayCount(tasks, dayKey, day) > 0 ==> day in Dates(points))
  }

  /** Places a point among points sorted by date. */
  function InsertByDate(s: seq<Point>, p: Point): (r: seq<Point>)
    ensures multiset(r) == multiset(s) + multiset{p}
  {
    if s == [] then [p]
    else if Less(p.date, s[0].date) then [p] + s
    else
      assert s == [s[0]] + s[1..];
      [s[0]] + InsertByDate(s[1..], p)
  }

  lemma {:induction false} InsertAscending(s: seq<Point>, p: Point)
    requires Ascending(s) && p.date !in Dates(s)
    ensures Ascending(InsertByDate(s, p))
  {
    if s != [] {
      var r := InsertByDate(s, p);
      assert s[0] in s;
      if Less(p.date, s[0].date) {
        forall i, j | 0 <= i < j < |r| ensures Less(r[i].date, r[j].date) {
          if i == 0 && j > 1 {
            LessTransitive(p.date, s[0].date, s[j - 1].date);
          }
        }
      } else {
        LessTotal(p.date, s[0].date);
        var rest := InsertByDate(s[1..], p);
        assert Dates(s[1..]) <= Dates(s) by {
          forall d | d in Dates(s[1..]) ensures d in Dates(s) {
            var q :| q in s[1..] && q.date == d;
          }
        }
        InsertAscending(s[1..], p);
        forall k | 0 <= k < |rest| ensures Less(s[0].date, rest[k].date) {
          assert rest[k] in multiset(rest);
          if rest[k] != p {
            assert rest[k] in multiset(s[1..]);
            var m :| 0 <= m < |s[1..]| && s[1..][m] == rest[k];
            assert s[m + 1] == rest[k];
          }
        }
      }
    }
  }

  /** `.sort((a, b) => (a[0] < b[0] ? -1 : 1))` on entries with distinct dates. */
  function SortByDate(s: seq<Point>): (r: seq<Point>)
    ensures multiset(r) == multiset(s)
  {
    if s == [] then []
    else
      assert s == [s[0]] + s[1..];
      InsertByDate(SortByDate(s[1..]), s[0])
  }

  lemma {:induction false} SortAscending(s: seq<Point>)
    requires DistinctDates(s)
    ensures Ascending(SortByDate(s))
  {
    if s != [] {
      var rest := s[1..];
      SortAscending(rest);
      var sorted := SortByDate(rest);
      forall q | q in sorted ensures q.date != s[0].date {
        assert q in multiset(rest);
        var m :| 0 <= m < |rest| && rest[m] == q;
        assert s[m + 1] == q;
      }
      InsertAscending(sorted, s[0]);
    }
  }

  /** The total of the counts of a list of points. */
  function SumCounts(points: seq<Point>): nat {
    if points == [] then 0 else points[0].count + SumCounts(points[1..])
  }

  lemma {:induction false} SumCountsAppend(a: seq<Point>, b: seq<Point>)
    ensures SumCounts(a + b) == SumCounts(a) + SumCounts(b)
  {
    if a == [] {
      assert a + b == b;
    } else {
      assert (a + b)[1..] == a[1..] + b;
      SumCountsAppend(a[1..], b);
    }
  }

  lemma {:induction false} SumCountsBump(s: seq<Point>, j: nat)
    requires j < |s|
    ensures SumCounts(s[j := Point(s[j].date, s[j].count + 1)]) == SumCounts(s) + 1
  {
    if j > 0 {
      assert s[j := Point(s[j].date, s[j].count + 1)][1..] == s[1..][j - 1 := Point(s[j].date, s[j].count + 1)];
      SumCountsBump(s[1..], j - 1);
    }
  }

  lemma {:induction false} InsertKeepsSum(s: seq<Point>, p: Point)
    ensures SumCounts(InsertByDate(s, p)) == SumCounts(s) + p.count
  {
    if s != [] && !Less(p.date, s[0].date) {
      InsertKeepsSum(s[1..], p);
      assert ([s[0]] + InsertByDate(s[1..], p))[1..] == InsertByDate(s[1..], p);
    }
  }

  lemma {:induction false} SortKeepsSum(s: seq<Point>)
    ensures SumCounts(SortByDate(s)) == SumCounts(s)
  {
    if s != [] {
      SortKeepsSum(s[1..]);
      InsertKeepsSum(SortByDate(s[1..]), s[0]);
    }
  }

  /** The entries of the accumulator, in the order their days were first seen. */
  function Entries(keys: seq<string>, acc: map<string, nat>): (entries: seq<Point>)
    requires forall k :: k in keys ==> k in acc
    ensures |entries| == |keys|
    ensures forall j :: 0 <= j < |keys| ==> entries[j] == Point(keys[j], acc[keys[j]])
  {
    seq(|keys|, j requires 0 <= j < |keys| => Point(keys[j], acc[keys[j]]))
  }

  /** Counting one more task on a day already seen adds one to the total. */
  lemma EntriesBump(keys: seq<string>, acc: map<string, nat>, date: string)
    requires forall k :: k in acc <==> k in keys
    requires date in acc
    requires forall a, b :: 0 <= a < b < |keys| ==> keys[a] != keys[b]
    ensures SumCounts(Entries(keys, acc[date := acc[date] + 1])) == SumCounts(Entries(keys, acc)) + 1
  {
    var j :| 0 <= j < |keys| && keys[j] == date;
    var before := Entries(keys, acc);
    assert Entries(keys, acc[date := acc[date] + 1]) == before[j := Point(before[j].date, before[j].count + 1)];
    SumCountsBump(before, j);
  }

  /** Counting a task on a new day appends a point of count one. */
  lemma EntriesAppend(keys: seq<string>, acc: map<string, nat>, date: string)
    requires forall k :: k in keys ==> k in acc
    requires date !in acc
    ensures SumCounts(Entries(keys + [date], acc[date := 1])) == SumCounts(Entries(keys, acc)) + 1
  {
    var before := Entries(keys, acc);
    assert Entries(keys + [date], acc[date := 1]) == before + [Point(date, 1)];
    SumCountsAppend(before, [Point(date, 1)]);
    assert SumCounts([Point(date, 1)]) == 1;
  }

  /**
   * What the accumulation loop keeps after reading `prefix`: every timestamp read was a
   * valid date, `keys` lists the days of `acc` once each in first-seen order, `acc` holds
   * the positive count of each day seen and no other day has a task, and the counts add
   * up to the number of timestamped tasks read.
   */
  ghost predicate Accumulated(prefix: seq<Task>, dayKey: string -> Option<string>, keys: seq<string>, acc: map<string, nat>) {
    && DatesParse(prefix, dayKey)
    && (forall k :: k in acc <==> k in keys)
    && (forall a, b :: 0 <= a < b < |keys| ==> keys[a] != keys[b])
    && (forall day :: day in acc ==> acc[day] == DayCount(prefix, dayKey, day) && acc[day] > 0)
    && (forall day :: day !in acc ==> DayCount(prefix, dayKey, day) == 0)
    && SumCounts(Entries(keys, acc)) == Count(prefix, Stamped)
  }

  lemma AccumulatedStart(dayKey: string -> Option<string>)
    ensures Accumulated([], dayKey, [], map[])
  {
    forall day ensures DayCount([], dayKey, day) == 0 {
      assert Filter([], OnDay(dayKey, day)) == [];
    }
  }

  lemma DatesParseStep(tasks: seq<Task>, i: nat, dayKey: string -> Option<string>)
    requires i < |tasks| && DatesParse(tasks[..i], dayKey)
    requires Stamped(tasks[i]) ==> dayKey(Timestamp(tasks[i])).Some?
    ensures DatesParse(tasks[..i + 1], dayKey)
  {
    var read := tasks[..i + 1];
    forall j | 0 <= j < |read| && Stamped(read[j])
      ensures dayKey(Timestamp(read[j])).Some?
    {
      if j < i {
        assert read[j] == tasks[..i][j];
      }
    }
  }

  /** Reading one more task changes only the count of its own creation day, by one. */
  lemma DayCountStep(tasks: seq<Task>, i: nat, dayKey: string -> Option<string>)
    requires i < |tasks|
    ensures forall day :: DayCount(tasks[..i + 1], dayKey, day)
                          == DayCount(tasks[..i], dayKey, day) + (if Stamped(tasks[i]) && dayKey(Timestamp(tasks[i])) == Some(day) then 1 else 0)
  {
    forall day
      ensures DayCount(tasks[..i + 1], dayKey, day)
           == DayCount(tasks[..i], dayKey, day) + (if Stamped(tasks[i]) && dayKey(Timestamp(tasks[i])) == Some(day) then 1 else 0)
    {
      FilterSnoc(tasks, i, OnDay(dayKey, day));
    }
  }

  lemma StampedCountStep(tasks: seq<Task>, i: nat)
    requires i < |tasks|
    ensures Count(tasks[..i + 1], Stamped) == Count(tasks[..i], Stamped) + (if Stamped(tasks[i]) then 1 else 0)
  {
    FilterSnoc(tasks, i, Stamped);
  }

  /** A task with neither timestamp leaves the accumulator as it is. */
  lemma AccumulateSkip(tasks: seq<Task>, i: nat, dayKey: string -> Option<string>, keys: seq<string>, acc: map<string, nat>)
    requires i < |tasks| && Accumulated(tasks[..i], dayKey, keys, acc)
    requires !Stamped(tasks[i])
    ensures Accumulated(tasks[..i + 1], dayKey, keys, acc)
  {
    DatesParseStep(tasks, i, dayKey);
    DayCountStep(tasks, i, dayKey);
    StampedCountStep(tasks, i);
  }

  /** A task created on a day already seen adds one to that day. */
  lemma AccumulateBump(tasks: seq<Task>, i: nat, dayKey: string -> Option<string>, keys: seq<string>, acc: map<string, nat>, date: string)
    requires i < |tasks| && Accumulated(tasks[..i], dayKey, keys, acc)
    requires Stamped(tasks[i]) && dayKey(Timestamp(tasks[i])) == Some(date) && date in acc
    ensures Accumulated(tasks[..i + 1], dayKey, keys, acc[date := acc[date] + 1])
  {
    DatesParseStep(tasks, i, dayKey);
    SeenDayCounts(tasks, i, dayKey, acc, date, acc[date := acc[date] + 1]);
    SeenDaySum(tasks, i, keys, acc, date);
  }

  lemma SeenDayCounts(tasks: seq<Task>, i: nat, dayKey: string -> Option<string>, acc: map<string, nat>, date: string, acc': map<string, nat>)
    requires i < |tasks|
    requires forall day :: day in acc ==> acc[day] == DayCount(tasks[..i], dayKey, day) && acc[day] > 0
    requires forall day :: day !in acc ==> DayCount(tasks[..i], dayKey, day) == 0
    requires Stamped(tasks[i]) && dayKey(Timestamp(tasks[i])) == Some(date) && date in acc
    requires acc' == acc[date := acc[date] + 1]
    ensures forall day :: day in acc' ==> acc'[day] == DayCount(tasks[..i + 1], dayKey, day) && acc'[day] > 0
    ensures forall day :: day !in acc' ==> DayCount(tasks[..i + 1], dayKey, day) == 0
  {
    DayCountStep(tasks, i, dayKey);
  }

  lemma SeenDaySum(tasks: seq<Task>, i: nat, keys: seq<string>, acc: map<string, nat>, date: string)
    requires i < |tasks|
    requires forall k :: k in acc <==> k in keys
    requires forall a, b :: 0 <= a < b < |keys| ==> keys[a] != keys[b]
    requires SumCounts(Entries(keys, acc)) == Count(tasks[..i], Stamped)
    requires Stamped(tasks[i]) && date in acc
    ensures forall k :: k in acc[date := acc[date] + 1] <==> k in keys
    ensures SumCounts(Entries(keys, acc[date := acc[date] + 1])) == Count(tasks[..i + 1], Stamped)
  {
    StampedCountStep(tasks, i);
    EntriesBump(keys, acc, date);
  }

  lemma NewKeyStaysListed(keys: seq<string>, acc: map<string, nat>, date: string)
    requires forall k :: k in acc <==> k in keys
    requires forall a, b :: 0 <= a < b < |keys| ==> keys[a] != keys[b]
    requires date !in acc
    ensures forall k :: k in acc[date := 1] <==> k in keys + [date]
    ensures forall a, b :: 0 <= a < b < |keys + [date]| ==> (keys + [date])[a] != (keys + [date])[b]
  {
  }

  /** A task created on a new day starts that day at one, after the days already seen. */
  lemma AccumulateNew(tasks: seq<Task>, i: nat, dayKey: string -> Option<string>, keys: seq<string>, acc: map<string, nat>, date: string)
    requires i < |tasks| && Accumulated(tasks[..i], dayKey, keys, acc)
    requires Stamped(tasks[i]) && dayKey(Timestamp(tasks[i])) == Some(date) && date !in acc
    ensures Accumulated(tasks[..i + 1], dayKey, keys + [date], acc[date := 1])
  {
    DatesParseStep(tasks, i, dayKey);
    NewKeyStaysListed(keys, acc, date);
    NewDayCounts(tasks, i, dayKey, acc, date, acc[date := 1]);
    NewDaySum(tasks, i, keys, acc, date);
  }

  lemma NewDayCounts(tasks: seq<Task>, i: nat, dayKey: string -> Option<string>, acc: map<string, nat>, date: string, acc': map<string, nat>)
    requires i < |tasks|
    requires forall day :: day in acc ==> acc[day] == DayCount(tasks[..i], dayKey, day) && acc[day] > 0
    requires forall day :: day !in acc ==> DayCount(tasks[..i], dayKey, day) == 0
    requires Stamped(tasks[i]) && dayKey(Timestamp(tasks[i])) == Some(date) && date !in acc
    requires acc' == acc[date := 1]
    ensures forall day :: day in acc' ==> acc'[day] == DayCount(tasks[..i + 1], dayKey, day) && acc'[day] > 0
    ensures forall day :: day !in acc' ==> DayCount(tasks[..i + 1], dayKey, day) == 0
  {
    DayCountStep(tasks, i, dayKey);
  }

  lemma NewDaySum(tasks: seq<Task>, i: nat, keys: seq<string>, acc: map<string, nat>, date: string)
    requires i < |tasks|
    requires forall k :: k in acc <==> k in keys
    requires SumCounts(Entries(keys, acc)) == Count(tasks[..i], Stamped)
    requires Stamped(tasks[i]) && date !in acc
    ensures forall k :: k in keys + [date] ==> k in acc[date := 1]
    ensures SumCounts(Entries(keys + [date], acc[date := 1])) == Count(tasks[..i + 1], Stamped)
  {
    StampedCountStep(tasks, i);
    EntriesAppend(keys, acc, date);
  }

  /** Sorting the entries of a complete per-day count gives the trend. */
  lemma SortedEntriesAreTrend(tasks: seq<Task>, dayKey: string -> Option<string>, keys: seq<string>, acc: map<string, nat>)
    requires forall k :: k in acc <==> k in keys
    requires forall a, b :: 0 <= a < b < |keys| ==> keys[a] != keys[b]
    requires forall day :: day in acc ==> acc[day] == DayCount(tasks, dayKey, day) && acc[day] > 0
    requires forall day :: day !in acc ==> DayCount(tasks, dayKey, day) == 0
    ensures IsTrendOf(SortByDate(Entries(keys, acc)), tasks, dayKey)
  {
    var entries := Entries(keys, acc);
    SortAscending(entries);
    var sorted := SortByDate(entries);
    forall p | p in sorted ensures p.count == DayCount(tasks, dayKey, p.date) && p.count > 0 {
      assert p in multiset(entries);
    }
    forall day | DayCount(tasks, dayKey, day) > 0 ensures day in Dates(sorted) {
      var j :| 0 <= j < |keys| && keys[j] == day;
      assert entries[j] in multiset(sorted);
    }
  }

  /** A present timestamp that is not a valid date makes the whole derivation fail. */
  lemma InvalidDateFails(tasks: seq<Task>, i: nat, dayKey: string -> Option<string>)
    requires i < |tasks| && Stamped(tasks[i]) && dayKey(Timestamp(tasks[i])).None?
    ensures !DatesParse(tasks, dayKey)
  {
  }

  /** The tally of the whole collection, sorted, is its trend and keeps every timestamped task. */
  lemma TallyIsTrend(tasks: seq<Task>, dayKey: string -> Option<string>, keys: seq<string>, acc: map<string, nat>)
    requires Accumulated(tasks[..|tasks|], dayKey, keys, acc)
    ensures DatesParse(tasks, dayKey)
    ensures IsTrendOf(SortByDate(Entries(keys, acc)), tasks, dayKey)
    ensures SumCounts(SortByDate(Entries(keys, acc))) == Count(tasks, Stamped)
  {
    assert tasks[..|tasks|] == tasks;
    SortKeepsSum(Entries(keys, acc));
    SortedEntriesAreTrend(tasks, dayKey, keys, acc);
  }

  /**
   * `trendData`: counts the tasks of the whole collection (not the visible list) per
   * creation day, skipping tasks without a timestamp, and returns the points sorted by
   * date; `None` when some timestamp is not a valid date, where `new Date(raw).toISOString()` throws a `RangeError`.
   */
  method TrendData(tasks: seq<Task>, dayKey: string -> Option<string>) returns (r: Option<seq<Point>>)
    ensures r.None? <==> !DatesParse(tasks, dayKey)
    ensures r.Some? ==> IsTrendOf(r.value, tasks, dayKey)
    ensures r.Some? ==> SumCounts(r.value) == Count(tasks, Stamped)
  {
    var acc: map<string, nat> := map[];
    var keys: seq<string> := [];
    AccumulatedStart(dayKey);
    for i := 0 to |tasks|
      invariant Accumulated(tasks[..i], dayKey, keys, acc)
    {
      var raw := Timestamp(tasks[i]);
      if raw == "" {
        AccumulateSkip(tasks, i, dayKey, keys, acc);
      } else {
        var parsed := dayKey(raw);
        if parsed.None? {
          InvalidDateFails(tasks, i, dayKey);
          return None;
        }
        var date := parsed.value;
        if date in acc {
          AccumulateBump(tasks, i, dayKey, keys, acc, date);
          acc := acc[date := acc[date] + 1];
        } else {
          AccumulateNew(tasks, i, dayKey, keys, acc, date);
          acc := acc[date := 1];
          keys := keys + [date];
        }
      }
    }
    TallyIsTrend(tasks, dayKey, keys, acc);
    var sorted := SortByDate(Entries(keys, acc));
    r := Some(sorted);
  }

  // ---------------------------------------------------------------------------
  // The page

  /**
   * The edit dialog's form; `id` is `null` until a task is opened, and `title` and
   * `status` are `None` when they were copied from a task that lacks them.
   */
  datatype EditForm = EditForm(id: Option<int>, title: Option<string>, description: string, status: Option<string>)

  const InitialEditForm := EditForm(None, Some(""), "", Some("todo"))

  /** The fields the dialog's inputs bind to. */
  datatype EditField = TitleField | DescriptionField | StatusField

  /** `handleEditChange(field, value)`: `{ ...f, [field]: value }`. */
  function EditChanged(f: EditForm, field: EditField, value: string): (r: EditForm)
    ensures r.id == f.id
    ensures r.title == (if field == TitleField then Some(value) else f.title)
    ensures r.description == (if field == DescriptionField then value else f.description)
    ensures r.status == (if field == StatusField then Some(value) else f.status)
  {
    match field
    case TitleField => f.(title := Some(value))
    case DescriptionField => f.(description := value)
    case StatusField => f.(status := Some(value))
  }

  /**
   * `openEdit(task)`: the dialog starts from the task; title and status are copied as
   * they are, a missing description becomes "".
   */
  function EditFormOf(t: Task): (f: EditForm)
    ensures f.id == Some(t.id) && f.title == t.title && f.description == t.description && f.status == t.status
  {
    EditForm(Some(t.id), t.title, t.description, t.status)
  }

  /** The body of `PUT /tasks/:id`; a `status` of `undefined` (`None`) is left out of the JSON. */
  datatype EditBody = EditBody(title: string, description: string, status: Option<string>)

  /** A `PUT /tasks/:id` request; the path carries `null` when no task was opened. */
  datatype PutRequest = PutRequest(id: Option<int>, body: EditBody)

  /**
   * The request `saveEdit` builds: the trimmed title and description and the status;
   * `None` when the title is missing, where `editForm.title.trim()` throws a `TypeError`.
   */
  function PutOf(f: EditForm): (r: Option<PutRequest>)
    ensures r.None? <==> f.title.None?
    ensures r.Some? ==> r.value.id == f.id && r.value.body.status == f.status
    ensures r.Some? ==> r.value.body.title == Trim(f.title.value) && r.value.body.description == Trim(f.description)
    ensures r.Some? ==> (r.value.body.title == "" <==> AllWhitespace(f.title.value))
  {
    if f.title.None? then None
    else
      TrimSpec(f.title.value);
      Some(PutRequest(f.id, EditBody(Trim(f.title.value), Trim(f.description), f.status)))
  }

  /** `prev.map(t => t.id === editForm.id ? { ...t, ...data } : t)`; a `null` id matches no task. */
  function ApplyUpdate(tasks: seq<Task>, id: Option<int>, data: Patch): (r: seq<Task>)
    ensures id.None? ==> r == tasks
    ensures id.Some? ==> r == ReplaceById(tasks, id.value, data)
  {
    if id.Some? then ReplaceById(tasks, id.value, data) else tasks
  }

  /** `err.response?.data?.message || fallback`. */
  function ErrorText(e: ApiError, fallback: string): (r: string)
    ensures e.serverMessage != "" ==> r == e.serverMessage
    ensures e.serverMessage == "" ==> r == fallback
  {
    if e.serverMessage != "" then e.serverMessage else fallback
  }

  /** The patch a PUT body makes of the record it is spread over: exactly the keys the body holds. */
  function PatchOf(body: EditBody): (p: Patch)
    ensures p.id.None? && p.created_at.None? && p.createdAt.None?
    ensures p.title == Some(body.title) && p.description == Some(body.description) && p.status == body.status
  {
    Patch(None, Some(body.title), Some(body.description), body.status, None, None)
  }

  const UnauthorizedError := "未授權，請先登入"
  const LoadError := "無法載入任務"
  const BlankTitleError := "標題不可為空"
  const UpdatedToast := Toast("✅ 已更新任務", Success)
  const UpdateFailedToast := Toast("❌ 更新失敗", Error)
  const DeletedToast := Toast("🗑️ 已刪除任務", Success)
  const DeleteFailedToast := Toast("❌ 刪除失敗", Error)

  /**
   * Deleting a task takes it out of every view and leaves the rest of the view as it
   * was, in order.
   */
  lemma DeleteHidesTask(tasks: seq<Task>, filter: string, query: string, id: int)
    ensures Unlabel(ViewTasks(RemoveById(tasks, id), filter, query)) == RemoveById(Unlabel(ViewTasks(tasks, filter, query)), id)
    ensures !HasId(Unlabel(ViewTasks(RemoveById(tasks, id), filter, query)), id)
  {
    FilterCommute(tasks, IdIsNot(id), Keeps(filter, Needle(query)));
  }

  /** The dashboard page's state. */
  class DashboardPage {
    var tasks: seq<Task>
    var error: string
    var loading: bool
    var statusFilter: string
    var query: string
    var editOpen: bool
    var editForm: EditForm

    /** The initial state, with the filter and the search text read from the URL. */
    constructor (params: map<string, string>)
      ensures tasks == [] && error == "" && loading
      ensures statusFilter == InitialFilter(params) && query == InitialQuery(params)
      ensures !editOpen && editForm == InitialEditForm
    {
      tasks, error, loading := [], "", true;
      statusFilter, query := InitialFilter(params), InitialQuery(params);
      editOpen, editForm := false, InitialEditForm;
    }

    /** The visible list for the current state. */
    function View(): (view: seq<LabeledTask>)
      reads this
      ensures Unlabel(view) == Filter(tasks, Keeps(statusFilter, Needle(query)))
    {
      ViewTasks(tasks, statusFilter, query)
    }

    /** The URL parameters the page keeps in sync with its filter and search text. */
    function Params(): (p: map<string, string>)
      reads this
      ensures "status" in p <==> statusFilter != AllLabel
      ensures "q" in p <==> Trim(query) != ""
    {
      SyncParams(statusFilter, query)
    }

    /**
     * `fetchTasks`: the response's list (an empty one when it carries no data), or the
     * load error; loading ends either way.
     */
    method ApplyFetch(response: Outcome<Option<seq<Task>>>)
      modifies this
      ensures !loading
      ensures response.Ok? ==> tasks == response.data.GetOr([]) && error == old(error)
      ensures response.Failed? ==> tasks == old(tasks) && error == LoadError
      ensures statusFilter == old(statusFilter) && query == old(query)
      ensures editOpen == old(editOpen) && editForm == old(editForm)
    {
      match response {
        case Ok(data) => tasks := data.GetOr([]);
        case Failed(_) => error := LoadError;
      }
      loading := false;
    }

    /**
     * The mount effect: without a token it shows the unauthorized error and goes to the
     * login page (a push, not a replace) and never fetches, so loading stays on;
     * otherwise it fetches the tasks.
     */
    method Mount(store: Storage, response: Outcome<Option<seq<Task>>>) returns (nav: Option<Navigation>, fetched: bool)
      modifies this
      ensures fetched <==> HasToken(store.items)
      ensures nav.Some? <==> !fetched
      ensures !fetched ==>
                && nav == Some(Navigation("/login", false, NoState))
                && error == UnauthorizedError && tasks == old(tasks) && loading == old(loading)
      ensures fetched ==> !loading
      ensures fetched && response.Ok? ==> tasks == response.data.GetOr([]) && error == old(error)
      ensures fetched && response.Failed? ==> tasks == old(tasks) && error == LoadError
      ensures statusFilter == old(statusFilter) && query == old(query)
      ensures editOpen == old(editOpen) && editForm == old(editForm)
    {
      var token := store.GetItem(TokenKey);
      if token.None? || token.value == "" {
        error := UnauthorizedError;
        return Some(Navigation("/login", false, NoState)), false;
      }
      ApplyFetch(response);
      return None, true;
    }

    /** A change of the status filter. */
    method SetFilter(filter: string)
      modifies this
      ensures statusFilter == filter
      ensures tasks == old(tasks) && error == old(error) && loading == old(loading) && query == old(query)
      ensures editOpen == old(editOpen) && editForm == old(editForm)
    {
      statusFilter := filter;
    }

    /** A change of the search text. */
    method SetQuery(text: string)
      modifies this
      ensures query == text
      ensures tasks == old(tasks) && error == old(error) && loading == old(loading) && statusFilter == old(statusFilter)
      ensures editOpen == old(editOpen) && editForm == old(editForm)
    {
      query := text;
    }

    /** `openEdit(task)`: loads the task into the dialog and opens it. */
    method OpenEdit(t: Task)
      modifies this
      ensures editOpen && editForm == EditFormOf(t)
      ensures tasks == old(tasks) && error == old(error) && loading == old(loading)
      ensures statusFilter == old(statusFilter) && query == old(query)
    {
      editForm := EditFormOf(t);
      editOpen := true;
    }

    /** The dialog's `onClose` and its 取消 button: `setEditOpen(false)`, the form kept as it is. */
    method CloseEdit()
      modifies this
      ensures !editOpen && editForm == old(editForm)
      ensures tasks == old(tasks) && error == old(error) && loading == old(loading)
      ensures statusFilter == old(statusFilter) && query == old(query)
    {
      editOpen := false;
    }

    /** `handleEditChange(field, value)`. */
    method EditChange(field: EditField, value: string)
      modifies this
      ensures editForm == EditChanged(old(editForm), field, value)
      ensures tasks == old(tasks) && error == old(error) && loading == old(loading)
      ensures statusFilter == old(statusFilter) && query == old(query) && editOpen == old(editOpen)
    {
      editForm := EditChanged(editForm, field, value);
    }

    /**
     * `saveEdit`: a missing title makes `trim()` throw inside the `try`, which is caught
     * like a failed request without a response: "更新失敗" and the error toast. A title
     * that is blank after trimming sets the blank-title error and sends nothing.
     * Otherwise it sends the trimmed fields; on success the answer is spread over the
     * task with that id, the dialog closes and a success toast is shown, on failure the
     * server's message (or "更新失敗") becomes the error and an error toast is shown.
     */
    method SaveEdit(response: Outcome<Patch>) returns (sent: Option<PutRequest>, toast: Option<Toast>)
      modifies this
      ensures old(editForm.title).None? ==>
                && sent == None && toast == Some(UpdateFailedToast) && error == "更新失敗"
                && tasks == old(tasks) && editOpen == old(editOpen)
      ensures old(editForm.title).Some? && AllWhitespace(old(editForm.title.value)) ==>
                && sent == None && toast == None && error == BlankTitleError
                && tasks == old(tasks) && editOpen == old(editOpen)
      ensures old(editForm.title).Some? && !AllWhitespace(old(editForm.title.value)) ==>
                sent == PutOf(old(editForm))
      ensures sent.Some? && response.Ok? ==>
                && tasks == ApplyUpdate(old(tasks), old(editForm.id), response.data)
                && !editOpen && error == old(error) && toast == Some(UpdatedToast)
      ensures sent.Some? && response.Failed? ==>
                && tasks == old(tasks) && editOpen == old(editOpen)
                && error == ErrorText(response.error, "更新失敗") && toast == Some(UpdateFailedToast)
      ensures editForm == old(editForm) && loading == old(loading)
      ensures statusFilter == old(statusFilter) && query == old(query)
    {
      var request := PutOf(editForm);
      if request.None? {
        error := "更新失敗";
        return None, Some(UpdateFailedToast);
      }
      if request.value.body.title == "" {
        error := BlankTitleError;
        return None, None;
      }
      sent := request;
      match response {
        case Ok(data) =>
          tasks := ApplyUpdate(tasks, editForm.id, data);
          editOpen := false;
          toast := Some(UpdatedToast);
        case Failed(e) =>
          error := ErrorText(e, "更新失敗");
          toast := Some(UpdateFailedToast);
      }
    }

    /**
     * `deleteTask(id)`: nothing happens unless the user confirms. Otherwise it sends the
     * delete; on success the task leaves the list and a success toast is shown, on
     * failure the server's message (or "刪除失敗") becomes the error and an error toast
     * is shown.
     */
    method DeleteTask(id: int, confirmed: bool, response: Outcome<()>) returns (sent: bool, toast: Option<Toast>)
      modifies this
      ensures sent == confirmed
      ensures !confirmed ==> toast == None && tasks == old(tasks) && error == old(error)
      ensures confirmed && response.Ok? ==>
                tasks == RemoveById(old(tasks), id) && error == old(error) && toast == Some(DeletedToast)
      ensures confirmed && response.Failed? ==>
                tasks == old(tasks) && error == ErrorText(response.error, "刪除失敗") && toast == Some(DeleteFailedToast)
      ensures editOpen == old(editOpen) && editForm == old(editForm) && loading == old(loading)
      ensures statusFilter == old(statusFilter) && query == old(query)
    {
      if !confirmed {
        return false, None;
      }
      sent := true;
      match response {
        case Ok(_) =>
          tasks := RemoveById(tasks, id);
          toast := Some(DeletedToast);
        case Failed(e) =>
          error := ErrorText(e, "刪除失敗");
          toast := Some(DeleteFailedToast);
      }
    }
  }

  /** An update whose answer keeps the id leaves the ids of the list unique. */
  lemma UpdateKeepsUniqueIds(tasks: seq<Task>, id: Option<int>, data: Patch)
    requires UniqueIds(tasks)
    requires data.id.None? || data.id == id
    ensures UniqueIds(ApplyUpdate(tasks, id, data))
    ensures |ApplyUpdate(tasks, id, data)| == |tasks|
  {
    if id.Some? {
      ReplaceKeepsIds(tasks, id.value, data);
    }
  }

  /**
   * Spreading the same answer a second time, as a repeated save does, leaves the list
   * as the first spread left it.
   */
  lemma UpdateTwiceIsOnce(tasks: seq<Task>, id: Option<int>, data: Patch)
    ensures ApplyUpdate(ApplyUpdate(tasks, id, data), id, data) == ApplyUpdate(tasks, id, data)
  {
    if id.Some? {
      var once := ReplaceById(tasks, id.value, data);
      forall i | 0 <= i < |tasks| ensures ReplaceById(once, id.value, data)[i] == once[i] {
        if tasks[i].id == id.value {
          MergeIdempotent(tasks[i], data);
        }
      }
    }
  }
}
