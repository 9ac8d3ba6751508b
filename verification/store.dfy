/** The hosted store's query builder over an in-memory table. A query
    collects filters (`eq`, `gte`, `lte`, `ilike`), an ordering
    (`order(column, {ascending: false})`), a window (`range`, `limit`) and
    whether an exact count is wanted; `Execute` gives each its plain meaning:
    keep the rows that satisfy every filter, order them newest first, cut the
    window. A failure of the service itself is the table's `outage`. */
module Store {
  import opened Wrappers
  import opened Text
  import opened DatabaseTypes

  datatype StoreError = StoreError(code: string, message: string)

  /** The columns of a table and the column view of one of its records. */
  datatype Schema<!T> = Schema(columns: set<string>, view: T -> Row)

  /** The rows of a table, and the failure the service reports for this
      request (network, permissions), if any. */
  datatype Table<T> = Table(rows: seq<T>, outage: Option<StoreError>)

  datatype Filter =
    | Equals(column: string, value: Value)
    | AtLeast(column: string, bound: int)
    | AtMost(column: string, bound: int)
    | ContainsText(column: string, needle: string)

  datatype Window = Unbounded | Between(from: int, to: int) | Take(count: int)

  datatype Query = Query(filters: seq<Filter>, newestFirst: Option<string>, window: Window, withCount: bool)
  {
    function Eq(column: string, value: Value): Query {
      this.(filters := filters + [Equals(column, value)])
    }

    function Gte(column: string, bound: int): Query {
      this.(filters := filters + [AtLeast(column, bound)])
    }

    function Lte(column: string, bound: int): Query {
      this.(filters := filters + [AtMost(column, bound)])
    }

    /** `ilike(column, '%needle%')`. */
    function ILike(column: string, needle: string): Query {
      this.(filters := filters + [ContainsText(column, needle)])
    }

    /** `order(column, { ascending: false })`. */
    function OrderDesc(column: string): Query {
      this.(newestFirst := Some(column))
    }

    /** `range(from, to)`: positions `from` to `to`, both included. */
    function Range(from: int, to: int): Query {
      this.(window := Between(from, to))
    }

    function Limit(n: int): Query {
      this.(window := Take(n))
    }
  }

  /** `from(table).select('*', { count })`. */
  function Select(withCount: bool): Query {
    Query([], None, Unbounded, withCount)
  }

  /** One filter on one row; SQL NULL (or a cell of another type) satisfies no comparison. */
  predicate Holds(row: Row, f: Filter) {
    f.column in row &&
    match f
    case Equals(_, v) => !v.Null? && row[f.column] == v
    case AtLeast(_, b) => row[f.column].Num? && row[f.column].n >= b
    case AtMost(_, b) => row[f.column].Num? && row[f.column].n <= b
    case ContainsText(_, needle) => row[f.column].Str? && ContainsIgnoringCase(row[f.column].s, needle)
  }

  /** Chained filters, applied one after the other. */
  predicate Matches(row: Row, filters: seq<Filter>)
    decreases |filters|
  {
    filters == [] || (Matches(row, filters[..|filters| - 1]) && Holds(row, filters[|filters| - 1]))
  }

  /** One more filter narrows the match by that filter. */
  lemma MatchesSnoc(row: Row, filters: seq<Filter>, f: Filter)
    ensures Matches(row, filters + [f]) <==> Matches(row, filters) && Holds(row, f)
  {
    assert (filters + [f])[..|filters|] == filters;
  }

  /** Chaining filters is their conjunction. */
  lemma {:induction false} MatchesEveryFilter(row: Row, filters: seq<Filter>)
    ensures Matches(row, filters) <==> forall i :: 0 <= i < |filters| ==> Holds(row, filters[i])
    decreases |filters|
  {
    if filters != [] {
      var init := filters[..|filters| - 1];
      MatchesEveryFilter(row, init);
      assert forall i :: 0 <= i < |init| ==> init[i] == filters[i];
    }
  }

  /** The filters a chain of `k` optional steps adds, in order: step `j`
      adds the filters `step(j)` (none or one). */
  ghost function Chain(step: nat -> seq<Filter>, k: nat): seq<Filter>
    decreases k
  {
    if k == 0 then [] else Chain(step, k - 1) + step(k - 1)
  }

  /** The first `k` conditions hold. */
  ghost predicate AllBefore(condition: nat -> bool, k: nat)
    decreases k
  {
    k == 0 || (AllBefore(condition, k - 1) && condition(k - 1))
  }

  /** An optional filter agrees with a condition on `row`: when present it
      holds exactly when the condition does, and when absent the condition
      holds anyway. */
  ghost predicate StepAgrees(row: Row, step: seq<Filter>, condition: bool) {
    && |step| <= 1
    && (step == [] ==> condition)
    && (|step| == 1 ==> (Holds(row, step[0]) <==> condition))
  }

  /** Appending an optional filter narrows the match by its condition. */
  lemma FilterStepNarrows(row: Row, prior: seq<Filter>, step: seq<Filter>, condition: bool)
    requires StepAgrees(row, step, condition)
    ensures Matches(row, prior + step) <==> Matches(row, prior) && condition
  {
    if step == [] {
      assert prior + step == prior;
    } else {
      assert step == [step[0]];
      MatchesSnoc(row, prior, step[0]);
    }
  }

  /** A chain of optional filters, each agreeing with its condition, matches
      exactly the rows that meet every condition. */
  lemma {:induction false} ChainMatches(row: Row, step: nat -> seq<Filter>, condition: nat -> bool, k: nat)
    requires forall j: nat :: j < k ==> StepAgrees(row, step(j), condition(j))
    ensures Matches(row, Chain(step, k)) <==> AllBefore(condition, k)
    decreases k
  {
    if k > 0 {
      ChainMatches(row, step, condition, k - 1);
      FilterStepNarrows(row, Chain(step, k - 1), step(k - 1), condition(k - 1));
    }
  }

  /** The rows that satisfy `p`, in table order. */
  function Where<T(==,!new)>(rows: seq<T>, p: T -> bool): (r: seq<T>)
    ensures |r| <= |rows|
    ensures multiset(r) <= multiset(rows)
  {
    if rows == [] then []
    else
      var rest := Where(rows[1..], p);
      assert rows == [rows[0]] + rows[1..];
      (if p(rows[0]) then [rows[0]] else []) + rest
  }

  /** The rows kept are exactly the rows satisfying the condition. */
  lemma {:induction false} WhereMembers<T(!new)>(rows: seq<T>, p: T -> bool)
    ensures forall x :: x in Where(rows, p) <==> x in rows && p(x)
    decreases |rows|
  {
    if rows != [] {
      WhereMembers(rows[1..], p);
      assert rows == [rows[0]] + rows[1..];
    }
  }

  /** A condition every row satisfies keeps the whole sequence. */
  lemma {:induction false} WhereAll<T(!new)>(rows: seq<T>, p: T -> bool)
    requires forall x :: x in rows ==> p(x)
    ensures Where(rows, p) == rows
  {
    if rows != [] {
      WhereAll(rows[1..], p);
    }
  }

  /** Selecting with two conditions that agree on the rows selects the same rows. */
  lemma {:induction false} WhereAgrees<T(!new)>(rows: seq<T>, p: T -> bool, q: T -> bool)
    requires forall x :: x in rows ==> p(x) == q(x)
    ensures Where(rows, p) == Where(rows, q)
  {
    if rows != [] {
      WhereAgrees(rows[1..], p, q);
    }
  }

  /** The rows of a table that satisfy every filter of a query. */
  function Matching<T(==,!new)>(schema: Schema<T>, rows: seq<T>, filters: seq<Filter>): seq<T> {
    Where(rows, x => Matches(schema.view(x), filters))
  }

  /** Filters that agree with a condition on every row select what the condition selects. */
  lemma MatchingIs<T(!new)>(schema: Schema<T>, rows: seq<T>, filters: seq<Filter>, p: T -> bool)
    requires forall x :: x in rows ==> (Matches(schema.view(x), filters) <==> p(x))
    ensures Matching(schema, rows, filters) == Where(rows, p)
  {
    WhereAgrees(rows, x => Matches(schema.view(x), filters), p);
  }

  function Key(row: Row, column: string): Option<int> {
    if column in row && row[column].Num? then Some(row[column].n) else None
  }

  /** Descending order with NULLs first, as PostgreSQL sorts `DESC`. */
  predicate NotOlder(a: Option<int>, b: Option<int>) {
    a.None? || (b.Some? && a.value >= b.value)
  }

  predicate NewestFirst<T>(view: T -> Row, column: string, s: seq<T>) {
    forall i, j :: 0 <= i < j < |s| ==> NotOlder(Key(view(s[i]), column), Key(view(s[j]), column))
  }

  /** Putting a row in front of a newest-first sequence keeps it newest
      first when that row is not older than the current head. */
  lemma ConsNewestFirst<T>(view: T -> Row, column: string, a: T, s: seq<T>)
    requires NewestFirst(view, column, s)
    requires s != [] ==> NotOlder(Key(view(a), column), Key(view(s[0]), column))
    ensures NewestFirst(view, column, [a] + s)
  {
    var r := [a] + s;
    forall i, j | 0 <= i < j < |r|
      ensures NotOlder(Key(view(r[i]), column), Key(view(r[j]), column))
    {
      if i == 0 && j > 1 {
        assert NotOlder(Key(view(s[0]), column), Key(view(s[j - 1]), column));
      }
    }
  }

  function InsertByAge<T(==,!new)>(view: T -> Row, column: string, x: T, s: seq<T>): (r: seq<T>)
    requires NewestFirst(view, column, s)
    ensures multiset(r) == multiset(s) + multiset{x}
    ensures |r| == |s| + 1
    ensures NewestFirst(view, column, r)
    ensures r[0] == x || (s != [] && r[0] == s[0])
  {
    if s == [] || NotOlder(Key(view(x), column), Key(view(s[0]), column)) then
      ConsNewestFirst(view, column, x, s);
      [x] + s
    else
      assert s == [s[0]] + s[1..];
      var rest := InsertByAge(view, column, x, s[1..]);
      assert NotOlder(Key(view(s[0]), column), Key(view(rest[0]), column)) by {
        if rest[0] != x {
          assert rest[0] == s[1];
        }
      }
      ConsNewestFirst(view, column, s[0], rest);
      [s[0]] + rest
  }

  /** `order(column, { ascending: false })`: a stable sort, newest first. */
  function SortNewestFirst<T(==,!new)>(view: T -> Row, column: string, s: seq<T>): (r: seq<T>)
    ensures multiset(r) == multiset(s)
    ensures |r| == |s|
    ensures NewestFirst(view, column, r)
  {
    if s == [] then []
    else
      assert s == [s[0]] + s[1..];
      InsertByAge(view, column, s[0], SortNewestFirst(view, column, s[1..]))
  }

  function Clamp(i: int, n: nat): (c: nat)
    ensures c <= n
  {
    if i < 0 then 0 else if i > n then n else i
  }

  /** `range(from, to)` keeps positions `from`..`to` that exist; `limit(n)` the first `n`. */
  function ApplyWindow<T>(s: seq<T>, w: Window): seq<T> {
    match w
    case Unbounded => s
    case Between(from, to) =>
      var lo, hi := Clamp(from, |s|), Clamp(to + 1, |s|);
      if hi <= lo then [] else s[lo..hi]
    case Take(n) => s[..Clamp(n, |s|)]
  }

  /** A range window holds at most `to - from + 1` rows, and its k-th row is
      the row at position `from + k`. */
  lemma RangeWindow<T>(s: seq<T>, from: int, to: int)
    requires 0 <= from
    ensures |ApplyWindow(s, Between(from, to))| <= if to + 1 - from < 0 then 0 else to + 1 - from
    ensures |ApplyWindow(s, Between(from, to))| == if from >= |s| || to < from then 0
                                                   else Clamp(to + 1, |s|) - from
    ensures forall k :: 0 <= k < |ApplyWindow(s, Between(from, to))| ==>
              from + k < |s| && ApplyWindow(s, Between(from, to))[k] == s[from + k]
  {
  }

  /** A window holds only rows of the sequence it is cut from. */
  lemma WindowWithin<T>(s: seq<T>, w: Window)
    ensures forall x :: x in ApplyWindow(s, w) ==> x in s
  {
    match w
    case Unbounded =>
    case Between(from, to) =>
      var lo, hi := Clamp(from, |s|), Clamp(to + 1, |s|);
      if lo < hi {
        assert forall i :: 0 <= i < hi - lo ==> s[lo..hi][i] == s[lo + i];
      }
    case Take(n) =>
      assert forall i :: 0 <= i < Clamp(n, |s|) ==> s[..Clamp(n, |s|)][i] == s[i];
  }

  /** A page of the rows satisfying `p`, newest first: only such rows, in order. */
  lemma PageOfSelected<T(!new)>(view: T -> Row, column: string, rows: seq<T>, p: T -> bool, w: Window)
    ensures var page := ApplyWindow(SortNewestFirst(view, column, Where(rows, p)), w);
            && (forall x :: x in page ==> x in rows && p(x))
            && NewestFirst(view, column, page)
  {
    var sorted := SortNewestFirst(view, column, Where(rows, p));
    WindowWithin(sorted, w);
    WindowKeepsOrder(view, column, sorted, w);
    WhereMembers(rows, p);
    forall x | x in ApplyWindow(sorted, w) ensures x in rows && p(x) {
      assert x in multiset(sorted);
    }
  }

  /** A window cut from a newest-first sequence is newest first. */
  lemma WindowKeepsOrder<T>(view: T -> Row, column: string, s: seq<T>, w: Window)
    requires NewestFirst(view, column, s)
    ensures NewestFirst(view, column, ApplyWindow(s, w))
  {
    match w
    case Unbounded =>
    case Between(from, to) =>
      var lo, hi := Clamp(from, |s|), Clamp(to + 1, |s|);
      if lo < hi {
        var r := s[lo..hi];
        assert forall i :: 0 <= i < |r| ==> r[i] == s[lo + i];
      }
    case Take(n) =>
      var r := s[..Clamp(n, |s|)];
      assert forall i :: 0 <= i < |r| ==> r[i] == s[i];
  }

  /** The first filter or ordering column the table does not have. */
  function UnknownColumn(columns: set<string>, q: Query): (r: Option<string>)
    ensures r.None? <==> (forall f :: f in q.filters ==> f.column in columns) &&
                         (q.newestFirst.Some? ==> q.newestFirst.value in columns)
    ensures r.Some? ==> r.value !in columns
    decreases |q.filters|
  {
    if q.filters == [] then
      if q.newestFirst.Some? && q.newestFirst.value !in columns then q.newestFirst else None
    else if q.filters[0].column !in columns then Some(q.filters[0].column)
    else
      var r := UnknownColumn(columns, q.(filters := q.filters[1..]));
      assert q.filters == [q.filters[0]] + q.filters[1..];
      r
  }

  datatype Answer<T> = Answer(rows: seq<T>, count: Option<nat>)

  /** The matching rows in the query's order. */
  function Ordered<T(==,!new)>(schema: Schema<T>, rows: seq<T>, q: Query): (r: seq<T>)
    ensures multiset(r) == multiset(Matching(schema, rows, q.filters))
    ensures q.newestFirst.Some? ==> NewestFirst(schema.view, q.newestFirst.value, r)
  {
    var matching := Matching(schema, rows, q.filters);
    if q.newestFirst.Some? then SortNewestFirst(schema.view, q.newestFirst.value, matching) else matching
  }

  /** Running a query: an outage or an unknown column fails it (PostgREST
      reports the latter as error 42703); otherwise the matching rows,
      ordered and windowed, with their total count when it was asked for. */
  function Execute<T(==,!new)>(schema: Schema<T>, table: Table<T>, q: Query): (r: Result<Answer<T>, StoreError>)
    ensures r.Err? <==> table.outage.Some? || UnknownColumn(schema.columns, q).Some?
    ensures table.outage.Some? ==> r == Err(table.outage.value)
  {
    if table.outage.Some? then Err(table.outage.value)
    else match UnknownColumn(schema.columns, q)
      case Some(c) => Err(StoreError("42703", "column " + c + " does not exist"))
      case None =>
        var matching := Matching(schema, table.rows, q.filters);
        Ok(Answer(ApplyWindow(Ordered(schema, table.rows, q), q.window),
                  if q.withCount then Some(|matching|) else None))
  }

  /** `select('*').order(column, { ascending: false }).limit(n)`: unless the
      service fails, the first `n` rows of the whole table, newest first. */
  lemma Latest<T(!new)>(schema: Schema<T>, table: Table<T>, column: string, n: int)
    requires column in schema.columns
    ensures var r := Execute(schema, table, Select(false).OrderDesc(column).Limit(n));
            && (r.Err? <==> table.outage.Some?)
            && (r.Ok? ==> r.value.count.None? &&
                          r.value.rows == SortNewestFirst(schema.view, column, table.rows)[..Clamp(n, |table.rows|)])
  {
    var q := Select(false).OrderDesc(column).Limit(n);
    if Execute(schema, table, q).Ok? {
      assert forall x :: x in table.rows ==> Matches(schema.view(x), q.filters);
      WhereAll(table.rows, x => Matches(schema.view(x), q.filters));
      ExecuteShape(schema, table, q);
    }
  }

  /** The first `n` rows of a newest-first sequence: at most `n` of them,
      newest first, each from the table. */
  lemma LatestBounds<T(!new)>(view: T -> Row, column: string, rows: seq<T>, n: int)
    ensures var r := SortNewestFirst(view, column, rows)[..Clamp(n, |rows|)];
            && |r| == (if n < 0 then 0 else if n < |rows| then n else |rows|)
            && NewestFirst(view, column, r)
            && multiset(r) <= multiset(rows)
  {
    var sorted := SortNewestFirst(view, column, rows);
    WindowKeepsOrder(view, column, sorted, Take(n));
    assert sorted == sorted[..Clamp(n, |rows|)] + sorted[Clamp(n, |rows|)..];
  }

  /** When `sorted` orders `rows` by descending `key`, no row outside the
      first `n` of `sorted` has a larger key than one among them. */
  lemma PrefixIsNewest<T>(key: T -> int, rows: seq<T>, sorted: seq<T>, n: nat)
    requires multiset(sorted) == multiset(rows) && n <= |sorted|
    requires forall i, j :: 0 <= i < j < |sorted| ==> key(sorted[i]) >= key(sorted[j])
    ensures forall x, y :: x in rows && x !in sorted[..n] && y in sorted[..n] ==> key(y) >= key(x)
  {
    forall x, y | x in rows && x !in sorted[..n] && y in sorted[..n] ensures key(y) >= key(x) {
      assert x in multiset(sorted);
      var j :| 0 <= j < |sorted| && sorted[j] == x;
      var i :| 0 <= i < n && sorted[..n][i] == y;
      assert j >= n;
    }
  }

  /** The shape of a successful answer: the window of the ordered matches, and their count. */
  lemma ExecuteShape<T(!new)>(schema: Schema<T>, table: Table<T>, q: Query)
    requires Execute(schema, table, q).Ok?
    ensures Execute(schema, table, q).value ==
              Answer(ApplyWindow(Ordered(schema, table.rows, q), q.window),
                     if q.withCount then Some(|Matching(schema, table.rows, q.filters)|) else None)
  {
  }

  /** What a successful query returns: only table rows that satisfy every
      filter, in the requested order, and the number of ALL matching rows
      (not only those in the window) when a count was asked for. */
  lemma ExecuteAnswer<T(!new)>(schema: Schema<T>, table: Table<T>, q: Query)
    requires Execute(schema, table, q).Ok?
    ensures var a := Execute(schema, table, q).value;
            && (a.count.Some? <==> q.withCount)
            && (q.withCount ==> a.count.value == |Matching(schema, table.rows, q.filters)| <= |table.rows|)
            && (forall x :: x in a.rows ==> x in table.rows && Matches(schema.view(x), q.filters))
            && (q.newestFirst.Some? ==> NewestFirst(schema.view, q.newestFirst.value, a.rows))
  {
    var ordered := Ordered(schema, table.rows, q);
    var rows := ApplyWindow(ordered, q.window);
    WhereMembers(table.rows, x => Matches(schema.view(x), q.filters));
    forall x | x in rows ensures x in table.rows && Matches(schema.view(x), q.filters) {
      assert x in multiset(ordered);
    }
    if q.newestFirst.Some? {
      WindowKeepsOrder(schema.view, q.newestFirst.value, ordered, q.window);
    }
  }

  /** `.single()`: the query must yield exactly one row, else PostgREST error PGRST116. */
  function ExecuteSingle<T(==,!new)>(schema: Schema<T>, table: Table<T>, q: Query): (r: Result<T, StoreError>)
    ensures table.outage.Some? ==> r == Err(table.outage.value)
    ensures r.Ok? ==> r.value in table.rows && Matches(schema.view(r.value), q.filters)
    ensures r.Err? && table.outage.None? && UnknownColumn(schema.columns, q).None? ==>
              r.error.code == "PGRST116" && |Execute(schema, table, q).value.rows| != 1
  {
    match Execute(schema, table, q)
    case Err(e) => Err(e)
    case Ok(answer) =>
      ExecuteAnswer(schema, table, q);
      if |answer.rows| == 1 then Ok(answer.rows[0])
      else Err(StoreError("PGRST116", "JSON object requested, multiple (or no) rows returned"))
  }
}
