/** The benchmark harness of Test_perf.py: the same logical queries are run
    against MongoDB and against Supabase (PostgreSQL), each query's elapsed
    time is collected, repeated runs are averaged, an index on the filtered
    attribute is dropped, created and dropped again around two measured
    phases, and the result records are reduced to a summary with a ratio
    and a winner per test.

    Elapsed times are supplied by the environment: `latency(k)` is the
    wall-clock delta, in milliseconds, measured around the k-th query a
    comparison issues. Each backend's index catalogue is a set of index
    names. */
module Perf {
  import opened PyValues
  import opened Seqs

  datatype Backend = MongoDB | Supabase

  /** One entry of the results list: the test name and the execution time
      recorded for each backend. */
  datatype TestResult = TestResult(test: string, mongoMs: real, supabaseMs: real)

  /** One line of the comparative summary. */
  datatype SummaryRow = SummaryRow(test: string, mongoMs: real, supabaseMs: real, ratio: real, winner: Backend)

  // ---------- Summary reduction ----------

  /** MongoDB time over Supabase time, or 0 when the Supabase time is not
      positive. */
  function Ratio(mongoMs: real, supabaseMs: real): (r: real)
    ensures supabaseMs > 0.0 ==> r * supabaseMs == mongoMs
    ensures supabaseMs <= 0.0 ==> r == 0.0
  {
    if supabaseMs > 0.0 then mongoMs / supabaseMs else 0.0
  }

  /** Supabase wins only when strictly faster; a tie goes to MongoDB. */
  function Winner(mongoMs: real, supabaseMs: real): (w: Backend)
    ensures w == Supabase <==> supabaseMs < mongoMs
    ensures w == MongoDB <==> mongoMs <= supabaseMs
  {
    if supabaseMs < mongoMs then Supabase else MongoDB
  }

  /** The reading the summary prints under the table: with a positive
      Supabase time, a ratio above 1 means MongoDB was slower (Supabase
      wins), a ratio below 1 means Supabase was slower, and a ratio of
      exactly 1 is a tie, which MongoDB wins. */
  lemma RatioAgreesWithWinner(mongoMs: real, supabaseMs: real)
    requires supabaseMs > 0.0
    ensures Ratio(mongoMs, supabaseMs) > 1.0 <==> Winner(mongoMs, supabaseMs) == Supabase
    ensures Ratio(mongoMs, supabaseMs) < 1.0 <==> mongoMs < supabaseMs
    ensures Ratio(mongoMs, supabaseMs) == 1.0 <==> mongoMs == supabaseMs
  {
    var r := Ratio(mongoMs, supabaseMs);
    assert r * supabaseMs == mongoMs;
    if r > 1.0 {
      assert r * supabaseMs > 1.0 * supabaseMs;
    } else if r < 1.0 {
      assert r * supabaseMs < 1.0 * supabaseMs;
    }
  }

  /** `display_summary`: one row per result, in the order of the results. */
  method DisplaySummary(results: seq<TestResult>) returns (summary: seq<SummaryRow>)
    ensures |summary| == |results|
    ensures forall i :: 0 <= i < |results| ==>
      && summary[i].test == results[i].test
      && summary[i].mongoMs == results[i].mongoMs
      && summary[i].supabaseMs == results[i].supabaseMs
      && summary[i].ratio == Ratio(results[i].mongoMs, results[i].supabaseMs)
      && summary[i].winner == Winner(results[i].mongoMs, results[i].supabaseMs)
  {
    summary := [];
    for i := 0 to |results|
      invariant |summary| == i
      invariant forall j :: 0 <= j < i ==>
        && summary[j].test == results[j].test
        && summary[j].mongoMs == results[j].mongoMs
        && summary[j].supabaseMs == results[j].supabaseMs
        && summary[j].ratio == Ratio(results[j].mongoMs, results[j].supabaseMs)
        && summary[j].winner == Winner(results[j].mongoMs, results[j].supabaseMs)
    {
      var mongoMs := results[i].mongoMs;
      var supabaseMs := results[i].supabaseMs;
      summary := summary + [SummaryRow(results[i].test, mongoMs, supabaseMs, Ratio(mongoMs, supabaseMs), Winner(mongoMs, supabaseMs))];
    }
  }

  // ---------- Averaging repeated runs ----------

  function Sum(xs: seq<real>): real
  {
    if xs == [] then 0.0 else Sum(xs[..|xs| - 1]) + xs[|xs| - 1]
  }

  /** `sum(xs) / len(xs) if xs else 0`. */
  function Mean(xs: seq<real>): (m: real)
    ensures xs == [] ==> m == 0.0
    ensures xs != [] ==> m * (|xs| as real) == Sum(xs)
  {
    if xs == [] then 0.0 else Sum(xs) / (|xs| as real)
  }

  /** The smallest sample. */
  function Min(xs: seq<real>): (m: real)
    requires xs != []
    ensures m in xs
    ensures forall i :: 0 <= i < |xs| ==> m <= xs[i]
  {
    if |xs| == 1 then xs[0]
    else
      var rest := Min(xs[1..]);
      assert forall i :: 1 <= i < |xs| ==> xs[i] == xs[1..][i - 1];
      if xs[0] <= rest then xs[0] else rest
  }

  /** The largest sample. */
  function Max(xs: seq<real>): (m: real)
    requires xs != []
    ensures m in xs
    ensures forall i :: 0 <= i < |xs| ==> xs[i] <= m
  {
    if |xs| == 1 then xs[0]
    else
      var rest := Max(xs[1..]);
      assert forall i :: 1 <= i < |xs| ==> xs[i] == xs[1..][i - 1];
      if rest <= xs[0] then xs[0] else rest
  }

  lemma {:induction false} SumBounds(xs: seq<real>, lo: real, hi: real)
    requires forall i :: 0 <= i < |xs| ==> lo <= xs[i] <= hi
    ensures lo * (|xs| as real) <= Sum(xs) <= hi * (|xs| as real)
  {
    if xs != [] {
      var init := xs[..|xs| - 1];
      assert forall i :: 0 <= i < |init| ==> init[i] == xs[i];
      SumBounds(init, lo, hi);
      assert lo * (|xs| as real) == lo * (|init| as real) + lo;
      assert hi * (|xs| as real) == hi * (|init| as real) + hi;
    }
  }

  /** Bounds on every sample bound the mean. */
  lemma MeanWithinBounds(xs: seq<real>, lo: real, hi: real)
    requires xs != []
    requires forall i :: 0 <= i < |xs| ==> lo <= xs[i] <= hi
    ensures lo <= Mean(xs) <= hi
  {
    SumBounds(xs, lo, hi);
    var n := |xs| as real;
    var m := Mean(xs);
    assert m * n == Sum(xs);
    assert lo * n <= m * n <= hi * n;
  }

  /** The mean of a non-empty list lies between its smallest and its
      largest sample. */
  lemma MeanBetweenMinAndMax(xs: seq<real>)
    requires xs != []
    ensures Min(xs) <= Mean(xs) <= Max(xs)
  {
    MeanWithinBounds(xs, Min(xs), Max(xs));
  }

  /** n equal samples average to that sample. */
  lemma MeanOfEqualSamples(xs: seq<real>, v: real)
    requires xs != []
    requires forall i :: 0 <= i < |xs| ==> xs[i] == v
    ensures Mean(xs) == v
  {
    MeanWithinBounds(xs, v, v);
  }

  // ---------- Filters and queries ----------

  datatype Comparison = GreaterThan | EqualTo

  /** A single-attribute predicate: MongoDB `{attr: {"$gt": v}}` or
      `{attr: v}`, PostgreSQL `WHERE attr > v`. */
  datatype Filter = Filter(attribute: string, op: Comparison, operand: Value)

  datatype Query =
    | SelectAll                          // find({}) / SELECT ... FROM mongo_import
    | SelectWhere(filter: Filter)        // find(filter) / SELECT ... WHERE
    | CountAndAverage(attribute: string) // $group count/$avg / COUNT(*), AVG(...)

  /** The `mongo_filter` of `compare_index_effect`: a numeric threshold gives
      `$gt`, anything else an equality match. */
  function MongoFilter(field: string, filterValue: Value): (f: Filter)
    ensures f.attribute == field && f.operand == filterValue
    ensures f.op == GreaterThan <==> IsNumber(filterValue)
    ensures f.op == EqualTo <==> !IsNumber(filterValue)
  {
    if IsNumber(filterValue) then Filter(field, GreaterThan, filterValue)
    else Filter(field, EqualTo, filterValue)
  }

  /** The PostgreSQL side always compares with `>`. */
  function PgFilter(column: string, filterValue: Value): Filter
  {
    Filter(column, GreaterThan, filterValue)
  }

  /** The two backends run the same comparison exactly when the threshold is
      numeric; a string threshold is an equality match on MongoDB but a
      greater-than on PostgreSQL. */
  lemma FiltersAgreeIffNumeric(field: string, column: string, filterValue: Value)
    ensures MongoFilter(field, filterValue).op == PgFilter(column, filterValue).op <==> IsNumber(filterValue)
  {
  }

  // ---------- Index catalogues and the event log ----------

  const PgTable: string := "mongo_import"

  /** The name `create_index([(field, 1)])` gives by default, and the one
      passed explicitly. */
  function MongoIndexName(field: string): string
  {
    field + "_1"
  }

  function PgIndexName(column: string): string
  {
    "idx_mongo_import_" + column
  }

  datatype Catalogues = Catalogues(mongo: set<string>, pg: set<string>)

  /** What a benchmark does to the two backends, in order. A query records
      the index names its backend carried when it ran. */
  datatype Event =
    | Dropped(backend: Backend, name: string)
    | Created(backend: Backend, name: string)
    | Queried(backend: Backend, query: Query, indexes: set<string>)

  function IndexesOf(c: Catalogues, b: Backend): set<string>
  {
    if b == MongoDB then c.mongo else c.pg
  }

  /** The effect of one event on the catalogues. Drops are drop-if-exists,
      the PostgreSQL create is `CREATE INDEX IF NOT EXISTS`. */
  function Apply(c: Catalogues, e: Event): (c': Catalogues)
    ensures e.Dropped? ==> IndexesOf(c', e.backend) == IndexesOf(c, e.backend) - {e.name}
    ensures e.Created? ==> IndexesOf(c', e.backend) == IndexesOf(c, e.backend) + {e.name}
    ensures !e.Queried? ==> IndexesOf(c', if e.backend == MongoDB then Supabase else MongoDB)
                            == IndexesOf(c, if e.backend == MongoDB then Supabase else MongoDB)
    ensures e.Queried? ==> c' == c
  {
    match e
    case Dropped(MongoDB, n) => c.(mongo := c.mongo - {n})
    case Dropped(Supabase, n) => c.(pg := c.pg - {n})
    case Created(MongoDB, n) => c.(mongo := c.mongo + {n})
    case Created(Supabase, n) => c.(pg := c.pg + {n})
    case Queried(_, _, _) => c
  }

  /** The catalogues after the events of `log`, starting from `c`. */
  function Replay(c: Catalogues, log: seq<Event>): Catalogues
  {
    if log == [] then c else Apply(Replay(c, log[..|log| - 1]), log[|log| - 1])
  }

  /** Every query in `log` saw exactly the indexes the preceding events left. */
  predicate Consistent(c: Catalogues, log: seq<Event>)
  {
    if log == [] then true
    else
      var init := log[..|log| - 1];
      var e := log[|log| - 1];
      Consistent(c, init) && (e.Queried? ==> e.indexes == IndexesOf(Replay(c, init), e.backend))
  }

  lemma {:induction false} ReplayAppend(c: Catalogues, a: seq<Event>, b: seq<Event>)
    ensures Replay(c, a + b) == Replay(Replay(c, a), b)
    ensures Consistent(c, a + b) <==> Consistent(c, a) && Consistent(Replay(c, a), b)
    decreases |b|
  {
    if b == [] {
      assert a + b == a;
    } else {
      var b' := b[..|b| - 1];
      assert (a + b)[..|a + b| - 1] == a + b';
      ReplayAppend(c, a, b');
    }
  }

  /** Two drops of the same index leave what one drop leaves, and so do two
      `CREATE INDEX IF NOT EXISTS` of the same name. */
  lemma DropAndCreateIdempotent(c: Catalogues, b: Backend, name: string)
    ensures Replay(c, [Dropped(b, name), Dropped(b, name)]) == Replay(c, [Dropped(b, name)])
    ensures Replay(c, [Created(b, name), Created(b, name)]) == Replay(c, [Created(b, name)])
  {
    assert [Dropped(b, name), Dropped(b, name)][..1] == [Dropped(b, name)];
    assert [Created(b, name), Created(b, name)][..1] == [Created(b, name)];
  }

  /** The number of times `for i in range(runs)` iterates. */
  function Iterations(runs: int): nat
  {
    if runs > 0 then runs else 0
  }

  /** The events of one measured phase: `n` iterations, each a MongoDB query
      followed by a PostgreSQL query, against unchanged catalogues. */
  function PhaseLog(mongoQuery: Query, pgQuery: Query, c: Catalogues, n: nat): (log: seq<Event>)
    ensures |log| == 2 * n
  {
    if n == 0 then []
    else PhaseLog(mongoQuery, pgQuery, c, n - 1) + [Queried(MongoDB, mongoQuery, c.mongo), Queried(Supabase, pgQuery, c.pg)]
  }

  /** A phase holds exactly `n` queries per backend, alternating, MongoDB
      first in every iteration. */
  lemma {:induction false} PhaseLogShape(mongoQuery: Query, pgQuery: Query, c: Catalogues, n: nat)
    ensures |PhaseLog(mongoQuery, pgQuery, c, n)| == 2 * n
    ensures forall k :: 0 <= k < 2 * n ==>
      PhaseLog(mongoQuery, pgQuery, c, n)[k] ==
        if k % 2 == 0 then Queried(MongoDB, mongoQuery, c.mongo) else Queried(Supabase, pgQuery, c.pg)
  {
    if n > 0 {
      PhaseLogShape(mongoQuery, pgQuery, c, n - 1);
    }
  }

  /** A phase changes no catalogue, and each of its queries sees the
      catalogue it was started with. */
  lemma PhaseLogReplay(mongoQuery: Query, pgQuery: Query, c: Catalogues, n: nat)
    ensures Replay(c, PhaseLog(mongoQuery, pgQuery, c, n)) == c
    ensures Consistent(c, PhaseLog(mongoQuery, pgQuery, c, n))
  {
    PhaseLogShape(mongoQuery, pgQuery, c, n);
    QueriesAgainst(c, PhaseLog(mongoQuery, pgQuery, c, n));
  }

  /** Queries that each see `c` leave `c` unchanged and are consistent. */
  lemma {:induction false} QueriesAgainst(c: Catalogues, log: seq<Event>)
    requires forall k :: 0 <= k < |log| ==> log[k].Queried? && log[k].indexes == IndexesOf(c, log[k].backend)
    ensures Replay(c, log) == c
    ensures Consistent(c, log)
  {
    if log != [] {
      QueriesAgainst(c, log[..|log| - 1]);
    }
  }

  /** The samples of one backend in one phase: every other query, starting
      at query number `start`. */
  function Samples(latency: nat -> real, start: nat, n: nat): (xs: seq<real>)
    ensures |xs| == n
    ensures forall i :: 0 <= i < n ==> xs[i] == latency(start + 2 * i)
  {
    seq(n, i requires 0 <= i < n => latency(start + 2 * i))
  }

  /** One more iteration adds one sample at the end. */
  lemma SamplesStep(latency: nat -> real, start: nat, n: nat)
    ensures Samples(latency, start, n + 1) == Samples(latency, start, n) + [latency(start + 2 * n)]
  {
  }

  /** The drops of both benchmark indexes. */
  function DropsLog(field: string, column: string): seq<Event>
  {
    [Dropped(MongoDB, MongoIndexName(field)), Dropped(Supabase, PgIndexName(column))]
  }

  /** The catalogues without the two benchmark indexes. */
  function Without(c: Catalogues, field: string, column: string): Catalogues
  {
    Catalogues(c.mongo - {MongoIndexName(field)}, c.pg - {PgIndexName(column)})
  }

  /** The catalogues with the two benchmark indexes. */
  function With(c: Catalogues, field: string, column: string): Catalogues
  {
    Catalogues(c.mongo + {MongoIndexName(field)}, c.pg + {PgIndexName(column)})
  }

  /** First part: drop both indexes, then the phase without index. */
  function NoIndexLog(c: Catalogues, field: string, column: string, filterValue: Value, runs: int): seq<Event>
  {
    DropsLog(field, column)
    + PhaseLog(SelectWhere(MongoFilter(field, filterValue)), SelectWhere(PgFilter(column, filterValue)),
               Without(c, field, column), Iterations(runs))
  }

  /** Second part, from catalogues `c`: create both indexes, then the phase
      with index. */
  function IndexedLog(c: Catalogues, field: string, column: string, filterValue: Value, runs: int): seq<Event>
  {
    [Created(MongoDB, MongoIndexName(field)), Created(Supabase, PgIndexName(column))]
    + PhaseLog(SelectWhere(MongoFilter(field, filterValue)), SelectWhere(PgFilter(column, filterValue)),
               With(c, field, column), Iterations(runs))
  }

  /** Everything `compare_index_effect` does on the normal path: drop both
      indexes, measure, create both, measure, drop both. */
  function IndexEffectLog(c: Catalogues, field: string, column: string, filterValue: Value, runs: int): seq<Event>
  {
    NoIndexLog(c, field, column, filterValue, runs)
    + IndexedLog(Without(c, field, column), field, column, filterValue, runs)
    + DropsLog(field, column)
  }

  /** The name of an index-effect record, without or with the index. */
  function IndexEffectName(field: string, column: string, withIndex: bool): string
  {
    "Index effect " + field + "/" + column + (if withIndex then " (avec index)" else " (sans index)")
  }

  /** The two summary records `compare_index_effect` returns. */
  function IndexEffectResults(field: string, column: string, runs: int, latency: nat -> real, base: nat): seq<TestResult>
  {
    var n := Iterations(runs);
    [ TestResult(IndexEffectName(field, column, false),
                 Mean(Samples(latency, base, n)), Mean(Samples(latency, base + 1, n))),
      TestResult(IndexEffectName(field, column, true),
                 Mean(Samples(latency, base + 2 * n, n)), Mean(Samples(latency, base + 2 * n + 1, n))) ]
  }

  /** The events of the normal path, in order: two drops, the first phase,
      two creates, the second phase, two drops. */
  lemma IndexEffectLayout(c: Catalogues, field: string, column: string, filterValue: Value, runs: int)
    ensures var m := MongoIndexName(field);
      var p := PgIndexName(column);
      var mq := SelectWhere(MongoFilter(field, filterValue));
      var pq := SelectWhere(PgFilter(column, filterValue));
      var n := Iterations(runs);
      var drops := [Dropped(MongoDB, m), Dropped(Supabase, p)];
      var log := IndexEffectLog(c, field, column, filterValue, runs);
      && |log| == 4 * n + 6
      && log[..2] == drops
      && log[2..2 * n + 2] == PhaseLog(mq, pq, Catalogues(c.mongo - {m}, c.pg - {p}), n)
      && log[2 * n + 2..2 * n + 4] == [Created(MongoDB, m), Created(Supabase, p)]
      && log[2 * n + 4..4 * n + 4] == PhaseLog(mq, pq, Catalogues(c.mongo - {m} + {m}, c.pg - {p} + {p}), n)
      && log[4 * n + 4..] == drops
  {
    var m := MongoIndexName(field);
    var p := PgIndexName(column);
    var mq := SelectWhere(MongoFilter(field, filterValue));
    var pq := SelectWhere(PgFilter(column, filterValue));
    var n := Iterations(runs);
    var drops := [Dropped(MongoDB, m), Dropped(Supabase, p)];
    var phase1 := PhaseLog(mq, pq, Catalogues(c.mongo - {m}, c.pg - {p}), n);
    var phase2 := PhaseLog(mq, pq, Catalogues(c.mongo - {m} + {m}, c.pg - {p} + {p}), n);
    PhaseLogShape(mq, pq, Catalogues(c.mongo - {m}, c.pg - {p}), n);
    PhaseLogShape(mq, pq, Catalogues(c.mongo - {m} + {m}, c.pg - {p} + {p}), n);
    assert IndexEffectLog(c, field, column, filterValue, runs)
        == drops + phase1 + ([Created(MongoDB, m), Created(Supabase, p)] + phase2) + drops;
  }

  /** Every query of the first phase runs while neither benchmark index
      exists, every query of the second while both exist; each phase holds
      `runs` queries per backend, the MongoDB one first in every iteration. */
  lemma IndexEffectPhases(c: Catalogues, field: string, column: string, filterValue: Value, runs: int, k: nat)
    requires 2 <= k < 4 * Iterations(runs) + 4
    requires !(2 * Iterations(runs) + 2 <= k < 2 * Iterations(runs) + 4)
    ensures var log := IndexEffectLog(c, field, column, filterValue, runs);
      var firstPhase := k < 2 * Iterations(runs) + 2;
      && k < |log|
      && log[k].Queried?
      && log[k].backend == (if k % 2 == 0 then MongoDB else Supabase)
      && (log[k].backend == MongoDB ==>
            && log[k].query == SelectWhere(MongoFilter(field, filterValue))
            && (MongoIndexName(field) in log[k].indexes <==> !firstPhase))
      && (log[k].backend == Supabase ==>
            && log[k].query == SelectWhere(PgFilter(column, filterValue))
            && (PgIndexName(column) in log[k].indexes <==> !firstPhase))
  {
    var mq := SelectWhere(MongoFilter(field, filterValue));
    var pq := SelectWhere(PgFilter(column, filterValue));
    var n := Iterations(runs);
    if k < 2 * n + 2 {
      PhaseAt(c, field, column, filterValue, runs, true, k - 2);
      PhaseQueryAt(mq, pq, Without(c, field, column), n, k - 2);
    } else {
      PhaseAt(c, field, column, filterValue, runs, false, k - 2 * n - 4);
      PhaseQueryAt(mq, pq, With(Without(c, field, column), field, column), n, k - 2 * n - 4);
    }
  }

  /** Position `j` of the first phase (`first`) or of the second phase in
      the log of the normal path. */
  lemma PhaseAt(c: Catalogues, field: string, column: string, filterValue: Value, runs: int, first: bool, j: nat)
    requires j < 2 * Iterations(runs)
    ensures var n := Iterations(runs);
      var log := IndexEffectLog(c, field, column, filterValue, runs);
      var mq := SelectWhere(MongoFilter(field, filterValue));
      var pq := SelectWhere(PgFilter(column, filterValue));
      && |log| == 4 * n + 6
      && (first ==> log[2 + j] == PhaseLog(mq, pq, Without(c, field, column), n)[j])
      && (!first ==> log[2 * n + 4 + j] == PhaseLog(mq, pq, With(Without(c, field, column), field, column), n)[j])
  {
    var n := Iterations(runs);
    var mq := SelectWhere(MongoFilter(field, filterValue));
    var pq := SelectWhere(PgFilter(column, filterValue));
    var w := Without(c, field, column);
    var a := NoIndexLog(c, field, column, filterValue, runs);
    var b := IndexedLog(w, field, column, filterValue, runs);
    PhaseLogShape(mq, pq, w, n);
    PhaseLogShape(mq, pq, With(w, field, column), n);
    assert |a| == 2 * n + 2 && |b| == 2 * n + 2;
    var log := IndexEffectLog(c, field, column, filterValue, runs);
    assert log == a + b + DropsLog(field, column);
    if first {
      assert log[2 + j] == a[2 + j];
    } else {
      assert log[2 * n + 4 + j] == b[2 + j];
    }
  }

  /** The query at position `j` of a phase. */
  lemma PhaseQueryAt(mongoQuery: Query, pgQuery: Query, c: Catalogues, n: nat, j: nat)
    requires j < 2 * n
    ensures |PhaseLog(mongoQuery, pgQuery, c, n)| == 2 * n
    ensures PhaseLog(mongoQuery, pgQuery, c, n)[j] ==
      if j % 2 == 0 then Queried(MongoDB, mongoQuery, c.mongo) else Queried(Supabase, pgQuery, c.pg)
  {
    PhaseLogShape(mongoQuery, pgQuery, c, n);
  }

  lemma TwoEvents(c: Catalogues, two: seq<Event>)
    requires |two| == 2
    ensures Replay(c, two) == Apply(Apply(c, two[0]), two[1])
  {
    var one := two[..1];
    assert one[..0] == [];
    assert Replay(c, one) == Apply(Replay(c, []), one[0]);
    assert Replay(c, two) == Apply(Replay(c, one), two[1]);
  }

  /** Removing the benchmark indexes after adding them back gives the
      catalogues without them. */
  lemma Reinstated(c: Catalogues, field: string, column: string)
    ensures Without(With(Without(c, field, column), field, column), field, column) == Without(c, field, column)
  {
  }

  /** The two drops leave the catalogues without the benchmark indexes. */
  lemma DropsRestore(c: Catalogues, field: string, column: string)
    ensures Replay(c, DropsLog(field, column)) == Without(c, field, column)
    ensures Consistent(c, DropsLog(field, column))
  {
    TwoEvents(c, DropsLog(field, column));
    NoQueries(c, DropsLog(field, column));
  }

  lemma NoIndexRestores(c: Catalogues, field: string, column: string, filterValue: Value, runs: int)
    ensures Replay(c, NoIndexLog(c, field, column, filterValue, runs)) == Without(c, field, column)
    ensures Consistent(c, NoIndexLog(c, field, column, filterValue, runs))
  {
    var w := Without(c, field, column);
    var phase := PhaseLog(SelectWhere(MongoFilter(field, filterValue)), SelectWhere(PgFilter(column, filterValue)), w, Iterations(runs));
    DropsRestore(c, field, column);
    PhaseLogReplay(SelectWhere(MongoFilter(field, filterValue)), SelectWhere(PgFilter(column, filterValue)), w, Iterations(runs));
    ReplayAppend(c, DropsLog(field, column), phase);
  }

  lemma IndexedRestores(c: Catalogues, field: string, column: string, filterValue: Value, runs: int)
    ensures Replay(c, IndexedLog(c, field, column, filterValue, runs)) == With(c, field, column)
    ensures Consistent(c, IndexedLog(c, field, column, filterValue, runs))
  {
    var w := With(c, field, column);
    var creates := [Created(MongoDB, MongoIndexName(field)), Created(Supabase, PgIndexName(column))];
    var phase := PhaseLog(SelectWhere(MongoFilter(field, filterValue)), SelectWhere(PgFilter(column, filterValue)), w, Iterations(runs));
    TwoEvents(c, creates);
    NoQueries(c, creates);
    PhaseLogReplay(SelectWhere(MongoFilter(field, filterValue)), SelectWhere(PgFilter(column, filterValue)), w, Iterations(runs));
    ReplayAppend(c, creates, phase);
  }

  /** After the normal path the catalogues are the initial ones minus the two
      benchmark indexes, and every query in the log saw the catalogue the
      events before it left. */
  lemma IndexEffectRestores(c: Catalogues, field: string, column: string, filterValue: Value, runs: int)
    ensures Replay(c, IndexEffectLog(c, field, column, filterValue, runs))
         == Catalogues(c.mongo - {MongoIndexName(field)}, c.pg - {PgIndexName(column)})
    ensures Consistent(c, IndexEffectLog(c, field, column, filterValue, runs))
  {
    var w := Without(c, field, column);
    var first := NoIndexLog(c, field, column, filterValue, runs);
    var second := IndexedLog(w, field, column, filterValue, runs);
    NoIndexRestores(c, field, column, filterValue, runs);
    IndexedRestores(w, field, column, filterValue, runs);
    DropsRestore(With(w, field, column), field, column);
    ReplayAppend(c, first, second);
    ReplayAppend(c, first + second, DropsLog(field, column));
    Reinstated(c, field, column);
  }

  lemma {:induction false} NoQueries(c: Catalogues, log: seq<Event>)
    requires forall k :: 0 <= k < |log| ==> !log[k].Queried?
    ensures Consistent(c, log)
  {
    if log != [] {
      NoQueries(c, log[..|log| - 1]);
    }
  }

  // ---------- The benchmark against the two backends ----------

  /** The state the benchmark changes: the index names of the MongoDB
      collection and of the PostgreSQL table, and the log of everything done
      to them. */
  class Bench {
    var mongoIndexes: set<string>
    var pgIndexes: set<string>
    var log: seq<Event>
    ghost var initial: Catalogues

    function Current(): Catalogues
      reads this
    {
      Catalogues(mongoIndexes, pgIndexes)
    }

    /** The log replays from the initial catalogues to the current ones, and
        every query in it saw the catalogue of its time. */
    ghost predicate Valid()
      reads this
    {
      Consistent(initial, log) && Replay(initial, log) == Current()
    }

    constructor (mongo: set<string>, pg: set<string>)
      ensures Valid()
      ensures mongoIndexes == mongo && pgIndexes == pg && log == []
      ensures initial == Catalogues(mongo, pg)
    {
      mongoIndexes, pgIndexes, log := mongo, pg, [];
      initial := Catalogues(mongo, pg);
    }

    /** Adds `e` to the log and applies it. */
    method Record(e: Event)
      requires Valid()
      requires e.Queried? ==> e.indexes == IndexesOf(Current(), e.backend)
      modifies this
      ensures Valid() && initial == old(initial)
      ensures log == old(log) + [e]
      ensures Current() == Apply(old(Current()), e)
    {
      ghost var before := log;
      log := log + [e];
      assert log[..|log| - 1] == before;
      var c := Apply(Current(), e);
      mongoIndexes, pgIndexes := c.mongo, c.pg;
    }

    /** `drop_mongo_index`: the call always returns, since every exception
        is swallowed. The drop is taken to succeed: a missing index simply
        stays missing, and a failure that would leave the index in place is
        not modelled. */
    method DropMongoIndex(name: string)
      requires Valid()
      modifies this
      ensures Valid() && initial == old(initial)
      ensures mongoIndexes == old(mongoIndexes) - {name} && pgIndexes == old(pgIndexes)
      ensures log == old(log) + [Dropped(MongoDB, name)]
    {
      Record(Dropped(MongoDB, name));
    }

    /** `drop_postgres_index`: `DROP INDEX IF EXISTS`, taken to succeed; a
        swallowed failure that would keep the index (and abort the
        transaction) is not modelled. */
    method DropPostgresIndex(name: string)
      requires Valid()
      modifies this
      ensures Valid() && initial == old(initial)
      ensures pgIndexes == old(pgIndexes) - {name} && mongoIndexes == old(mongoIndexes)
      ensures log == old(log) + [Dropped(Supabase, name)]
    {
      Record(Dropped(Supabase, name));
    }

    /** `create_mongo_index`: an ascending index on `field` under
        `indexName`; returns the index name. */
    method CreateMongoIndex(field: string, indexName: string) returns (idx: string)
      requires Valid()
      modifies this
      ensures Valid() && initial == old(initial)
      ensures idx == indexName
      ensures mongoIndexes == old(mongoIndexes) + {indexName} && pgIndexes == old(pgIndexes)
      ensures log == old(log) + [Created(MongoDB, indexName)]
    {
      Record(Created(MongoDB, indexName));
      idx := indexName;
    }

    /** `create_postgres_index`: `CREATE INDEX IF NOT EXISTS`, so creating an
        existing name changes nothing. */
    method CreatePostgresIndex(table: string, column: string, indexName: string)
      requires Valid()
      modifies this
      ensures Valid() && initial == old(initial)
      ensures pgIndexes == old(pgIndexes) + {indexName} && mongoIndexes == old(mongoIndexes)
      ensures log == old(log) + [Created(Supabase, indexName)]
    {
      Record(Created(Supabase, indexName));
    }

    /** Runs one query; the elapsed time is the environment's. */
    method RunQuery(backend: Backend, query: Query)
      requires Valid()
      modifies this
      ensures Valid() && initial == old(initial)
      ensures Current() == old(Current())
      ensures log == old(log) + [Queried(backend, query, IndexesOf(old(Current()), backend))]
    {
      Record(Queried(backend, query, IndexesOf(Current(), backend)));
    }

    /** One `for i in range(runs)` loop of `compare_index_effect`: each
        iteration times the MongoDB query, then the PostgreSQL query. */
    method MeasurePhase(mongoQuery: Query, pgQuery: Query, runs: int, latency: nat -> real, start: nat)
      returns (mongoTimes: seq<real>, pgTimes: seq<real>)
      requires Valid()
      modifies this
      ensures Valid() && initial == old(initial)
      ensures Current() == old(Current())
      ensures log == old(log) + PhaseLog(mongoQuery, pgQuery, old(Current()), Iterations(runs))
      ensures mongoTimes == Samples(latency, start, Iterations(runs))
      ensures pgTimes == Samples(latency, start + 1, Iterations(runs))
    {
      mongoTimes, pgTimes := [], [];
      var n := Iterations(runs);
      for i := 0 to n
        invariant Valid() && initial == old(initial)
        invariant Current() == old(Current())
        invariant log == old(log) + PhaseLog(mongoQuery, pgQuery, old(Current()), i)
        invariant mongoTimes == Samples(latency, start, i)
        invariant pgTimes == Samples(latency, start + 1, i)
      {
        SamplesStep(latency, start, i);
        SamplesStep(latency, start + 1, i);
        ghost var before := log;
        RunQuery(MongoDB, mongoQuery);
        mongoTimes := mongoTimes + [latency(start + 2 * i)];
        RunQuery(Supabase, pgQuery);
        pgTimes := pgTimes + [latency(start + 1 + 2 * i)];
        AppendTwo(before, [Queried(MongoDB, mongoQuery, old(Current()).mongo)], [Queried(Supabase, pgQuery, old(Current()).pg)]);
      }
    }

    /** The first half of `compare_index_effect`: make sure neither index
        exists (the drops swallow every failure), then time `runs` iterations
        and average them. */
    method MeasureWithoutIndex(fieldMongo: string, columnPg: string, filterValue: Value, runs: int,
                               latency: nat -> real, base: nat)
      returns (avgMongo: real, avgPg: real)
      requires Valid()
      modifies this
      ensures Valid() && initial == old(initial)
      ensures Current() == Without(old(Current()), fieldMongo, columnPg)
      ensures log == old(log) + NoIndexLog(old(Current()), fieldMongo, columnPg, filterValue, runs)
      ensures avgMongo == Mean(Samples(latency, base, Iterations(runs)))
      ensures avgPg == Mean(Samples(latency, base + 1, Iterations(runs)))
    {
      var mongoFilter := MongoFilter(fieldMongo, filterValue);
      var pgFilter := PgFilter(columnPg, filterValue);
      ghost var log0 := log;

      DropMongoIndex(MongoIndexName(fieldMongo));
      DropPostgresIndex(PgIndexName(columnPg));
      assert log == log0 + DropsLog(fieldMongo, columnPg);

      var mongoTimes, pgTimes := MeasurePhase(SelectWhere(mongoFilter), SelectWhere(pgFilter), runs, latency, base);
      avgMongo := Mean(mongoTimes);
      avgPg := Mean(pgTimes);
    }

    /** The second half of `compare_index_effect`: create both indexes, then
        time `runs` iterations and average them. */
    method MeasureWithIndex(fieldMongo: string, columnPg: string, filterValue: Value, runs: int,
                            latency: nat -> real, base: nat)
      returns (idxNameM: string, avgMongo: real, avgPg: real)
      requires Valid()
      modifies this
      ensures Valid() && initial == old(initial)
      ensures idxNameM == MongoIndexName(fieldMongo)
      ensures Current() == With(old(Current()), fieldMongo, columnPg)
      ensures log == old(log) + IndexedLog(old(Current()), fieldMongo, columnPg, filterValue, runs)
      ensures avgMongo == Mean(Samples(latency, base, Iterations(runs)))
      ensures avgPg == Mean(Samples(latency, base + 1, Iterations(runs)))
    {
      var mongoFilter := MongoFilter(fieldMongo, filterValue);
      var pgFilter := PgFilter(columnPg, filterValue);
      ghost var log0 := log;

      idxNameM := CreateMongoIndex(fieldMongo, MongoIndexName(fieldMongo));
      CreatePostgresIndex(PgTable, columnPg, PgIndexName(columnPg));
      assert log == log0 + [Created(MongoDB, MongoIndexName(fieldMongo)), Created(Supabase, PgIndexName(columnPg))];

      var mongoTimes, pgTimes := MeasurePhase(SelectWhere(mongoFilter), SelectWhere(pgFilter), runs, latency, base);
      avgMongo := Mean(mongoTimes);
      avgPg := Mean(pgTimes);
    }

    /** The cleanup at the end of `compare_index_effect`: drop the MongoDB
        index by the name its creation returned, then the PostgreSQL one. */
    method DropBenchIndexes(idxNameM: string, columnPg: string)
      requires Valid()
      modifies this
      ensures Valid() && initial == old(initial)
      ensures mongoIndexes == old(mongoIndexes) - {idxNameM}
      ensures pgIndexes == old(pgIndexes) - {PgIndexName(columnPg)}
      ensures log == old(log) + [Dropped(MongoDB, idxNameM), Dropped(Supabase, PgIndexName(columnPg))]
    {
      DropMongoIndex(idxNameM);
      DropPostgresIndex(PgIndexName(columnPg));
    }

    /** `compare_index_effect` on its normal path. The queries it issues are
        numbered from `base` in `latency`. */
    method CompareIndexEffect(fieldMongo: string, columnPg: string, filterValue: Value, runs: int,
                              latency: nat -> real, base: nat)
      returns (results: seq<TestResult>)
      requires Valid()
      modifies this
      ensures Valid() && initial == old(initial)
      ensures log == old(log) + IndexEffectLog(old(Current()), fieldMongo, columnPg, filterValue, runs)
      ensures Current() == Without(old(Current()), fieldMongo, columnPg)
      ensures results == IndexEffectResults(fieldMongo, columnPg, runs, latency, base)
    {
      ghost var c := Current();
      ghost var log0 := log;
      ghost var w := Without(c, fieldMongo, columnPg);
      var n := Iterations(runs);
      var avgMongoNoIdx, avgPgNoIdx := MeasureWithoutIndex(fieldMongo, columnPg, filterValue, runs, latency, base);
      ghost var first := NoIndexLog(c, fieldMongo, columnPg, filterValue, runs);
      var idxNameM, avgMongoIdx, avgPgIdx := MeasureWithIndex(fieldMongo, columnPg, filterValue, runs, latency, base + 2 * n);
      ghost var second := IndexedLog(w, fieldMongo, columnPg, filterValue, runs);
      DropBenchIndexes(idxNameM, columnPg);
      AppendThree(log0, first, second, DropsLog(fieldMongo, columnPg));
      Reinstated(c, fieldMongo, columnPg);
      results := [
        TestResult(IndexEffectName(fieldMongo, columnPg, false), avgMongoNoIdx, avgPgNoIdx),
        TestResult(IndexEffectName(fieldMongo, columnPg, true), avgMongoIdx, avgPgIdx)
      ];
    }

    /** One of the single-shot comparisons (simple select, filtered select,
        aggregation): the MongoDB query, then the PostgreSQL one, each timed
        once; the queries are numbered from `base` in `latency`. */
    method CompareOnce(test: string, mongoQuery: Query, pgQuery: Query, latency: nat -> real, base: nat)
      returns (result: TestResult)
      requires Valid()
      modifies this
      ensures Valid() && initial == old(initial)
      ensures Current() == old(Current())
      ensures log == old(log) + [Queried(MongoDB, mongoQuery, old(mongoIndexes)), Queried(Supabase, pgQuery, old(pgIndexes))]
      ensures result == TestResult(test, latency(base), latency(base + 1))
    {
      RunQuery(MongoDB, mongoQuery);
      var mongoMs := latency(base);
      RunQuery(Supabase, pgQuery);
      var supabaseMs := latency(base + 1);
      result := TestResult(test, mongoMs, supabaseMs);
    }

    /** The three single-shot comparisons of `__main__`, in their order. */
    method RunSingleShots(latency: nat -> real) returns (results: seq<TestResult>)
      requires Valid()
      modifies this
      ensures Valid() && initial == old(initial)
      ensures Current() == old(Current())
      ensures log == old(log) + SingleShotLog(old(Current()))
      ensures results == SingleShotResults(latency)
    {
      var simple := CompareOnce(SimpleSelectTest, SelectAll, SelectAll, latency, 0);
      var filtered := CompareOnce(FilteredTest, SelectWhere(Filter(LatitudeField, GreaterThan, VInt(0))),
                                  SelectWhere(Filter(LatitudeColumn, GreaterThan, VInt(0))), latency, 2);
      var aggregation := CompareOnce(AggregationTest, CountAndAverage(LatitudeField), CountAndAverage(LatitudeColumn), latency, 4);
      results := [simple, filtered, aggregation];
    }

    /** The battery of `__main__` on its normal path: simple select, filtered
        select, aggregation, index effect on latitude > 0 with three runs,
        then the summary. */
    method RunBattery(latency: nat -> real) returns (results: seq<TestResult>, summary: seq<SummaryRow>)
      requires Valid()
      modifies this
      ensures Valid() && initial == old(initial)
      ensures results == BatteryResults(latency)
      ensures log == old(log) + BatteryLog(old(Current()))
      ensures mongoIndexes == old(mongoIndexes) - {MongoIndexName(LatitudeField)}
      ensures pgIndexes == old(pgIndexes) - {PgIndexName(LatitudeColumn)}
      ensures |summary| == |results|
      ensures forall i :: 0 <= i < |results| ==>
        && summary[i].test == results[i].test
        && summary[i].mongoMs == results[i].mongoMs
        && summary[i].supabaseMs == results[i].supabaseMs
        && summary[i].ratio == Ratio(results[i].mongoMs, results[i].supabaseMs)
        && summary[i].winner == Winner(results[i].mongoMs, results[i].supabaseMs)
    {
      ghost var c := Current();
      ghost var log0 := log;
      var single := RunSingleShots(latency);
      ghost var log1 := log;
      var idxResults := CompareIndexEffect(LatitudeField, LatitudeColumn, VInt(0), 3, latency, 6);
      assert log == log0 + SingleShotLog(c) + IndexEffectLog(c, LatitudeField, LatitudeColumn, VInt(0), 3);
      results := single + idxResults;
      summary := DisplaySummary(results);
    }
  }

  const LatitudeField: string := "iss_position.lattitude"
  const LatitudeColumn: string := "lattitude"
  const SimpleSelectTest: string := "SELECT Simple"
  const FilteredTest: string := "SELECT avec Filtre"
  const AggregationTest: string := "Agrégation"

  /** The six single-shot queries of the battery. */
  function SingleShotLog(c: Catalogues): seq<Event>
  {
    [ Queried(MongoDB, SelectAll, c.mongo), Queried(Supabase, SelectAll, c.pg),
      Queried(MongoDB, SelectWhere(Filter(LatitudeField, GreaterThan, VInt(0))), c.mongo),
      Queried(Supabase, SelectWhere(Filter(LatitudeColumn, GreaterThan, VInt(0))), c.pg),
      Queried(MongoDB, CountAndAverage(LatitudeField), c.mongo),
      Queried(Supabase, CountAndAverage(LatitudeColumn), c.pg) ]
  }

  function SingleShotResults(latency: nat -> real): seq<TestResult>
  {
    [ TestResult(SimpleSelectTest, latency(0), latency(1)),
      TestResult(FilteredTest, latency(2), latency(3)),
      TestResult(AggregationTest, latency(4), latency(5)) ]
  }

  /** The six single-shot queries of the battery, then the index effect. */
  function BatteryLog(c: Catalogues): seq<Event>
  {
    SingleShotLog(c) + IndexEffectLog(c, LatitudeField, LatitudeColumn, VInt(0), 3)
  }

  function BatteryResults(latency: nat -> real): seq<TestResult>
  {
    SingleShotResults(latency) + IndexEffectResults(LatitudeField, LatitudeColumn, 3, latency, 6)
  }

  /** The battery reports five tests in declaration order; the filtered test
      uses the same filter the index-effect test builds for threshold 0, and
      its two index-effect rows average three samples each. */
  lemma BatteryShape(latency: nat -> real)
    ensures var rs := BatteryResults(latency);
      && |rs| == 5
      && rs[0].test == SimpleSelectTest && rs[1].test == FilteredTest && rs[2].test == AggregationTest
      && rs[3].mongoMs * 3.0 == latency(6) + latency(8) + latency(10)
      && rs[4].supabaseMs * 3.0 == latency(13) + latency(15) + latency(17)
    ensures Filter(LatitudeField, GreaterThan, VInt(0)) == MongoFilter(LatitudeField, VInt(0))
  {
    assert Samples(latency, 6, 3) == [latency(6), latency(8), latency(10)];
    assert Samples(latency, 13, 3) == [latency(13), latency(15), latency(17)];
    SumOfThree(latency(6), latency(8), latency(10));
    SumOfThree(latency(13), latency(15), latency(17));
  }

  /** The whole battery leaves both benchmark indexes absent and nothing
      else changed, and every one of its queries saw the catalogue of its
      time. */
  lemma BatteryRestores(c: Catalogues)
    ensures Replay(c, BatteryLog(c)) == Without(c, LatitudeField, LatitudeColumn)
    ensures Consistent(c, BatteryLog(c))
  {
    var single := SingleShotLog(c);
    assert forall k :: 0 <= k < |single| ==> single[k].Queried? && single[k].indexes == IndexesOf(c, single[k].backend);
    QueriesAgainst(c, single);
    IndexEffectRestores(c, LatitudeField, LatitudeColumn, VInt(0), 3);
    ReplayAppend(c, single, IndexEffectLog(c, LatitudeField, LatitudeColumn, VInt(0), 3));
  }

  lemma SumOfThree(x: real, y: real, z: real)
    ensures Sum([x, y, z]) == x + y + z
  {
    assert [x, y, z][..2] == [x, y];
    assert [x, y][..1] == [x];
    assert [x][..0] == [];
    assert Sum([x]) == x;
    assert Sum([x, y]) == x + y;
  }
}
