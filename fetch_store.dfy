/** The fetch-and-store loop of fetch_store_query.py: an HTTP endpoint is
    polled `repeat` times, and every payload it returns is inserted into a
    MongoDB collection, either one call per payload or collected into a
    buffer that is flushed with `insert_many` at a threshold and once more
    at the end.

    The HTTP responses are supplied by the environment: `responses[i]` is
    the decoded JSON of the i-th request, or `None` when the request or the
    decoding raised. What the script does to the outside world (collection
    calls and waits) is recorded, in order, as a sequence of actions. A
    failing insert only prints a message and changes nothing that follows,
    so an attempted insert is recorded whether or not it succeeded. */
module FetchStore {
  import opened Outcomes
  import opened Seqs
  import opened PyValues

  /** An effect of the script: a call on the collection or a wait. */
  datatype Action =
    | InsertMany(docs: seq<Value>)
    | InsertOne(doc: Value)
    | Sleep(seconds: real)

  /** The command-line switches that steer the loop. */
  datatype Options = Options(insert: bool, batch: bool, batchSize: int, interval: real)

  /** The documents the actions send to the collection, in order. */
  function DocsSent(actions: seq<Action>): seq<Value>
  {
    if actions == [] then []
    else
      var last := actions[|actions| - 1];
      DocsSent(actions[..|actions| - 1]) +
        match last
        case InsertMany(docs) => docs
        case InsertOne(doc) => [doc]
        case Sleep(_) => []
  }

  /** The number of waits among the actions. */
  function Sleeps(actions: seq<Action>): nat
  {
    if actions == [] then 0
    else Sleeps(actions[..|actions| - 1]) + if actions[|actions| - 1].Sleep? then 1 else 0
  }

  /** The collection calls among the actions, in order. */
  function Inserts(actions: seq<Action>): (calls: seq<Action>)
    ensures forall a :: a in calls ==> !a.Sleep?
  {
    if actions == [] then []
    else
      var last := actions[|actions| - 1];
      Inserts(actions[..|actions| - 1]) + if last.Sleep? then [] else [last]
  }

  lemma {:induction false} DocsSentAppend(a: seq<Action>, b: seq<Action>)
    ensures DocsSent(a + b) == DocsSent(a) + DocsSent(b)
    decreases |b|
  {
    if b == [] {
      assert a + b == a;
    } else {
      var b', last := b[..|b| - 1], b[|b| - 1];
      assert (a + b)[..|a + b| - 1] == a + b';
      assert (a + b)[|a + b| - 1] == last;
      DocsSentAppend(a, b');
      var tail := DocsSent([last]);
      OneAction(last);
      assert DocsSent(a + b) == DocsSent(a + b') + tail;
      assert DocsSent(b) == DocsSent(b') + tail;
      AppendTwo(DocsSent(a), DocsSent(b'), tail);
    }
  }

  lemma {:induction false} SleepsAppend(a: seq<Action>, b: seq<Action>)
    ensures Sleeps(a + b) == Sleeps(a) + Sleeps(b)
    decreases |b|
  {
    if b == [] {
      assert a + b == a;
    } else {
      var b' := b[..|b| - 1];
      assert (a + b)[..|a + b| - 1] == a + b';
      SleepsAppend(a, b');
    }
  }

  lemma {:induction false} InsertsAppend(a: seq<Action>, b: seq<Action>)
    ensures Inserts(a + b) == Inserts(a) + Inserts(b)
    decreases |b|
  {
    if b == [] {
      assert a + b == a;
    } else {
      var b' := b[..|b| - 1];
      assert (a + b)[..|a + b| - 1] == a + b';
      InsertsAppend(a, b');
    }
  }

  // ---------- store ----------

  /** The items a payload contributes to the buffer in batch mode: a list
      is extended item by item, any other payload is appended whole. */
  function Items(data: Value): seq<Value>
  {
    if data.VList? then data.items else [data]
  }

  /** `store`: an empty list inserts nothing, a non-empty list is sent with
      one `insert_many`, and any other payload with one `insert_one`. */
  function StoreCalls(data: Value): (calls: seq<Action>)
    ensures calls == [] <==> data == VList([])
    ensures data.VList? && data.items != [] ==> calls == [InsertMany(data.items)]
    ensures !data.VList? ==> calls == [InsertOne(data)]
  {
    if data.VList? then
      if data.items == [] then [] else [InsertMany(data.items)]
    else [InsertOne(data)]
  }

  /** Whatever its shape, `store` sends exactly the payload's items, and
      never waits. */
  lemma StoreSendsItems(data: Value)
    ensures DocsSent(StoreCalls(data)) == Items(data)
    ensures Sleeps(StoreCalls(data)) == 0
    ensures Inserts(StoreCalls(data)) == StoreCalls(data)
  {
    var calls := StoreCalls(data);
    if calls != [] {
      assert calls[..|calls| - 1] == [];
    }
  }

  // ---------- the repeat loop of main ----------

  /** The actions emitted by part of the loop and the buffer it leaves. */
  datatype Progress = Progress(actions: seq<Action>, buffer: seq<Value>)

  /** The insert part of one iteration with a fetched payload. In batch
      mode the buffer is flushed and emptied once it reaches the batch size,
      even if the flush fails; otherwise the payload goes through `store`. */
  function Stored(o: Options, data: Value, buffer: seq<Value>): Progress
  {
    if !o.insert then Progress([], buffer)
    else if o.batch then
      var collected := buffer + Items(data);
      if o.batchSize > 0 && |collected| >= o.batchSize then Progress([InsertMany(collected)], [])
      else Progress([], collected)
    else Progress(StoreCalls(data), buffer)
  }

  /** Iteration `i` of `repeat`. A failed fetch goes straight to the next
      iteration, skipping the wait; otherwise the payload is stored and,
      unless this is the last iteration, the script waits `interval`
      seconds when that is positive. */
  function Iteration(o: Options, repeat: nat, i: nat, response: Option<Value>, buffer: seq<Value>): Progress
  {
    match response
    case None => Progress([], buffer)
    case Some(data) =>
      var stored := Stored(o, data, buffer);
      Progress(stored.actions + (if i < repeat - 1 && o.interval > 0.0 then [Sleep(o.interval)] else []),
               stored.buffer)
  }

  /** The first `k` iterations of the loop, from an empty buffer. */
  function After(o: Options, responses: seq<Option<Value>>, k: nat): Progress
    requires k <= |responses|
  {
    if k == 0 then Progress([], [])
    else
      var p := After(o, responses, k - 1);
      var step := Iteration(o, |responses|, k - 1, responses[k - 1], p.buffer);
      Progress(p.actions + step.actions, step.buffer)
  }

  /** After the loop, a non-empty buffer is sent once more, in insert and
      batch mode only. */
  function FinalFlush(o: Options, buffer: seq<Value>): seq<Action>
  {
    if o.insert && o.batch && buffer != [] then [InsertMany(buffer)] else []
  }

  /** Every action of a run of the script with these responses. */
  function Run(o: Options, responses: seq<Option<Value>>): seq<Action>
  {
    var p := After(o, responses, |responses|);
    p.actions + FinalFlush(o, p.buffer)
  }

  /** The items of every payload that was fetched, in order. */
  function Fetched(responses: seq<Option<Value>>): seq<Value>
  {
    if responses == [] then []
    else
      var last := responses[|responses| - 1];
      Fetched(responses[..|responses| - 1]) + if last.Some? then Items(last.value) else []
  }

  /** The number of fetches that succeeded. */
  function Successes(responses: seq<Option<Value>>): nat
  {
    if responses == [] then 0
    else Successes(responses[..|responses| - 1]) + if responses[|responses| - 1].Some? then 1 else 0
  }

  // ---------- properties of the loop ----------

  lemma OneAction(a: Action)
    ensures DocsSent([a]) == match a
      case InsertMany(docs) => docs
      case InsertOne(doc) => [doc]
      case Sleep(_) => []
    ensures Sleeps([a]) == if a.Sleep? then 1 else 0
    ensures Inserts([a]) == if a.Sleep? then [] else [a]
  {
    assert [a][..0] == [];
  }

  /** What the insert part of an iteration sends and keeps: in batch mode,
      sent and kept together are the old buffer followed by the payload's
      items; through `store`, the payload's items are sent and the buffer is
      left alone; without `--insert`, nothing happens. */
  lemma StoredSends(o: Options, data: Value, buffer: seq<Value>)
    ensures var st := Stored(o, data, buffer);
      && (o.insert && o.batch ==> DocsSent(st.actions) + st.buffer == buffer + Items(data))
      && (o.insert && !o.batch ==> DocsSent(st.actions) == Items(data) && st.buffer == buffer)
      && (!o.insert ==> st == Progress([], buffer))
  {
    var st := Stored(o, data, buffer);
    if o.insert && !o.batch {
      StoreSendsItems(data);
    } else if st.actions != [] {
      OneAction(st.actions[0]);
    }
  }

  /** The calls the insert part of an iteration makes: never a wait; in
      batch mode only `insert_many` calls of at least `batch_size` items,
      leaving fewer than that in the buffer, and none at all without a
      positive batch size. */
  lemma StoredCalls(o: Options, data: Value, buffer: seq<Value>)
    ensures var st := Stored(o, data, buffer);
      && Sleeps(st.actions) == 0
      && Inserts(st.actions) == st.actions
      && (!(o.insert && o.batch) ==> st.buffer == buffer)
      && (o.insert && o.batch ==> forall a :: a in st.actions ==> a.InsertMany?)
      && (o.insert && o.batch && o.batchSize > 0 ==>
            |st.buffer| < o.batchSize && forall a :: a in st.actions ==> |a.docs| >= o.batchSize)
      && (o.insert && o.batch && o.batchSize <= 0 ==> st.actions == [])
  {
    var st := Stored(o, data, buffer);
    if o.insert && !o.batch {
      StoreSendsItems(data);
    } else if st.actions != [] {
      OneAction(st.actions[0]);
    }
  }

  /** One iteration with a fetched payload is its insert part followed by
      at most one wait. */
  lemma IterationSplits(o: Options, repeat: nat, i: nat, r: Option<Value>, buffer: seq<Value>)
    requires r.Some?
    ensures var step := Iteration(o, repeat, i, r, buffer);
      var st := Stored(o, r.value, buffer);
      && Sleeps(step.actions) == Sleeps(st.actions) + (if i < repeat - 1 && o.interval > 0.0 then 1 else 0)
      && Inserts(step.actions) == Inserts(st.actions)
      && DocsSent(step.actions) == DocsSent(st.actions)
      && (forall a :: a in step.actions && !a.Sleep? ==> a in st.actions)
      && step.buffer == st.buffer
  {
    var st := Stored(o, r.value, buffer);
    var wait := if i < repeat - 1 && o.interval > 0.0 then [Sleep(o.interval)] else [];
    SleepsAppend(st.actions, wait);
    InsertsAppend(st.actions, wait);
    DocsSentAppend(st.actions, wait);
    OneAction(Sleep(o.interval));
  }

  /** The responses seen after `k` iterations are those after `k - 1` and one more. */
  lemma PrefixStep(responses: seq<Option<Value>>, k: nat)
    requires 0 < k <= |responses|
    ensures Fetched(responses[..k]) == Fetched(responses[..k - 1]) +
      (if responses[k - 1].Some? then Items(responses[k - 1].value) else [])
    ensures Successes(responses[..k]) == Successes(responses[..k - 1]) + (if responses[k - 1].Some? then 1 else 0)
  {
    assert responses[..k][..k - 1] == responses[..k - 1];
  }

  /** The buffer is only used in insert and batch mode, and with a positive
      batch size it holds fewer than `batch_size` items after every
      iteration. */
  lemma {:induction false} BufferBounded(o: Options, responses: seq<Option<Value>>, k: nat)
    requires k <= |responses|
    ensures !(o.insert && o.batch) ==> After(o, responses, k).buffer == []
    ensures o.batchSize > 0 ==> |After(o, responses, k).buffer| < o.batchSize
  {
    if k > 0 {
      BufferBounded(o, responses, k - 1);
      if responses[k - 1].Some? {
        StoredCalls(o, responses[k - 1].value, After(o, responses, k - 1).buffer);
      }
    }
  }

  /** One iteration in insert mode: what it sends plus what it leaves
      buffered is the old buffer followed by the items fetched, if any
      (outside batch mode the buffer is empty throughout). Without
      `--insert` it sends nothing. */
  lemma IterationSends(o: Options, repeat: nat, i: nat, r: Option<Value>, buffer: seq<Value>)
    requires !(o.insert && o.batch) ==> buffer == []
    ensures var step := Iteration(o, repeat, i, r, buffer);
      && (o.insert ==> DocsSent(step.actions) + step.buffer == buffer + (if r.Some? then Items(r.value) else []))
      && (!o.insert ==> DocsSent(step.actions) == [] && step.buffer == buffer)
  {
    if r.Some? {
      IterationSplits(o, repeat, i, r, buffer);
      StoredSends(o, r.value, buffer);
    } else {
      assert Iteration(o, repeat, i, r, buffer) == Progress([], buffer);
    }
  }

  /** What has been sent plus what is still buffered is what has been
      fetched (in insert mode), and nothing is sent otherwise. */
  lemma {:induction false} SentAndBuffered(o: Options, responses: seq<Option<Value>>, k: nat)
    requires k <= |responses|
    ensures o.insert ==>
      DocsSent(After(o, responses, k).actions) + After(o, responses, k).buffer == Fetched(responses[..k])
    ensures !o.insert ==> DocsSent(After(o, responses, k).actions) == []
  {
    if k == 0 {
      assert responses[..k] == [];
    } else {
      SentAndBuffered(o, responses, k - 1);
      BufferBounded(o, responses, k - 1);
      var p := After(o, responses, k - 1);
      var r := responses[k - 1];
      var step := Iteration(o, |responses|, k - 1, r, p.buffer);
      assert After(o, responses, k) == Progress(p.actions + step.actions, step.buffer);
      DocsSentAppend(p.actions, step.actions);
      PrefixStep(responses, k);
      IterationSends(o, |responses|, k - 1, r, p.buffer);
      if o.insert {
        BatchedStep(DocsSent(p.actions), p.buffer, DocsSent(step.actions), step.buffer,
                    if r.Some? then Items(r.value) else [], Fetched(responses[..k - 1]));
      }
    }
  }

  /** Sent-plus-buffered grows by the new items when the buffer does. */
  lemma BatchedStep<T>(sent: seq<T>, buffer: seq<T>, flushed: seq<T>, kept: seq<T>, items: seq<T>, fetched: seq<T>)
    requires sent + buffer == fetched
    requires flushed + kept == buffer + items
    ensures (sent + flushed) + kept == fetched + items
  {
    AppendTwo(sent, flushed, kept);
    AppendTwo(sent, buffer, items);
  }

  /** Conservation: in insert mode the collection is sent every fetched
      item exactly once and in fetch order, whether in batch mode or not;
      without `--insert` it is sent nothing. */
  lemma SentIsFetched(o: Options, responses: seq<Option<Value>>)
    ensures o.insert ==> DocsSent(Run(o, responses)) == Fetched(responses)
    ensures !o.insert ==> DocsSent(Run(o, responses)) == []
  {
    var p := After(o, responses, |responses|);
    SentAndBuffered(o, responses, |responses|);
    BufferBounded(o, responses, |responses|);
    DocsSentAppend(p.actions, FinalFlush(o, p.buffer));
    assert responses[..|responses|] == responses;
    OneAction(InsertMany(p.buffer));
  }

  /** In batch mode every collection call is an `insert_many`. */
  lemma {:induction false} LoopCallsAreBatches(o: Options, responses: seq<Option<Value>>, k: nat)
    requires k <= |responses|
    requires o.insert && o.batch
    ensures forall a :: a in After(o, responses, k).actions ==> !a.InsertOne?
  {
    if k > 0 {
      LoopCallsAreBatches(o, responses, k - 1);
      var p := After(o, responses, k - 1);
      var step := Iteration(o, |responses|, k - 1, responses[k - 1], p.buffer);
      assert After(o, responses, k) == Progress(p.actions + step.actions, step.buffer);
      IterationCallsAreBatches(o, |responses|, k - 1, responses[k - 1], p.buffer);
    }
  }

  /** With a positive batch size, each `insert_many` made inside the loop
      carries at least `batch_size` items. */
  lemma {:induction false} LoopFlushesAreFull(o: Options, responses: seq<Option<Value>>, k: nat)
    requires k <= |responses|
    requires o.insert && o.batch && o.batchSize > 0
    ensures forall a :: a in After(o, responses, k).actions && a.InsertMany? ==> |a.docs| >= o.batchSize
  {
    if k > 0 {
      LoopFlushesAreFull(o, responses, k - 1);
      var p := After(o, responses, k - 1);
      var step := Iteration(o, |responses|, k - 1, responses[k - 1], p.buffer);
      assert After(o, responses, k) == Progress(p.actions + step.actions, step.buffer);
      IterationFlushesAreFull(o, |responses|, k - 1, responses[k - 1], p.buffer);
    }
  }

  /** Without a positive batch size, the loop makes no collection call. */
  lemma {:induction false} LoopMakesNoCall(o: Options, responses: seq<Option<Value>>, k: nat)
    requires k <= |responses|
    requires o.insert && o.batch && o.batchSize <= 0
    ensures Inserts(After(o, responses, k).actions) == []
  {
    if k > 0 {
      LoopMakesNoCall(o, responses, k - 1);
      var p := After(o, responses, k - 1);
      var step := Iteration(o, |responses|, k - 1, responses[k - 1], p.buffer);
      assert After(o, responses, k) == Progress(p.actions + step.actions, step.buffer);
      InsertsAppend(p.actions, step.actions);
      IterationMakesNoCall(o, |responses|, k - 1, responses[k - 1], p.buffer);
    }
  }

  lemma IterationCallsAreBatches(o: Options, repeat: nat, i: nat, r: Option<Value>, buffer: seq<Value>)
    requires o.insert && o.batch
    ensures forall a :: a in Iteration(o, repeat, i, r, buffer).actions ==> !a.InsertOne?
  {
    if r.Some? {
      IterationSplits(o, repeat, i, r, buffer);
      StoredCalls(o, r.value, buffer);
    } else {
      assert Iteration(o, repeat, i, r, buffer) == Progress([], buffer);
    }
  }

  lemma IterationFlushesAreFull(o: Options, repeat: nat, i: nat, r: Option<Value>, buffer: seq<Value>)
    requires o.insert && o.batch && o.batchSize > 0
    ensures forall a :: a in Iteration(o, repeat, i, r, buffer).actions && a.InsertMany? ==> |a.docs| >= o.batchSize
  {
    if r.Some? {
      IterationSplits(o, repeat, i, r, buffer);
      StoredCalls(o, r.value, buffer);
    } else {
      assert Iteration(o, repeat, i, r, buffer) == Progress([], buffer);
    }
  }

  lemma IterationMakesNoCall(o: Options, repeat: nat, i: nat, r: Option<Value>, buffer: seq<Value>)
    requires o.insert && o.batch && o.batchSize <= 0
    ensures Inserts(Iteration(o, repeat, i, r, buffer).actions) == []
  {
    if r.Some? {
      IterationSplits(o, repeat, i, r, buffer);
      StoredCalls(o, r.value, buffer);
    } else {
      assert Iteration(o, repeat, i, r, buffer) == Progress([], buffer);
    }
  }

  /** With a positive batch size, every flush inside the loop has at least
      `batch_size` items and the final flush, if any, fewer. */
  lemma FlushSizes(o: Options, responses: seq<Option<Value>>)
    requires o.insert && o.batch && o.batchSize > 0
    ensures forall a :: a in Run(o, responses) ==> !a.InsertOne?
    ensures var p := After(o, responses, |responses|);
      && (forall a :: a in p.actions && a.InsertMany? ==> |a.docs| >= o.batchSize)
      && (forall a :: a in FinalFlush(o, p.buffer) ==> a.InsertMany? && 0 < |a.docs| < o.batchSize)
  {
    LoopCallsAreBatches(o, responses, |responses|);
    LoopFlushesAreFull(o, responses, |responses|);
    BufferBounded(o, responses, |responses|);
  }

  /** Actions without a collection call send no document. */
  lemma {:induction false} NoCallsSendNothing(actions: seq<Action>)
    requires Inserts(actions) == []
    ensures DocsSent(actions) == []
  {
    if actions != [] {
      var init := actions[..|actions| - 1];
      var last := actions[|actions| - 1];
      assert init + [last] == actions;
      InsertsAppend(init, [last]);
      OneAction(last);
      NoCallsSendNothing(init);
    }
  }

  /** With no positive batch size, batch mode sends nothing inside the loop
      and everything fetched with one final `insert_many`, if anything was
      fetched at all. */
  lemma SingleFinalInsert(o: Options, responses: seq<Option<Value>>)
    requires o.insert && o.batch && o.batchSize <= 0
    ensures Inserts(Run(o, responses)) ==
      if Fetched(responses) == [] then [] else [InsertMany(Fetched(responses))]
  {
    var p := After(o, responses, |responses|);
    LoopMakesNoCall(o, responses, |responses|);
    SentAndBuffered(o, responses, |responses|);
    NoCallsSendNothing(p.actions);
    InsertsAppend(p.actions, FinalFlush(o, p.buffer));
    assert responses[..|responses|] == responses;
    OneAction(InsertMany(p.buffer));
  }

  /** The script waits once after every successful fetch but the one of
      the last iteration, and never when the interval is not positive. */
  lemma {:induction false} SleepsAfter(o: Options, responses: seq<Option<Value>>, k: nat)
    requires k <= |responses|
    ensures o.interval <= 0.0 ==> Sleeps(After(o, responses, k).actions) == 0
    ensures o.interval > 0.0 && k < |responses| ==> Sleeps(After(o, responses, k).actions) == Successes(responses[..k])
    ensures o.interval > 0.0 && 0 < k == |responses| ==>
      Sleeps(After(o, responses, k).actions) == Successes(responses[..k - 1])
  {
    if k > 0 {
      SleepsAfter(o, responses, k - 1);
      var p := After(o, responses, k - 1);
      var r := responses[k - 1];
      var step := Iteration(o, |responses|, k - 1, r, p.buffer);
      SleepsAppend(p.actions, step.actions);
      PrefixStep(responses, k);
      if r.Some? {
        IterationSplits(o, |responses|, k - 1, r, p.buffer);
        StoredCalls(o, r.value, p.buffer);
      }
    }
  }

  /** The number of waits of a whole run: one per successful fetch outside
      the last iteration when the interval is positive, none otherwise. */
  lemma RunSleeps(o: Options, responses: seq<Option<Value>>)
    ensures o.interval <= 0.0 ==> Sleeps(Run(o, responses)) == 0
    ensures o.interval > 0.0 && responses != [] ==>
      Sleeps(Run(o, responses)) == Successes(responses[..|responses| - 1])
  {
    var p := After(o, responses, |responses|);
    SleepsAfter(o, responses, |responses|);
    SleepsAppend(p.actions, FinalFlush(o, p.buffer));
    OneAction(InsertMany(p.buffer));
  }

  /** Every fetch that succeeds adds one to the count. */
  lemma {:induction false} AllSucceeded(responses: seq<Option<Value>>)
    requires forall i :: 0 <= i < |responses| ==> responses[i].Some?
    ensures Successes(responses) == |responses|
  {
    if responses != [] {
      AllSucceeded(responses[..|responses| - 1]);
    }
  }

  /** When every fetch succeeds and the interval is positive, there are
      `repeat - 1` waits: between iterations, not after the last one. */
  lemma WaitsBetweenIterations(o: Options, responses: seq<Option<Value>>)
    requires o.interval > 0.0 && responses != []
    requires forall i :: 0 <= i < |responses| ==> responses[i].Some?
    ensures Sleeps(Run(o, responses)) == |responses| - 1
  {
    RunSleeps(o, responses);
    AllSucceeded(responses[..|responses| - 1]);
  }

  /** A failed fetch also skips the wait: two iterations with a positive
      interval whose first fetch fails make no wait at all. */
  lemma FailedFetchSkipsWait(data: Value)
    ensures Sleeps(Run(Options(false, false, 0, 1.0), [None, Some(data)])) == 0
  {
    RunSleeps(Options(false, false, 0, 1.0), [None, Some(data)]);
    assert [None, Some(data)][..1] == [None];
    var none: seq<Option<Value>> := [None];
    assert none[..0] == [];
  }

  /** A single payload can push a flush past the batch size: a three-item
      list with a batch size of 2 is flushed as one call of three. */
  lemma FlushCanExceedBatchSize(x: Value, y: Value, z: Value)
    ensures Run(Options(true, true, 2, 0.0), [Some(VList([x, y, z]))]) == [InsertMany([x, y, z])]
  {
    var o := Options(true, true, 2, 0.0);
    var rs := [Some(VList([x, y, z]))];
    assert After(o, rs, 0) == Progress([], []);
    var none: seq<Value> := [];
    assert Items(VList([x, y, z])) == [x, y, z];
    assert none + [x, y, z] == [x, y, z];
    assert Stored(o, VList([x, y, z]), none) == Progress([InsertMany([x, y, z])], []);
    assert After(o, rs, 1) == Progress([InsertMany([x, y, z])], []);
  }

  // ---------- the script ----------

  /** The collection and the clock as the script sees them: every call and
      every wait, in order. */
  class Session {
    var actions: seq<Action>

    constructor ()
      ensures actions == []
    {
      actions := [];
    }

    method InsertMany(docs: seq<Value>)
      modifies this
      ensures actions == old(actions) + [Action.InsertMany(docs)]
    {
      actions := actions + [Action.InsertMany(docs)];
    }

    method InsertOne(doc: Value)
      modifies this
      ensures actions == old(actions) + [Action.InsertOne(doc)]
    {
      actions := actions + [Action.InsertOne(doc)];
    }

    method Sleep(seconds: real)
      modifies this
      ensures actions == old(actions) + [Action.Sleep(seconds)]
    {
      actions := actions + [Action.Sleep(seconds)];
    }
  }

  /** `store` on a collection. */
  method Store(coll: Session, data: Value)
    modifies coll
    ensures coll.actions == old(coll.actions) + StoreCalls(data)
  {
    if data.VList? {
      if data.items == [] {
        return;
      }
      coll.InsertMany(data.items);
    } else {
      coll.InsertOne(data);
    }
  }

  /** One iteration of the repeat loop. */
  method RunIteration(session: Session, o: Options, repeat: nat, i: nat, response: Option<Value>,
                      batchItems: seq<Value>)
    returns (batchItems': seq<Value>)
    modifies session
    ensures var step := Iteration(o, repeat, i, response, batchItems);
      session.actions == old(session.actions) + step.actions && batchItems' == step.buffer
  {
    batchItems' := batchItems;
    if response.None? {
      return;
    }
    var data := response.value;
    if o.insert {
      if o.batch {
        if data.VList? {
          batchItems' := batchItems' + data.items;
        } else {
          batchItems' := batchItems' + [data];
        }
        if o.batchSize > 0 && |batchItems'| >= o.batchSize {
          session.InsertMany(batchItems');
          batchItems' := [];
        }
      } else {
        Store(session, data);
      }
    }
    if i < repeat - 1 && o.interval > 0.0 {
      session.Sleep(o.interval);
    }
    AppendTwo(old(session.actions), Stored(o, data, batchItems).actions,
              if i < repeat - 1 && o.interval > 0.0 then [Action.Sleep(o.interval)] else []);
  }

  /** The `for i in range(repeat)` loop of `main` on the responses of
      `repeat` requests, followed by the final flush. With `--insert` the collection
      exists, and without it nothing is sent. */
  method FetchAndStore(session: Session, o: Options, responses: seq<Option<Value>>)
    modifies session
    ensures session.actions == old(session.actions) + Run(o, responses)
  {
    var batchItems: seq<Value> := [];
    var repeat := |responses|;
    for i := 0 to repeat
      invariant session.actions == old(session.actions) + After(o, responses, i).actions
      invariant batchItems == After(o, responses, i).buffer
    {
      batchItems := RunIteration(session, o, repeat, i, responses[i], batchItems);
      AppendTwo(old(session.actions), After(o, responses, i).actions,
                Iteration(o, repeat, i, responses[i], After(o, responses, i).buffer).actions);
    }
    if o.insert && o.batch && batchItems != [] {
      session.InsertMany(batchItems);
    }
  }
}
