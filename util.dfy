// Util of quantum_util_impl.h: the wrappers that run a user body inside a
// coroutine or an IO task and turn an escaping exception into the Exception
// return code, the batch partition of forEachBatch, and the index stage of
// mapReduce.
module Utils {
  import opened Wrappers
  import opened FutureStates
  import opened Tasks

  /** How a coroutine body ended: with an int, with an exception, or unwound by the coroutine library. */
  datatype BodyResult = Returned(rc: int) | Threw(ex: ExceptionPtr) | ForcedUnwind

  /** How an IO body ended. */
  datatype IoBodyResult = IoReturned(rc: int) | IoThrew(ex: ExceptionPtr)

  /** What a wrapper returns, what it writes to the yield handle, and which exception it stores in the promise. */
  datatype BindResult = BindResult(ret: int, yielded: Option<int>, stored: Option<ExceptionPtr>)

  /**
   * bindCoro and bindCoro2: a body that returns yields its code (for
   * bindCoro2, the code of setting the value) and returns 0; an exception is
   * stored in the context and yields and returns Exception; the coroutine
   * library's forced unwind is rethrown (`None`).
   */
  function BindCoro(body: BodyResult): Option<BindResult>
  {
    match body
    case Returned(rc) => Some(BindResult(0, Some(rc), None))
    case Threw(ex) => Some(BindResult(EXCEPTION, Some(EXCEPTION), Some(ex)))
    case ForcedUnwind => None
  }

  /** bindIo: the body's code is returned as is; an exception is stored in the promise and Exception returned. */
  function BindIo(body: IoBodyResult): BindResult
  {
    match body
    case IoReturned(rc) => BindResult(rc, None, None)
    case IoThrew(ex) => BindResult(EXCEPTION, None, Some(ex))
  }

  /** bindIo2: the body's value is set into the promise and 0 returned; an exception as in bindIo. */
  function BindIo2(body: IoBodyResult): BindResult
  {
    match body
    case IoReturned(_) => BindResult(0, None, None)
    case IoThrew(ex) => BindResult(EXCEPTION, None, Some(ex))
  }

  /**
   * A throwing body, and only a throwing body, gives the Exception code with
   * its exception stored; otherwise nothing is stored and the coroutine
   * yields the body's code.
   */
  lemma BindSpec(body: BodyResult, io: IoBodyResult)
    ensures BindCoro(body).None? <==> body.ForcedUnwind?
    ensures body.Threw? ==> BindCoro(body) == Some(BindResult(EXCEPTION, Some(EXCEPTION), Some(body.ex)))
    ensures body.Returned? ==> BindCoro(body).value.ret == 0 && BindCoro(body).value.yielded == Some(body.rc) &&
                               BindCoro(body).value.stored.None?
    ensures BindCoro(body).Some? ==> (BindCoro(body).value.ret == EXCEPTION <==> body.Threw?)
    ensures BindIo(io).stored.Some? <==> io.IoThrew?
    ensures io.IoThrew? ==> BindIo(io).ret == EXCEPTION && BindIo(io).stored == Some(io.ex)
    ensures io.IoReturned? ==> BindIo(io).ret == io.rc
    ensures BindIo2(io).ret == EXCEPTION <==> io.IoThrew?
    ensures BindIo2(io).stored == BindIo(io).stored
  {
  }

  /** The size of batch i: num / threads, plus one for each of the first num % threads batches. */
  function BatchSize(num: nat, threads: nat, i: nat): nat
    requires threads >= 1
  {
    if i < num % threads then num / threads + 1 else num / threads
  }

  function Min(a: int, b: int): int
  {
    if a <= b then a else b
  }

  function Flatten<T>(batches: seq<seq<T>>): seq<T>
  {
    if batches == [] then [] else Flatten(batches[..|batches| - 1]) + batches[|batches| - 1]
  }

  function MapSeq<X, R>(f: X -> R, xs: seq<X>): (r: seq<R>)
    ensures |r| == |xs| && forall i :: 0 <= i < |xs| ==> r[i] == f(xs[i])
  {
    seq(|xs|, i requires 0 <= i < |xs| => f(xs[i]))
  }

  /** Where batch i starts: the sizes of the batches before it. */
  function Start(num: nat, threads: nat, i: nat): nat
    requires threads >= 1
  {
    if i == 0 then 0 else Start(num, threads, i - 1) + BatchSize(num, threads, i - 1)
  }

  /** i full batches plus one extra item for each earlier batch below the remainder. */
  lemma {:induction false} StartClosedForm(num: nat, threads: nat, i: nat)
    requires threads >= 1
    ensures Start(num, threads, i) == i * (num / threads) + Min(i, num % threads)
  {
    if i > 0 {
      StartClosedForm(num, threads, i - 1);
      assert (i - 1) * (num / threads) + num / threads == i * (num / threads);
    }
  }

  /** Euclidean division of num items over threads. */
  lemma DivFacts(num: nat, threads: nat)
    requires threads >= 1
    ensures num == threads * (num / threads) + num % threads && 0 <= num % threads < threads
    ensures num / threads == 0 <==> num < threads
    ensures num / threads == 0 ==> num % threads == num
  {
  }

  lemma MulMono(a: nat, b: nat, q: nat)
    requires a <= b
    ensures a * q <= b * q
  {
  }

  /** All batches together cover the input. */
  lemma BatchesCoverAll(num: nat, threads: nat)
    requires threads >= 1
    ensures Start(num, threads, threads) == num
  {
    StartClosedForm(num, threads, threads);
    DivFacts(num, threads);
  }

  /** No batch starts beyond the input. */
  lemma StartBounded(num: nat, threads: nat, i: nat)
    requires threads >= 1 && i <= threads
    ensures Start(num, threads, i) <= num
  {
    StartClosedForm(num, threads, i);
    DivFacts(num, threads);
    MulMono(i, threads, num / threads);
  }

  /**
   * A batch is empty exactly when there are fewer items than threads and it
   * comes after the last item; it then starts at the end of the input.
   */
  lemma EmptyBatch(num: nat, threads: nat, i: nat)
    requires threads >= 1 && i < threads
    ensures BatchSize(num, threads, i) == 0 <==> i >= num
    ensures BatchSize(num, threads, i) == 0 ==> Start(num, threads, i) == num
  {
    DivFacts(num, threads);
    if num / threads == 0 {
      StartClosedForm(num, threads, i);
    }
  }

  /** Batches an iteration of the loop needs: where it starts and whether it is empty. */
  lemma BatchesCover(num: nat, threads: nat, i: nat)
    requires threads >= 1 && i < threads
    ensures Start(num, threads, threads) == num
    ensures Start(num, threads, i + 1) <= num
    ensures BatchSize(num, threads, i) == 0 <==> i >= num
    ensures BatchSize(num, threads, i) == 0 ==> Start(num, threads, i) == num
  {
    BatchesCoverAll(num, threads);
    StartBounded(num, threads, i + 1);
    EmptyBatch(num, threads, i);
  }

  lemma FlattenSnoc<T>(batches: seq<seq<T>>, b: seq<T>)
    ensures Flatten(batches + [b]) == Flatten(batches) + b
  {
    assert (batches + [b])[..|batches|] == batches;
  }

  /**
   * forEachBatchCoro: the input is cut into consecutive batches, one per
   * coroutine thread, stopping at the first empty batch; each batch applies
   * the function to its items in order.
   */
  method ForEachBatch<X, R>(items: seq<X>, threads: nat, f: X -> R) returns (batches: seq<seq<R>>)
    requires threads >= 1
    ensures |batches| == Min(|items|, threads)
    ensures forall j :: 0 <= j < |batches| ==> |batches[j]| == BatchSize(|items|, threads, j) > 0
    ensures Flatten(batches) == MapSeq(f, items)
  {
    var num := |items|;
    var numPerBatch := num / threads;
    var remainder := num % threads;
    batches := [];
    var start: nat := 0;
    var i := 0;
    while i < threads
      invariant i == |batches| <= threads
      invariant BatchesSoFar(items, threads, f, batches, start)
    {
      var batchSize := if i < remainder then numPerBatch + 1 else numPerBatch;
      assert batchSize == BatchSize(num, threads, i);
      if batchSize == 0 {
        BatchesDone(items, threads, f, batches, start);
        return;
      }
      BatchFits(items, threads, f, batches, start);
      var result := RunBatch(items, start, batchSize, f);
      BatchStep(items, threads, f, batches, start, result);
      batches := batches + [result];
      start := start + batchSize;
      i := i + 1;
    }
    BatchesDone(items, threads, f, batches, start);
  }

  /** The invariant of forEachBatchCoro's loop: the batches so far are the leading ones, and they cover the input up to `start`. */
  ghost predicate BatchesSoFar<X, R>(items: seq<X>, threads: nat, f: X -> R, batches: seq<seq<R>>, start: nat)
    requires threads >= 1
  {
    |batches| <= |items| && start == Start(|items|, threads, |batches|) <= |items| &&
    (forall j :: 0 <= j < |batches| ==> |batches[j]| == BatchSize(|items|, threads, j) > 0) &&
    Flatten(batches) == MapSeq(f, items[..start])
  }

  /** The next batch lies within the input. */
  lemma BatchFits<X, R>(items: seq<X>, threads: nat, f: X -> R, batches: seq<seq<R>>, start: nat)
    requires threads >= 1 && |batches| < threads && BatchesSoFar(items, threads, f, batches, start)
    ensures start + BatchSize(|items|, threads, |batches|) <= |items|
  {
    BatchesCover(|items|, threads, |batches|);
  }

  /** The loop of forEachBatchCoro ends after the last thread or at the first empty batch, having covered the input. */
  lemma BatchesDone<X, R>(items: seq<X>, threads: nat, f: X -> R, batches: seq<seq<R>>, start: nat)
    requires threads >= 1 && |batches| <= threads && BatchesSoFar(items, threads, f, batches, start)
    requires |batches| == threads || BatchSize(|items|, threads, |batches|) == 0
    ensures |batches| == Min(|items|, threads)
    ensures forall j :: 0 <= j < |batches| ==> |batches[j]| == BatchSize(|items|, threads, j) > 0
    ensures Flatten(batches) == MapSeq(f, items)
  {
    if |batches| == threads {
      BatchesCoverAll(|items|, threads);
    } else {
      EmptyBatch(|items|, threads, |batches|);
    }
    assert items[..start] == items;
  }

  /** One iteration of forEachBatchCoro's loop keeps its invariant. */
  lemma BatchStep<X, R>(items: seq<X>, threads: nat, f: X -> R, batches: seq<seq<R>>, start: nat, result: seq<R>)
    requires threads >= 1 && |batches| < threads && BatchesSoFar(items, threads, f, batches, start)
    requires BatchSize(|items|, threads, |batches|) > 0
    requires start + BatchSize(|items|, threads, |batches|) <= |items|
    requires result == MapSeq(f, items[start..start + BatchSize(|items|, threads, |batches|)])
    ensures BatchesSoFar(items, threads, f, batches + [result], start + |result|)
  {
    var end := start + |result|;
    BatchesCover(|items|, threads, |batches|);
    FlattenSnoc(batches, result);
    assert items[..end] == items[..start] + items[start..end];
    MapSeqConcat(f, items[..start], items[start..end]);
    SnocSizes(batches, result, |items|, threads);
  }

  lemma MapSeqConcat<X, R>(f: X -> R, a: seq<X>, b: seq<X>)
    ensures MapSeq(f, a + b) == MapSeq(f, a) + MapSeq(f, b)
  {
    assert forall i | 0 <= i < |a + b| :: MapSeq(f, a + b)[i] == (MapSeq(f, a) + MapSeq(f, b))[i];
  }

  lemma SnocSizes<R>(batches: seq<seq<R>>, result: seq<R>, num: nat, threads: nat)
    requires threads >= 1
    requires forall j :: 0 <= j < |batches| ==> |batches[j]| == BatchSize(num, threads, j) > 0
    requires |result| == BatchSize(num, threads, |batches|) > 0
    ensures forall j :: 0 <= j < |batches| + 1 ==> |(batches + [result])[j]| == BatchSize(num, threads, j) > 0
  {
  }

  /** One batch's coroutine: the function applied to its items in order. */
  method RunBatch<X, R>(items: seq<X>, start: nat, batchSize: nat, f: X -> R) returns (result: seq<R>)
    requires start + batchSize <= |items|
    ensures result == MapSeq(f, items[start..start + batchSize])
  {
    result := [];
    var j := 0;
    while j < batchSize
      invariant 0 <= j <= batchSize
      invariant result == MapSeq(f, items[start..start + j])
    {
      result := result + [f(items[start + j])];
      j := j + 1;
    }
  }

  /** The index stage's map built from the mapped pairs in encounter order. */
  function IndexOf<K, V>(pairs: seq<(K, V)>): map<K, seq<V>>
  {
    if pairs == [] then map[]
    else
      var m := IndexOf(pairs[..|pairs| - 1]);
      var p := pairs[|pairs| - 1];
      m[p.0 := (if p.0 in m then m[p.0] else []) + [p.1]]
  }

  /** The values mapped to key k, in encounter order. */
  function ValuesOf<K(==), V>(pairs: seq<(K, V)>, k: K): seq<V>
  {
    if pairs == [] then []
    else ValuesOf(pairs[..|pairs| - 1], k) + (if pairs[|pairs| - 1].0 == k then [pairs[|pairs| - 1].1] else [])
  }

  /** The index holds exactly the keys that were mapped, each with all its values in encounter order. */
  lemma {:induction false} IndexOfSpec<K, V>(pairs: seq<(K, V)>, k: K)
    ensures k in IndexOf(pairs) <==> exists i :: 0 <= i < |pairs| && pairs[i].0 == k
    ensures k in IndexOf(pairs) ==> IndexOf(pairs)[k] == ValuesOf(pairs, k)
    ensures k !in IndexOf(pairs) ==> ValuesOf(pairs, k) == []
  {
    if pairs != [] {
      var init := pairs[..|pairs| - 1];
      IndexOfSpec(init, k);
      if k in IndexOf(init) {
        var i :| 0 <= i < |init| && init[i].0 == k;
        assert pairs[i].0 == k;
      }
      if exists i :: 0 <= i < |pairs| && pairs[i].0 == k {
        var i :| 0 <= i < |pairs| && pairs[i].0 == k;
        if i < |init| {
          assert init[i].0 == k;
        }
      }
    }
  }

  lemma IndexOfSnoc<K, V>(pairs: seq<(K, V)>, p: (K, V))
    ensures IndexOf(pairs + [p]) == IndexOf(pairs)[p.0 := (if p.0 in IndexOf(pairs) then IndexOf(pairs)[p.0] else []) + [p.1]]
  {
    assert (pairs + [p])[..|pairs|] == pairs;
  }

  /**
   * mapReduceCoro's index stage: every mapper output, in order, and every
   * pair within it, in order, appends its value to its key's list.
   */
  method IndexStage<K, V>(outputs: seq<seq<(K, V)>>) returns (index: map<K, seq<V>>)
    ensures index == IndexOf(Flatten(outputs))
  {
    index := map[];
    ghost var done: seq<seq<(K, V)>> := [];
    var i := 0;
    while i < |outputs|
      invariant 0 <= i <= |outputs|
      invariant done == outputs[..i]
      invariant index == IndexOf(Flatten(done))
    {
      index := IndexOutput(index, Flatten(done), outputs[i]);
      FlattenSnoc(done, outputs[i]);
      assert outputs[..i + 1] == outputs[..i] + [outputs[i]];
      done := done + [outputs[i]];
      i := i + 1;
    }
    assert outputs[..|outputs|] == outputs;
  }

  /** The inner loop of the index stage over one mapper's output. */
  method IndexOutput<K, V>(index0: map<K, seq<V>>, ghost prefix: seq<(K, V)>, output: seq<(K, V)>) returns (index: map<K, seq<V>>)
    requires index0 == IndexOf(prefix)
    ensures index == IndexOf(prefix + output)
  {
    index := index0;
    var j := 0;
    assert prefix + output[..0] == prefix;
    while j < |output|
      invariant 0 <= j <= |output|
      invariant index == IndexOf(prefix + output[..j])
    {
      var (k, v) := output[j];
      IndexOfSnoc(prefix + output[..j], output[j]);
      assert prefix + output[..j + 1] == (prefix + output[..j]) + [output[j]];
      index := index[k := (if k in index then index[k] else []) + [v]];
      j := j + 1;
    }
    assert output[..|output|] == output;
  }

  /** The reduce stage's forEach: the reducer applied to every index entry, in the index's iteration order. */
  function Reduced<K, V, R>(index: map<K, seq<V>>, order: seq<K>, reducer: (K, seq<V>) -> (K, R)): (r: seq<(K, R)>)
    requires forall i | 0 <= i < |order| :: order[i] in index
    ensures |r| == |order| && forall i | 0 <= i < |order| :: r[i] == reducer(order[i], index[order[i]])
  {
    seq(|order|, i requires 0 <= i < |order| => reducer(order[i], index[order[i]]))
  }

  /** The output map built with emplace: a key already present keeps its first value. */
  function ReduceOf<K, R>(results: seq<(K, R)>): map<K, R>
  {
    if results == [] then map[]
    else
      var m := ReduceOf(results[..|results| - 1]);
      var p := results[|results| - 1];
      if p.0 in m then m else m[p.0 := p.1]
  }

  predicate DistinctKeys<K(==), R>(results: seq<(K, R)>)
  {
    forall i, j | 0 <= i < j < |results| :: results[i].0 != results[j].0
  }

  /** With distinct keys, every reduced pair lands in the output under its key, and nothing else does. */
  lemma {:induction false} ReduceOfDistinct<K, R>(results: seq<(K, R)>)
    requires DistinctKeys(results)
    ensures ReduceOf(results).Keys == set i | 0 <= i < |results| :: results[i].0
    ensures forall i | 0 <= i < |results| :: ReduceOf(results)[results[i].0] == results[i].1
  {
    if results != [] {
      var init := results[..|results| - 1];
      var p := results[|results| - 1];
      assert DistinctKeys(init);
      ReduceOfDistinct(init);
      assert p.0 !in ReduceOf(init);
      forall i | 0 <= i < |init|
        ensures init[i] == results[i]
      {
      }
      assert (set i | 0 <= i < |results| :: results[i].0) == (set i | 0 <= i < |init| :: init[i].0) + {p.0};
    }
  }

  /** A key emplaced again keeps the value of its first occurrence. */
  lemma ReduceOfFirstWins<K, R>(results: seq<(K, R)>, p: (K, R))
    requires p.0 in ReduceOf(results)
    ensures ReduceOf(results + [p]) == ReduceOf(results)
  {
    assert (results + [p])[..|results|] == results;
  }

  /**
   * mapReduceCoro's reduce stage: the reducer runs once per index entry, and
   * its results are emplaced, in order, into the output map.
   */
  method ReduceStage<K, V, R>(index: map<K, seq<V>>, order: seq<K>, reducer: (K, seq<V>) -> (K, R)) returns (output: map<K, R>)
    requires forall i | 0 <= i < |order| :: order[i] in index
    ensures output == ReduceOf(Reduced(index, order, reducer))
  {
    var results: seq<(K, R)> := [];
    var i := 0;
    while i < |order|
      invariant 0 <= i <= |order|
      invariant results == Reduced(index, order[..i], reducer)
    {
      results := results + [reducer(order[i], index[order[i]])];
      i := i + 1;
    }
    assert order[..|order|] == order;
    output := map[];
    var j := 0;
    while j < |results|
      invariant 0 <= j <= |results|
      invariant output == ReduceOf(results[..j])
    {
      var (k, r) := results[j];
      assert results[..j + 1][..j] == results[..j];
      if k !in output {
        output := output[k := r];
      }
      j := j + 1;
    }
    assert results[..|results|] == results;
  }

  /**
   * The whole reduce stage over an index whose iteration order lists each
   * key once: with a reducer that keeps the key, the output holds exactly
   * the index's keys, each mapped to the reduction of its values.
   */
  lemma ReduceStageSpec<K, V, R>(index: map<K, seq<V>>, order: seq<K>, reducer: (K, seq<V>) -> (K, R))
    requires forall i | 0 <= i < |order| :: order[i] in index
    requires forall k | k in index :: k in order
    requires forall i, j | 0 <= i < j < |order| :: order[i] != order[j]
    requires forall k, vs :: reducer(k, vs).0 == k
    ensures ReduceOf(Reduced(index, order, reducer)).Keys == index.Keys
    ensures forall k | k in index :: ReduceOf(Reduced(index, order, reducer))[k] == reducer(k, index[k]).1
  {
    var rs := Reduced(index, order, reducer);
    assert forall i | 0 <= i < |rs| :: rs[i].0 == order[i];
    ReduceOfDistinct(rs);
    forall k | k in index
      ensures k in ReduceOf(rs) && ReduceOf(rs)[k] == reducer(k, index[k]).1
    {
      var i :| 0 <= i < |order| && order[i] == k;
      assert rs[i].0 == k;
    }
  }
}
