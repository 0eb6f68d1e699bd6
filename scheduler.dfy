/** The scheduled producer that loads the seed list of create requests,
    cuts it into batches and publishes every request of every batch to the
    transaction topic. The batches run one after another here. */
module ProducerScheduler {
  import opened Wrappers
  import opened CreateRequest

  /** What reading the seed file gave: a parse failure, or the parsed JSON
      value, which may be the `null` literal. */
  datatype SeedLoad<T> = ParseFailed | Parsed(list: Option<seq<T>>)

  /** How one batch ended: every request published, or the publish at
      `position` threw and the rest of the batch was skipped. */
  datatype BatchResult = Completed | Failed(position: nat)

  /** `getTransactionRequestSeed`: a parse failure is logged and read as the
      empty list; otherwise the parsed value is returned as is. */
  function GetTransactionRequestSeed<T>(load: SeedLoad<T>): (r: Option<seq<T>>)
    ensures load.ParseFailed? ==> r == Some([])
    ensures load.Parsed? ==> r == load.list
  {
    match load
    case ParseFailed => Some([])
    case Parsed(list) => list
  }

  /** The list the batches are cut from; a null seed counts as empty. */
  function SeedList<T>(load: SeedLoad<T>): (r: seq<T>)
    ensures load.ParseFailed? || load.list.None? ==> r == []
  {
    GetTransactionRequestSeed(load).GetOr([])
  }

  function Min(a: int, b: int): int {
    if a <= b then a else b
  }

  /** `s` cut into consecutive pieces of `size` elements, the last one
      possibly shorter. */
  function Batches<T>(s: seq<T>, size: nat): seq<seq<T>>
    requires size > 0
    decreases |s|
  {
    if s == [] then []
    else
      var end := Min(size, |s|);
      [s[..end]] + Batches(s[end..], size)
  }

  /** The pieces joined back together in order. */
  function Flatten<T>(pieces: seq<seq<T>>): seq<T> {
    if pieces == [] then [] else pieces[0] + Flatten(pieces[1..])
  }

  /** Joining the batches in order gives back the list: nothing is
      dropped, duplicated or reordered. */
  lemma {:induction false} FlattenBatches<T>(s: seq<T>, size: nat)
    requires size > 0
    ensures Flatten(Batches(s, size)) == s
    decreases |s|
  {
    if s != [] {
      var end := Min(size, |s|);
      FlattenBatches(s[end..], size);
      assert Batches(s, size)[1..] == Batches(s[end..], size);
      assert s[..end] + s[end..] == s;
    }
  }

  /** Adding the divisor adds one to the quotient. */
  lemma DivStep(x: int, d: int)
    requires x >= 0 && d > 0
    ensures (x + d) / d == x / d + 1
  {
    var q1, r1 := x / d, x % d;
    var q2, r2 := (x + d) / d, (x + d) % d;
    var e := q2 - q1 - 1;
    assert d * e == r1 - r2 by {
      assert d * e == d * q2 - d * q1 - d;
    }
  }

  /** A number between the divisor and twice the divisor has quotient one. */
  lemma DivOfOneDivisor(x: int, d: int)
    requires d > 0 && d <= x < 2 * d
    ensures x / d == 1
  {
    DivStep(x - d, d);
    assert (x - d) / d == 0;
  }

  /** There are ceil(n / size) batches. */
  lemma {:induction false} BatchCount<T>(s: seq<T>, size: nat)
    requires size > 0
    ensures |Batches(s, size)| == (|s| + size - 1) / size
    decreases |s|
  {
    if s != [] {
      var end := Min(size, |s|);
      BatchCount(s[end..], size);
      if |s| <= size {
        DivOfOneDivisor(|s| + size - 1, size);
      } else {
        DivStep(|s[end..]| + size - 1, size);
      }
    }
  }

  /** Every batch is non-empty and at most `size` long, and every batch but
      the last is exactly `size` long. */
  lemma {:induction false} BatchSizes<T>(s: seq<T>, size: nat)
    requires size > 0
    ensures forall i :: 0 <= i < |Batches(s, size)| ==> 0 < |Batches(s, size)[i]| <= size
    ensures forall i :: 0 <= i < |Batches(s, size)| - 1 ==> |Batches(s, size)[i]| == size
    decreases |s|
  {
    if s != [] {
      var end := Min(size, |s|);
      var bs := Batches(s, size);
      BatchSizes(s[end..], size);
      assert bs[1..] == Batches(s[end..], size);
      forall i | 0 <= i < |bs| - 1
        ensures |bs[i]| == size
      {
        if i == 0 {
          assert |s[end..]| > 0;
        } else {
          assert bs[i] == bs[1..][i - 1];
        }
      }
      forall i | 0 <= i < |bs|
        ensures 0 < |bs[i]| <= size
      {
        if i > 0 {
          assert bs[i] == bs[1..][i - 1];
        }
      }
    }
  }

  /** The batches from position `i` on: the piece at `i`, then the batches
      from where it ends. */
  lemma BatchesStep<T>(s: seq<T>, i: nat, size: nat)
    requires size > 0 && i < |s|
    ensures Batches(s[i..], size) == [s[i..Min(i + size, |s|)]] + Batches(s[Min(i + size, |s|)..], size)
  {
    var end := Min(size, |s| - i);
    assert s[i..][..end] == s[i..Min(i + size, |s|)];
    assert s[i..][end..] == s[Min(i + size, |s|)..];
  }

  /** Three requests in batches of two give a batch of two and a batch of
      one. */
  lemma ThreeInPairs<T>(s: seq<T>)
    requires |s| == 3
    ensures |Batches(s, 2)| == 2 && |Batches(s, 2)[0]| == 2 && |Batches(s, 2)[1]| == 1
  {
    BatchCount(s, 2);
    BatchSizes(s, 2);
    assert Batches(s, 2)[1] == Batches(s[2..], 2)[0];
  }

  /** `splitTransactionsIntoBatches`: a null or empty seed gives no batches;
      otherwise the loop steps `i` by `batchSize` and copies
      `subList(i, min(i + batchSize, size))` each time. */
  method SplitTransactionsIntoBatches(seed: SeedLoad<CreateTransactionRequest>, batchSize: int)
    returns (r: seq<seq<CreateTransactionRequest>>)
    requires batchSize > 0
    ensures r == Batches(SeedList(seed), batchSize)
    ensures Flatten(r) == SeedList(seed)
    ensures |r| == (|SeedList(seed)| + batchSize - 1) / batchSize
  {
    FlattenBatches(SeedList(seed), batchSize);
    BatchCount(SeedList(seed), batchSize);
    var transactionList := GetTransactionRequestSeed(seed);
    if transactionList.None? || |transactionList.value| == 0 {
      return [];
    }
    var list := transactionList.value;
    r := [];
    var i := 0;
    while i < |list|
      invariant 0 <= i
      invariant r + Batches(list[Min(i, |list|)..], batchSize) == Batches(list, batchSize)
      decreases |list| - i
    {
      var end := Min(i + batchSize, |list|);
      BatchesStep(list, i, batchSize);
      r := r + [list[i..end]];
      i := i + batchSize;
    }
  }

  /** How many leading requests of `batch` publish before the first one the
      producer rejects. */
  function AcceptedRun<T>(batch: seq<T>, accepts: T -> bool): (n: nat)
    ensures n <= |batch|
    ensures forall k :: 0 <= k < n ==> accepts(batch[k])
    ensures n < |batch| ==> !accepts(batch[n])
  {
    if batch == [] || !accepts(batch[0]) then 0
    else 1 + AcceptedRun(batch[1..], accepts)
  }

  /** Any position that ends a run of accepted requests at a rejected one,
      or at the end, is the accepted run's length. */
  lemma AcceptedRunUnique<T>(batch: seq<T>, accepts: T -> bool, j: nat)
    requires j <= |batch|
    requires forall k :: 0 <= k < j ==> accepts(batch[k])
    requires j < |batch| ==> !accepts(batch[j])
    ensures AcceptedRun(batch, accepts) == j
  {
  }

  /** The requests of `batch` that reach the topic. */
  function PublishedPrefix<T>(batch: seq<T>, accepts: T -> bool): seq<T> {
    batch[..AcceptedRun(batch, accepts)]
  }

  /** The result `processTransactionRequestBatch` reports for `batch`. */
  function BatchOutcome<T>(batch: seq<T>, accepts: T -> bool): (r: BatchResult)
    ensures r == Completed <==> forall k :: 0 <= k < |batch| ==> accepts(batch[k])
    ensures r.Failed? ==> (r.position < |batch| && !accepts(batch[r.position])
      && forall k :: 0 <= k < r.position ==> accepts(batch[k]))
  {
    var n := AcceptedRun(batch, accepts);
    if n == |batch| then Completed else Failed(n)
  }

  /** The requests a whole cycle publishes: each batch's published prefix,
      the batches taken one after another as this model runs them. */
  function CyclePublished<T>(batches: seq<seq<T>>, accepts: T -> bool): seq<T> {
    if batches == [] then []
    else PublishedPrefix(batches[0], accepts) + CyclePublished(batches[1..], accepts)
  }

  /** The cycle's publishes from batch `k` on: batch `k`'s, then the
      rest. */
  lemma CyclePublishedStep<T>(batches: seq<seq<T>>, k: nat, accepts: T -> bool)
    requires k < |batches|
    ensures CyclePublished(batches[k..], accepts)
      == PublishedPrefix(batches[k], accepts) + CyclePublished(batches[k + 1..], accepts)
  {
    assert batches[k..][1..] == batches[k + 1..];
  }

  /** A failing batch takes nothing from the batches after it: the cycle's
      publishes split at any batch boundary. */
  lemma {:induction false} CyclePublishedSplits<T>(a: seq<seq<T>>, b: seq<seq<T>>, accepts: T -> bool)
    ensures CyclePublished(a + b, accepts) == CyclePublished(a, accepts) + CyclePublished(b, accepts)
    decreases |a|
  {
    if a != [] {
      assert (a + b)[0] == a[0];
      assert (a + b)[1..] == a[1..] + b;
      CyclePublishedSplits(a[1..], b, accepts);
    } else {
      assert a + b == b;
    }
  }

  /** When the producer accepts every request, the cycle publishes every
      request of every batch (in the model's sequential batch order). */
  lemma {:induction false} AllAcceptedPublishesAll<T>(batches: seq<seq<T>>, accepts: T -> bool)
    requires forall x :: x in Flatten(batches) ==> accepts(x)
    ensures CyclePublished(batches, accepts) == Flatten(batches)
    decreases |batches|
  {
    if batches != [] {
      var b := batches[0];
      forall k | 0 <= k < |b|
        ensures accepts(b[k])
      {
        assert b[k] in Flatten(batches);
      }
      AcceptedRunUnique(b, accepts, |b|);
      forall x | x in Flatten(batches[1..])
        ensures accepts(x)
      {
        assert x in Flatten(batches);
      }
      AllAcceptedPublishesAll(batches[1..], accepts);
    }
  }

  /** Two one-request batches with a producer that accepts both give two
      publishes. */
  lemma TwoSingleBatches<T>(x: T, y: T, accepts: T -> bool)
    requires accepts(x) && accepts(y)
    ensures |CyclePublished([[x], [y]], accepts)| == 2
  {
    AcceptedRunUnique([x], accepts, 1);
    AcceptedRunUnique([y], accepts, 1);
    assert [[x], [y]][1..] == [[y]] && [[y]][1..] == [];
    assert CyclePublished([[y]], accepts) == [y];
  }

  /** A seed that fails to load gives no batches and no publishes. */
  lemma SeedFailurePublishesNothing(batchSize: nat, accepts: CreateTransactionRequest -> bool)
    requires batchSize > 0
    ensures Batches(SeedList<CreateTransactionRequest>(ParseFailed), batchSize) == []
    ensures CyclePublished(Batches(SeedList<CreateTransactionRequest>(ParseFailed), batchSize), accepts) == []
  {
  }

  /** `KafkaTransactionEventProducer`: the topic as the sequence of requests
      sent to it; a send of a request the producer does not `accepts`
      throws and sends nothing. */
  class KafkaTransactionEventProducer {
    var sent: seq<CreateTransactionRequest>
    const accepts: CreateTransactionRequest -> bool

    constructor(accepts: CreateTransactionRequest -> bool)
      ensures sent == [] && this.accepts == accepts
    {
      sent := [];
      this.accepts := accepts;
    }

    /** Publishes `request`; `ok` is false when the send threw. */
    method CreateTransaction(request: CreateTransactionRequest) returns (ok: bool)
      modifies this
      ensures ok == accepts(request)
      ensures sent == old(sent) + (if ok then [request] else [])
    {
      ok := accepts(request);
      if ok {
        sent := sent + [request];
      }
    }
  }

  /** `processTransactionRequestBatch`: publishes the batch's requests one
      by one, in order; the first send that throws ends the batch. */
  method ProcessTransactionRequestBatch(batch: seq<CreateTransactionRequest>, producer: KafkaTransactionEventProducer)
    returns (r: BatchResult)
    modifies producer
    ensures producer.sent == old(producer.sent) + PublishedPrefix(batch, producer.accepts)
    ensures r == BatchOutcome(batch, producer.accepts)
  {
    var j := 0;
    while j < |batch|
      invariant 0 <= j <= |batch|
      invariant forall k :: 0 <= k < j ==> producer.accepts(batch[k])
      invariant producer.sent == old(producer.sent) + batch[..j]
    {
      var ok := producer.CreateTransaction(batch[j]);
      if !ok {
        AcceptedRunUnique(batch, producer.accepts, j);
        return Failed(j);
      }
      assert batch[..j + 1] == batch[..j] + [batch[j]];
      j := j + 1;
    }
    AcceptedRunUnique(batch, producer.accepts, j);
    assert batch[..j] == batch;
    r := Completed;
  }

  /** `produceScheduledTransaction`: splits the seed and runs every batch to
      its end; a batch's failure is recorded and the cycle goes on, so the
      cycle itself never fails. With a producer that accepts everything the
      topic receives every request of the seed list exactly once; the
      sequence below fixes the batches' relative order, which the source's
      thread pool does not. */
  method ProduceScheduledTransaction(seed: SeedLoad<CreateTransactionRequest>, batchSize: int,
                                     producer: KafkaTransactionEventProducer)
    returns (results: seq<BatchResult>)
    requires batchSize > 0
    modifies producer
    ensures var batches := Batches(SeedList(seed), batchSize);
      producer.sent == old(producer.sent) + CyclePublished(batches, producer.accepts)
      && |results| == |batches|
      && forall m :: 0 <= m < |batches| ==> results[m] == BatchOutcome(batches[m], producer.accepts)
    ensures (forall x :: x in SeedList(seed) ==> producer.accepts(x)) ==>
      producer.sent == old(producer.sent) + SeedList(seed)
    ensures (forall x :: x in SeedList(seed) ==> producer.accepts(x)) ==>
      multiset(producer.sent) == multiset(old(producer.sent)) + multiset(SeedList(seed))
  {
    var batches := SplitTransactionsIntoBatches(seed, batchSize);
    results := [];
    var k := 0;
    while k < |batches|
      invariant 0 <= k <= |batches|
      invariant producer.sent + CyclePublished(batches[k..], producer.accepts)
        == old(producer.sent) + CyclePublished(batches, producer.accepts)
      invariant |results| == k
      invariant forall m :: 0 <= m < k ==> results[m] == BatchOutcome(batches[m], producer.accepts)
    {
      CyclePublishedStep(batches, k, producer.accepts);
      var result := ProcessTransactionRequestBatch(batches[k], producer);
      results := results + [result];
      k := k + 1;
    }
    if forall x :: x in SeedList(seed) ==> producer.accepts(x) {
      AllAcceptedPublishesAll(batches, producer.accepts);
    }
  }
}
