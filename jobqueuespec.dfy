/**
 * What one call of the job queue's `processQueue` computes, as functions of the registry
 * state, the running-job predicate and the queue: prune the out-of-date requests, order the
 * rest by priority, then take at most one runnable request per document.
 */
module JobQueueSpec {
  import opened RegistryStates
  import opened JobRequests

  // ---------------------------------------------------------------------------------------
  // Pruning

  /** The requests of `q` that are still current, in queue order. */
  function Pruned(st: RegistryState, q: seq<JobRequest>): (r: seq<JobRequest>)
    ensures |r| <= |q|
    ensures forall x :: x in r <==> x in q && !IsOutdated(st, x)
    ensures (forall x :: x in q ==> !IsOutdated(st, x)) ==> r == q
  {
    if q == [] then []
    else
      var last := q[|q| - 1];
      assert q == q[..|q| - 1] + [last];
      Pruned(st, q[..|q| - 1]) + (if IsOutdated(st, last) then [] else [last])
  }

  /** One flag per queued request: whether it is still current. */
  function CurrentMask(st: RegistryState, q: seq<JobRequest>): (m: seq<bool>)
    ensures |m| == |q|
  {
    if q == [] then [] else CurrentMask(st, q[..|q| - 1]) + [!IsOutdated(st, q[|q| - 1])]
  }

  /** Pruning keeps the current requests in the order they were queued. */
  lemma {:induction false} PrunedKeepsOrder(st: RegistryState, q: seq<JobRequest>)
    ensures Pruned(st, q) == Keep(q, CurrentMask(st, q), true)
  {
    if q != [] {
      var init := q[..|q| - 1];
      PrunedKeepsOrder(st, init);
      var m := CurrentMask(st, q);
      assert m[..|m| - 1] == CurrentMask(st, init);
    }
  }

  /** Pruning keeps every current request as often as it was queued, and no stale one. */
  lemma {:induction false} PrunedMultiset(st: RegistryState, q: seq<JobRequest>, x: JobRequest)
    ensures multiset(Pruned(st, q))[x] == if IsOutdated(st, x) then 0 else multiset(q)[x]
  {
    if q != [] {
      var init, last := q[..|q| - 1], q[|q| - 1];
      assert q == init + [last];
      PrunedMultiset(st, init, x);
      PrunedSnocCount(st, init, last, x);
      assert multiset(q)[x] == multiset(init)[x] + if last == x then 1 else 0 by {
        assert multiset(q) == multiset(init) + multiset{last};
      }
    }
  }

  /** One more request adds itself to the pruned queue when it is current, and nothing otherwise. */
  lemma PrunedSnocCount(st: RegistryState, init: seq<JobRequest>, last: JobRequest, x: JobRequest)
    ensures multiset(Pruned(st, init + [last]))[x]
            == multiset(Pruned(st, init))[x] + if last == x && !IsOutdated(st, last) then 1 else 0
  {
    assert (init + [last])[..|init|] == init;
    var tail := if IsOutdated(st, last) then [] else [last];
    assert Pruned(st, init + [last]) == Pruned(st, init) + tail;
    assert multiset(Pruned(st, init + [last])) == multiset(Pruned(st, init)) + multiset(tail);
  }

  // ---------------------------------------------------------------------------------------
  // Prioritization

  /**
   * The priority of a request: 2 when its document is used by the current editor, 1 when it
   * is only visible, 0 otherwise (also when the document is not open).
   */
  function Rank(st: RegistryState, r: JobRequest): (k: nat)
    ensures k <= 2
  {
    var id := r.Document();
    if id !in st.documents then 0
    else if st.documents[id].usedByCurrentEditor then 2
    else if st.documents[id].visibleInEditor then 1
    else 0
  }

  /** The requests of `q` of priority `k`, in queue order. */
  function WithRank(st: RegistryState, q: seq<JobRequest>, k: nat): (r: seq<JobRequest>)
    ensures |r| <= |q|
  {
    if q == [] then []
    else
      var last := q[|q| - 1];
      assert q == q[..|q| - 1] + [last];
      WithRank(st, q[..|q| - 1], k) + (if Rank(st, last) == k then [last] else [])
  }

  /**
   * The queue after `prioritizeRequests`: current-editor requests, then visible ones, then the
   * rest, each group in its original order (a stable sort by descending rank).
   */
  function Prioritized(st: RegistryState, q: seq<JobRequest>): seq<JobRequest> {
    WithRank(st, q, 2) + WithRank(st, q, 1) + WithRank(st, q, 0)
  }

  /** The requests of priority `k` are exactly the queued requests of that priority. */
  lemma {:induction false} WithRankMembers(st: RegistryState, q: seq<JobRequest>, k: nat)
    ensures forall x :: x in WithRank(st, q, k) <==> x in q && Rank(st, x) == k
  {
    if q != [] {
      var init, last := q[..|q| - 1], q[|q| - 1];
      assert q == init + [last];
      WithRankMembers(st, init, k);
    }
  }

  lemma {:induction false} WithRankSplit(st: RegistryState, q: seq<JobRequest>)
    ensures multiset(WithRank(st, q, 2)) + multiset(WithRank(st, q, 1)) + multiset(WithRank(st, q, 0))
            == multiset(q)
  {
    if q != [] {
      var init, last := q[..|q| - 1], q[|q| - 1];
      assert q == init + [last];
      WithRankSplit(st, init);
      var m2, m1, m0 := multiset(WithRank(st, init, 2)), multiset(WithRank(st, init, 1)), multiset(WithRank(st, init, 0));
      WithRankSnoc(st, init, last, 2);
      WithRankSnoc(st, init, last, 1);
      WithRankSnoc(st, init, last, 0);
      AddToOneGroup(m2, m1, m0, multiset(init), last, Rank(st, last));
      assert multiset(q) == multiset(init) + multiset{last};
    }
  }

  /** Adding an element to one of three groups that make up a whole adds it to the whole. */
  lemma AddToOneGroup(m2: multiset<JobRequest>, m1: multiset<JobRequest>, m0: multiset<JobRequest>,
                      whole: multiset<JobRequest>, x: JobRequest, r: nat)
    requires m2 + m1 + m0 == whole && r <= 2
    ensures (m2 + if r == 2 then multiset{x} else multiset{})
          + (m1 + if r == 1 then multiset{x} else multiset{})
          + (m0 + if r == 0 then multiset{x} else multiset{})
          == whole + multiset{x}
  {
  }

  /** One more request adds itself to its own rank's group and to no other. */
  lemma WithRankSnoc(st: RegistryState, init: seq<JobRequest>, last: JobRequest, k: nat)
    ensures multiset(WithRank(st, init + [last], k))
            == multiset(WithRank(st, init, k)) + if Rank(st, last) == k then multiset{last} else multiset{}
  {
    assert (init + [last])[..|init|] == init;
    var tail := if Rank(st, last) == k then [last] else [];
    assert WithRank(st, init + [last], k) == WithRank(st, init, k) + tail;
  }

  /** Prioritizing only reorders the queue. */
  lemma PrioritizedIsPermutation(st: RegistryState, q: seq<JobRequest>)
    ensures multiset(Prioritized(st, q)) == multiset(q)
  {
    WithRankSplit(st, q);
  }

  /** After prioritizing, no request stands behind one of lower priority. */
  lemma PrioritizedIsSorted(st: RegistryState, q: seq<JobRequest>)
    ensures var p := Prioritized(st, q);
      forall i, j :: 0 <= i < j < |p| ==> Rank(st, p[i]) >= Rank(st, p[j])
  {
    var a, b, c := WithRank(st, q, 2), WithRank(st, q, 1), WithRank(st, q, 0);
    var p := a + b + c;
    WithRankMembers(st, q, 2);
    WithRankMembers(st, q, 1);
    WithRankMembers(st, q, 0);
    forall i | 0 <= i < |p|
      ensures i < |a| ==> Rank(st, p[i]) == 2
      ensures |a| <= i < |a| + |b| ==> Rank(st, p[i]) == 1
      ensures |a| + |b| <= i ==> Rank(st, p[i]) == 0
    {
      if i < |a| {
        assert p[i] == a[i] && a[i] in a;
      } else if i < |a| + |b| {
        assert p[i] == b[i - |a|] && b[i - |a|] in b;
      } else {
        assert p[i] == c[i - |a| - |b|] && c[i - |a| - |b|] in c;
      }
    }
  }

  lemma {:induction false} WithRankAppend(st: RegistryState, q: seq<JobRequest>, q': seq<JobRequest>, k: nat)
    ensures WithRank(st, q + q', k) == WithRank(st, q, k) + WithRank(st, q', k)
    decreases |q'|
  {
    if q' != [] {
      var init, last := q'[..|q'| - 1], q'[|q'| - 1];
      var tail := if Rank(st, last) == k then [last] else [];
      assert (q + q')[..|q + q'| - 1] == q + init;
      assert (q + q')[|q + q'| - 1] == last;
      calc {
        WithRank(st, q + q', k);
        WithRank(st, q + init, k) + tail;
        { WithRankAppend(st, q, init, k); }
        WithRank(st, q, k) + WithRank(st, init, k) + tail;
        WithRank(st, q, k) + WithRank(st, q', k);
      }
    } else {
      assert q + q' == q;
    }
  }

  lemma {:induction false} WithRankOfWithRank(st: RegistryState, q: seq<JobRequest>, k: nat, k': nat)
    ensures WithRank(st, WithRank(st, q, k), k') == if k == k' then WithRank(st, q, k) else []
  {
    if q != [] {
      var init, last := q[..|q| - 1], q[|q| - 1];
      WithRankOfWithRank(st, init, k, k');
      if Rank(st, last) == k {
        assert WithRank(st, q, k) == WithRank(st, init, k) + [last];
        WithRankAppend(st, WithRank(st, init, k), [last], k');
        assert [last][..0] == [];
        assert WithRank(st, [last], k') == if k == k' then [last] else [];
      } else {
        assert WithRank(st, q, k) == WithRank(st, init, k) + [];
        assert WithRank(st, init, k) + [] == WithRank(st, init, k);
      }
    }
  }

  /**
   * Prioritizing is stable: the requests of each priority keep their relative order, so the
   * subsequence of each rank is the same before and after.
   */
  lemma PrioritizedIsStable(st: RegistryState, q: seq<JobRequest>, k: nat)
    requires k <= 2
    ensures WithRank(st, Prioritized(st, q), k) == WithRank(st, q, k)
  {
    var a, b, c := WithRank(st, q, 2), WithRank(st, q, 1), WithRank(st, q, 0);
    WithRankOfConcat(st, a, b, c, k);
    var wa, wb, wc := WithRank(st, a, k), WithRank(st, b, k), WithRank(st, c, k);
    WithRankOfWithRank(st, q, 2, k);
    WithRankOfWithRank(st, q, 1, k);
    WithRankOfWithRank(st, q, 0, k);
    if k == 2 {
      DropEmpty(wa, wb, wc);
    } else if k == 1 {
      DropEmpty(wb, wa, wc);
      assert wa + wb == wb + wa;
    } else {
      DropEmpty(wc, wa, wb);
      assert wa + wb + wc == wc + wa + wb;
    }
  }

  lemma WithRankOfConcat(st: RegistryState, a: seq<JobRequest>, b: seq<JobRequest>, c: seq<JobRequest>, k: nat)
    ensures WithRank(st, a + b + c, k) == WithRank(st, a, k) + WithRank(st, b, k) + WithRank(st, c, k)
  {
    WithRankAppend(st, a + b, c, k);
    WithRankAppend(st, a, b, k);
  }

  lemma DropEmpty(s: seq<JobRequest>, e: seq<JobRequest>, e': seq<JobRequest>)
    requires e == [] && e' == []
    ensures s + e + e' == s
  {
  }

  /** Prioritizing twice without an intervening add gives the same order as prioritizing once. */
  lemma PrioritizedIsIdempotent(st: RegistryState, q: seq<JobRequest>)
    ensures Prioritized(st, Prioritized(st, q)) == Prioritized(st, q)
  {
    PrioritizedIsStable(st, q, 2);
    PrioritizedIsStable(st, q, 1);
    PrioritizedIsStable(st, q, 0);
  }

  // ---------------------------------------------------------------------------------------
  // Selecting the batch to run

  /** The outcome of one selection pass: the batch to run, what stays queued, and the
      documents scheduled in this pass. */
  datatype Selection = Selection(batch: seq<JobRequest>, rest: seq<JobRequest>, scheduled: set<DocumentId>)

  /**
   * A request may run now when its document is open, visible or used by the current editor,
   * and no job is running for it.
   */
  predicate Runnable(st: RegistryState, isJobRunning: DocumentId -> bool, r: JobRequest) {
    var id := r.Document();
    && id in st.documents
    && (st.documents[id].visibleInEditor || st.documents[id].usedByCurrentEditor)
    && !isJobRunning(id)
  }

  /**
   * One front-to-back pass over `q`: a runnable request whose document is not yet scheduled in
   * this pass goes into the batch; every other request stays queued.
   */
  function Select(st: RegistryState, isJobRunning: DocumentId -> bool, q: seq<JobRequest>): (s: Selection)
    ensures |s.batch| + |s.rest| == |q|
  {
    if q == [] then Selection([], [], {})
    else
      var init, last := q[..|q| - 1], q[|q| - 1];
      assert q == init + [last];
      SelectStep(st, isJobRunning, Select(st, isJobRunning, init), last)
  }

  /** How the pass treats one more request. */
  function SelectStep(st: RegistryState, isJobRunning: DocumentId -> bool, s: Selection, r: JobRequest): Selection {
    if Runnable(st, isJobRunning, r) && r.Document() !in s.scheduled then
      Selection(s.batch + [r], s.rest, s.scheduled + {r.Document()})
    else
      Selection(s.batch, s.rest + [r], s.scheduled)
  }

  /** The pass loses and invents nothing: every request ends up in the batch or stays queued. */
  lemma {:induction false} SelectIsPartition(st: RegistryState, isJobRunning: DocumentId -> bool, q: seq<JobRequest>)
    ensures var s := Select(st, isJobRunning, q); multiset(s.batch) + multiset(s.rest) == multiset(q)
  {
    if q != [] {
      var init, last := q[..|q| - 1], q[|q| - 1];
      assert q == init + [last];
      SelectIsPartition(st, isJobRunning, init);
    }
  }

  /**
   * The batch is runnable and holds at most one request per document, the scheduled set is
   * exactly the batch's documents, and a runnable request stays queued only because its
   * document was already scheduled.
   */
  lemma {:induction false} SelectBatchIsRunnableAndDistinct(st: RegistryState, isJobRunning: DocumentId -> bool, q: seq<JobRequest>)
    ensures var s := Select(st, isJobRunning, q);
      && s.scheduled == (set x | x in s.batch :: x.Document())
      && (forall i, j :: 0 <= i < j < |s.batch| ==> s.batch[i].Document() != s.batch[j].Document())
      && (forall x :: x in s.batch ==> Runnable(st, isJobRunning, x))
      && (forall x :: x in s.rest ==> !Runnable(st, isJobRunning, x) || x.Document() in s.scheduled)
  {
    if q != [] {
      var init, last := q[..|q| - 1], q[|q| - 1];
      assert q == init + [last];
      SelectBatchIsRunnableAndDistinct(st, isJobRunning, init);
    }
  }

  /** When no queued request is runnable, nothing is dispatched. */
  lemma SelectNothingRunnable(st: RegistryState, isJobRunning: DocumentId -> bool, q: seq<JobRequest>)
    requires forall x :: x in q ==> !Runnable(st, isJobRunning, x)
    ensures Select(st, isJobRunning, q).batch == []
  {
    SelectIsPartition(st, isJobRunning, q);
    SelectBatchIsRunnableAndDistinct(st, isJobRunning, q);
  }

  /** Extending the queue by one request extends the pass by one step. */
  lemma SelectPrefix(st: RegistryState, isJobRunning: DocumentId -> bool, q: seq<JobRequest>, i: nat)
    requires i < |q|
    ensures Select(st, isJobRunning, q[..i + 1]) == SelectStep(st, isJobRunning, Select(st, isJobRunning, q[..i]), q[i])
  {
    assert q[..i + 1][..i] == q[..i];
  }

  /**
   * The requests of `q` whose flag in `mask` is `b`, in queue order. With one flag per request
   * saying whether it is dispatched, `Keep(q, mask, true)` is a batch and `Keep(q, mask, false)`
   * what stays queued.
   */
  function Keep(q: seq<JobRequest>, mask: seq<bool>, b: bool): (r: seq<JobRequest>)
    requires |mask| == |q|
    ensures |r| <= |q|
  {
    if q == [] then []
    else
      Keep(q[..|q| - 1], mask[..|mask| - 1], b) + (if mask[|mask| - 1] == b then [q[|q| - 1]] else [])
  }

  /**
   * The pass keeps queue order: some choice of one flag per queued request makes the batch the
   * flagged requests and the rest the unflagged ones, each in the order they were queued.
   */
  lemma {:induction false} SelectKeepsQueueOrder(st: RegistryState, isJobRunning: DocumentId -> bool, q: seq<JobRequest>)
    ensures var s := Select(st, isJobRunning, q);
      exists mask: seq<bool> :: |mask| == |q| && s.batch == Keep(q, mask, true) && s.rest == Keep(q, mask, false)
  {
    if q == [] {
      assert Keep(q, [], true) == [] && Keep(q, [], false) == [];
    } else {
      var init, last := q[..|q| - 1], q[|q| - 1];
      assert q == init + [last];
      SelectKeepsQueueOrder(st, isJobRunning, init);
      var prev := Select(st, isJobRunning, init);
      var m :| |m| == |init| && prev.batch == Keep(init, m, true) && prev.rest == Keep(init, m, false);
      var taken := Runnable(st, isJobRunning, last) && last.Document() !in prev.scheduled;
      var mask := m + [taken];
      assert mask[..|mask| - 1] == m;
      assert Keep(q, mask, true) == prev.batch + (if taken then [last] else []);
      assert Keep(q, mask, false) == prev.rest + (if taken then [] else [last]);
    }
  }

  /** Whatever a pass over a prefix of the queue dispatches, the pass over the whole queue does. */
  lemma {:induction false} SelectBatchGrows(st: RegistryState, isJobRunning: DocumentId -> bool, q: seq<JobRequest>, k: nat)
    requires k <= |q|
    ensures forall x :: x in Select(st, isJobRunning, q[..k]).batch ==> x in Select(st, isJobRunning, q).batch
  {
    if k < |q| {
      var init := q[..|q| - 1];
      assert q == init + [q[|q| - 1]];
      assert init[..k] == q[..k];
      SelectBatchGrows(st, isJobRunning, init, k);
    } else {
      assert q[..k] == q;
    }
  }

  /**
   * Of the runnable requests for one document, the first one queued is dispatched: a runnable
   * request with no runnable request for its document ahead of it ends up in the batch.
   */
  lemma SelectFirstWins(st: RegistryState, isJobRunning: DocumentId -> bool, q: seq<JobRequest>, i: nat)
    requires i < |q| && Runnable(st, isJobRunning, q[i])
    requires forall j :: 0 <= j < i && Runnable(st, isJobRunning, q[j]) ==> q[j].Document() != q[i].Document()
    ensures q[i] in Select(st, isJobRunning, q).batch
  {
    FirstIsNotScheduled(st, isJobRunning, q, i);
    SelectPrefix(st, isJobRunning, q, i);
    SelectBatchGrows(st, isJobRunning, q, i + 1);
  }

  /** No request ahead of such a first request has scheduled its document. */
  lemma FirstIsNotScheduled(st: RegistryState, isJobRunning: DocumentId -> bool, q: seq<JobRequest>, i: nat)
    requires i < |q|
    requires forall j :: 0 <= j < i && Runnable(st, isJobRunning, q[j]) ==> q[j].Document() != q[i].Document()
    ensures q[i].Document() !in Select(st, isJobRunning, q[..i]).scheduled
  {
    var prev := Select(st, isJobRunning, q[..i]);
    SelectBatchIsRunnableAndDistinct(st, isJobRunning, q[..i]);
    SelectIsPartition(st, isJobRunning, q[..i]);
    forall x | x in prev.batch
      ensures x.Document() != q[i].Document()
    {
      assert x in multiset(q[..i]);
      var j :| 0 <= j < i && q[j] == x;
    }
  }

  /** The whole of `processQueue`: prune, prioritize, select. */
  function Process(st: RegistryState, isJobRunning: DocumentId -> bool, q: seq<JobRequest>): Selection {
    Select(st, isJobRunning, Prioritized(st, Pruned(st, q)))
  }

  // ---------------------------------------------------------------------------------------
  // Properties of processQueue

  lemma MultisetInSeq(x: JobRequest, q: seq<JobRequest>)
    ensures x in multiset(q) <==> x in q
  {
  }

  /**
   * Every request that comes out of a call, dispatched or left queued, was queued before and is
   * current; every queued request that is current comes out again. Nothing is lost or
   * duplicated beyond the pruned requests.
   */
  lemma ProcessKeepsExactlyCurrent(st: RegistryState, isJobRunning: DocumentId -> bool, q: seq<JobRequest>)
    ensures var s := Process(st, isJobRunning, q);
      && multiset(s.batch) + multiset(s.rest) == multiset(Pruned(st, q))
      && |s.batch| + |s.rest| == |Pruned(st, q)| <= |q|
      && (forall x :: x in s.batch || x in s.rest <==> x in q && !IsOutdated(st, x))
  {
    var s := Process(st, isJobRunning, q);
    var pruned := Pruned(st, q);
    PrioritizedIsPermutation(st, pruned);
    SelectIsPartition(st, isJobRunning, Prioritized(st, pruned));
    assert multiset(s.batch) + multiset(s.rest) == multiset(pruned);
    assert |multiset(s.batch) + multiset(s.rest)| == |multiset(pruned)|;
    forall x
      ensures x in s.batch || x in s.rest <==> x in q && !IsOutdated(st, x)
    {
      MultisetInSeq(x, s.batch);
      MultisetInSeq(x, s.rest);
      MultisetInSeq(x, pruned);
    }
  }

  /**
   * Counted per request: a current request comes out of a call, dispatched or left queued, as
   * many times as it was queued; an out-of-date one never does.
   */
  lemma ProcessCountsEachRequest(st: RegistryState, isJobRunning: DocumentId -> bool, q: seq<JobRequest>, x: JobRequest)
    ensures var s := Process(st, isJobRunning, q);
      multiset(s.batch)[x] + multiset(s.rest)[x] == if IsOutdated(st, x) then 0 else multiset(q)[x]
  {
    var pruned := Pruned(st, q);
    PrioritizedIsPermutation(st, pruned);
    SelectIsPartition(st, isJobRunning, Prioritized(st, pruned));
    PrunedMultiset(st, q, x);
  }

  /** With no request out of date, every request is either dispatched or left queued. */
  lemma ProcessConservesCurrentQueue(st: RegistryState, isJobRunning: DocumentId -> bool, q: seq<JobRequest>)
    requires forall x :: x in q ==> !IsOutdated(st, x)
    ensures var s := Process(st, isJobRunning, q); |s.batch| + |s.rest| == |q|
  {
    ProcessKeepsExactlyCurrent(st, isJobRunning, q);
  }

  /** Processing an empty queue dispatches nothing and leaves the queue empty. */
  lemma ProcessEmpty(st: RegistryState, isJobRunning: DocumentId -> bool)
    ensures Process(st, isJobRunning, []).batch == [] && Process(st, isJobRunning, []).rest == []
  {
  }

  /**
   * A single current request is dispatched and leaves the queue when it is runnable, and stays
   * queued otherwise.
   */
  lemma ProcessSingleJob(st: RegistryState, isJobRunning: DocumentId -> bool, r: JobRequest)
    requires !IsOutdated(st, r)
    ensures Process(st, isJobRunning, [r]).batch == if Runnable(st, isJobRunning, r) then [r] else []
    ensures Process(st, isJobRunning, [r]).rest == if Runnable(st, isJobRunning, r) then [] else [r]
  {
    assert [r][..0] == [];
    assert Pruned(st, [r]) == [r];
    SingletonIsPrioritized(st, r);
    assert Select(st, isJobRunning, [r]) == SelectStep(st, isJobRunning, Selection([], [], {}), r);
  }

  /** A queue of one request is its own prioritized order. */
  lemma SingletonIsPrioritized(st: RegistryState, r: JobRequest)
    ensures Prioritized(st, [r]) == [r]
  {
    assert [r][..0] == [];
    var k := Rank(st, r);
    if k == 2 {
      assert Prioritized(st, [r]) == [r] + [] + [];
    } else if k == 1 {
      assert Prioritized(st, [r]) == [] + [r] + [];
    } else {
      assert Prioritized(st, [r]) == [] + [] + [r];
    }
  }

  /**
   * Two current requests for one runnable document: the first call dispatches one and keeps the
   * other queued; the next call dispatches that one (queue sizes 2, 1, 0).
   */
  lemma ProcessUntilEmpty(st: RegistryState, isJobRunning: DocumentId -> bool, r1: JobRequest, r2: JobRequest)
    requires r1.Document() == r2.Document()
    requires !IsOutdated(st, r1) && !IsOutdated(st, r2)
    requires Runnable(st, isJobRunning, r1) && Runnable(st, isJobRunning, r2)
    ensures var s := Process(st, isJobRunning, [r1, r2]);
      && s.batch == [r1] && s.rest == [r2]
      && Process(st, isJobRunning, s.rest).batch == [r2]
      && Process(st, isJobRunning, s.rest).rest == []
  {
    var q := [r1, r2];
    assert q[..1] == [r1];
    assert Pruned(st, [r1]) == [r1];
    assert Pruned(st, q) == q;
    assert Rank(st, r1) == Rank(st, r2);
    var k := Rank(st, r1);
    assert WithRank(st, [r1], k) == [r1];
    assert WithRank(st, q, k) == q;
    assert forall k' :: k' != k ==> WithRank(st, [r1], k') == [];
    assert forall k' :: k' != k ==> WithRank(st, q, k') == [];
    assert Prioritized(st, q) == q;
    assert Select(st, isJobRunning, [r1]) == Selection([r1], [], {r1.Document()});
    ProcessSingleJob(st, isJobRunning, r2);
  }

  /** Nothing is dispatched for documents that are neither visible nor used by the current editor. */
  lemma RunNothingForNotCurrentOrVisibleDocument(st: RegistryState, isJobRunning: DocumentId -> bool, q: seq<JobRequest>)
    requires forall x :: x in q && x.Document() in st.documents ==>
               !st.documents[x.Document()].visibleInEditor && !st.documents[x.Document()].usedByCurrentEditor
    ensures Process(st, isJobRunning, q).batch == []
  {
    var p := Prioritized(st, Pruned(st, q));
    PrioritizedIsPermutation(st, Pruned(st, q));
    forall x | x in p
      ensures !Runnable(st, isJobRunning, x)
    {
      MultisetInSeq(x, p);
      MultisetInSeq(x, Pruned(st, q));
    }
    SelectNothingRunnable(st, isJobRunning, p);
  }

  /** Nothing is dispatched while the running predicate reports every document as busy. */
  lemma DoNotRunJobForDocumentThatIsBeingProcessed(st: RegistryState, isJobRunning: DocumentId -> bool, q: seq<JobRequest>)
    requires forall id :: isJobRunning(id)
    ensures Process(st, isJobRunning, q).batch == []
  {
    SelectNothingRunnable(st, isJobRunning, Prioritized(st, Pruned(st, q)));
  }

  /** A queue holding one out-of-date request is emptied without dispatching anything. */
  lemma ProcessDropsOutdatedRequest(st: RegistryState, isJobRunning: DocumentId -> bool, r: JobRequest)
    requires IsOutdated(st, r)
    ensures Process(st, isJobRunning, [r]).batch == [] && Process(st, isJobRunning, [r]).rest == []
  {
    assert [r][..0] == [];
    assert Pruned(st, [r]) == [];
  }

  /** An out-of-date request is neither dispatched nor kept in the queue. */
  lemma OutdatedRequestIsDropped(st: RegistryState, isJobRunning: DocumentId -> bool, q: seq<JobRequest>, r: JobRequest)
    requires IsOutdated(st, r)
    ensures r !in Process(st, isJobRunning, q).batch && r !in Process(st, isJobRunning, q).rest
  {
    ProcessKeepsExactlyCurrent(st, isJobRunning, q);
  }

  /**
   * A request whose document is visible comes out of prioritizing ahead of one whose document
   * is neither visible nor current.
   */
  lemma PrioritizeVisibleOverNotVisible(st: RegistryState, r1: JobRequest, r2: JobRequest)
    requires Rank(st, r2) == 1 && Rank(st, r1) == 0
    ensures Prioritized(st, [r1, r2]) == [r2, r1]
  {
    var q := [r1, r2];
    assert q[..1] == [r1];
    assert WithRank(st, q, 2) == [];
    assert WithRank(st, q, 1) == [r2];
    assert WithRank(st, q, 0) == [r1];
  }

  /**
   * A request whose document is used by the current editor comes out of prioritizing ahead of
   * one whose document is not, whatever their order when queued.
   */
  lemma PrioritizeCurrentDocumentOverNotCurrent(st: RegistryState, r1: JobRequest, r2: JobRequest)
    requires Rank(st, r2) == 2 && Rank(st, r1) < 2
    ensures Prioritized(st, [r1, r2]) == [r2, r1]
  {
    var q := [r1, r2];
    assert q[..1] == [r1];
    assert WithRank(st, q, 2) == [r2];
    if Rank(st, r1) == 1 {
      assert WithRank(st, q, 1) == [r1];
      assert WithRank(st, q, 0) == [];
    } else {
      assert WithRank(st, q, 1) == [];
      assert WithRank(st, q, 0) == [r1];
    }
  }
}
