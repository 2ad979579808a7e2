/**
 * `TopK.topK`: rank the output vector by descending score with a stable
 * sort, keep the first `k`, and attach a label to each kept index.
 * Scores are modelled as integers, an abstract total order standing in for
 * the Float comparison of the source.
 */
module TopK {
  import opened Wrappers
  import opened Text

  datatype Ranked = Ranked(name: string, score: int)

  /** `take(k)` rejects a negative count with IllegalArgumentException. */
  datatype TopKError = NegativeCount(k: int)

  /** Index `i` comes before index `j`: a higher score, or an equal score and an earlier index. */
  predicate Ahead(probs: seq<int>, i: nat, j: nat)
    requires i < |probs| && j < |probs|
  {
    probs[i] > probs[j] || (probs[i] == probs[j] && i < j)
  }

  predicate InRange(probs: seq<int>, s: seq<nat>)
  {
    forall x :: 0 <= x < |s| ==> s[x] < |probs|
  }

  /** The order a stable `sortedByDescending` produces: every earlier entry is ahead of every later one. */
  predicate StablyDescending(probs: seq<int>, s: seq<nat>)
    requires InRange(probs, s)
  {
    forall a, b :: 0 <= a < b < |s| ==> Ahead(probs, s[a], s[b])
  }

  /** Inserts index `i`, larger than every index already placed, after every entry whose score is at least its own. */
  function Insert(probs: seq<int>, i: nat, s: seq<nat>): (r: seq<nat>)
    requires i < |probs| && InRange(probs, s) && StablyDescending(probs, s)
    requires forall x :: 0 <= x < |s| ==> s[x] < i
    ensures |r| == |s| + 1 && InRange(probs, r)
    ensures forall x :: x in r <==> x in s || x == i
    ensures StablyDescending(probs, r)
  {
    if s == [] then [i]
    else if probs[s[0]] < probs[i] then
      assert forall b :: 0 <= b < |s| ==> probs[s[b]] <= probs[s[0]] by {
        forall b | 0 < b < |s| ensures probs[s[b]] <= probs[s[0]] {
          assert Ahead(probs, s[0], s[b]);
        }
      }
      [i] + s
    else
      var rest := Insert(probs, i, s[1..]);
      assert forall x :: x in rest ==> Ahead(probs, s[0], x) by {
        forall x | x in rest ensures Ahead(probs, s[0], x) {
          if x != i {
            var b :| 1 <= b < |s| && s[b] == x;
          }
        }
      }
      [s[0]] + rest
  }

  /** The first `n` indices, sorted stably by descending score. */
  function SortedIndices(probs: seq<int>, n: nat): (r: seq<nat>)
    requires n <= |probs|
    ensures |r| == n && InRange(probs, r)
    ensures forall x: nat :: x in r <==> x < n
    ensures StablyDescending(probs, r)
  {
    if n == 0 then []
    else
      var s := SortedIndices(probs, n - 1);
      assert forall x :: 0 <= x < |s| ==> s[x] in s;
      Insert(probs, n - 1, s)
  }

  /** The indices `topK` keeps: the first `k` of the stably sorted indices. */
  function TopIndices(probs: seq<int>, k: nat): seq<nat>
  {
    var all := SortedIndices(probs, |probs|);
    all[..if k < |all| then k else |all|]
  }

  /** `labels.getOrNull(i) ?: "class_$i"` */
  function LabelFor(labels: seq<string>, i: nat): (r: string)
    ensures i < |labels| ==> r == labels[i]
    ensures i >= |labels| ==>
      && |r| > 6 && r[..6] == "class_"
      && (forall j :: 6 <= j < |r| ==> '0' <= r[j] <= '9')
      && DecimalValue(r[6..]) == i
  {
    if i < |labels| then labels[i] else "class_" + Decimal(i)
  }

  function TopK(probs: seq<int>, labels: seq<string>, k: int): (r: Result<seq<Ranked>, TopKError>)
    ensures r.Err? <==> k < 0
  {
    if k < 0 then Err(NegativeCount(k))
    else
      var idx := TopIndices(probs, k);
      Ok(seq(|idx|, j requires 0 <= j < |idx| => Ranked(LabelFor(labels, idx[j]), probs[idx[j]])))
  }

  /**
   * What the ranking promises: `min(k, size)` distinct indices, ordered by
   * descending score with ties in index order, each of them ahead of every
   * index left out; each entry carries its index's score and label.
   */
  lemma TopKRanking(probs: seq<int>, labels: seq<string>, k: nat)
    ensures var idx := TopIndices(probs, k);
      && |idx| == (if k < |probs| then k else |probs|)
      && InRange(probs, idx)
      && StablyDescending(probs, idx)
      && (forall a, b :: 0 <= a < b < |idx| ==> idx[a] != idx[b])
      && (forall j, a :: 0 <= j < |probs| && j !in idx && 0 <= a < |idx| ==> Ahead(probs, idx[a], j))
      && TopK(probs, labels, k).Ok?
      && |TopK(probs, labels, k).value| == |idx|
      && (forall a :: 0 <= a < |idx| ==>
            TopK(probs, labels, k).value[a] == Ranked(LabelFor(labels, idx[a]), probs[idx[a]]))
  {
    var all := SortedIndices(probs, |probs|);
    var m := if k < |all| then k else |all|;
    var idx := all[..m];
    forall j, a | 0 <= j < |probs| && j !in idx && 0 <= a < |idx| ensures Ahead(probs, idx[a], j) {
      assert j in all;
      var q :| 0 <= q < |all| && all[q] == j;
      assert q >= m;
    }
    forall a, b | 0 <= a < b < |idx| ensures idx[a] != idx[b] {
      assert Ahead(probs, idx[a], idx[b]);
    }
  }

  /** Scores in the result never increase. */
  lemma TopKScoresNonIncreasing(probs: seq<int>, labels: seq<string>, k: nat, a: nat, b: nat)
    requires a < b < |TopK(probs, labels, k).value|
    ensures TopK(probs, labels, k).value[a].score >= TopK(probs, labels, k).value[b].score
  {
    TopKRanking(probs, labels, k);
    assert Ahead(probs, TopIndices(probs, k)[a], TopIndices(probs, k)[b]);
  }

  /** A fallback label `class_<i>` names exactly one index. */
  lemma FallbackLabelsDistinct(labels: seq<string>, i: nat, j: nat)
    requires |labels| <= i && |labels| <= j && LabelFor(labels, i) == LabelFor(labels, j)
    ensures i == j
  {
    assert Decimal(i) == LabelFor(labels, i)[6..];
    assert Decimal(j) == LabelFor(labels, j)[6..];
    DecimalInjective(i, j);
  }
}
