/** The balanced class weights of the multi-class training script: one
    weight per class index, `total / (num_classes * count)`, with an empty
    class counted as one sample. Labels are the generator's class indices. */
module TrainMultiClass {

  /** `Counter(classes)[c]`: how many labels equal c. */
  function Occurrences(labels: seq<int>, c: int): (n: nat)
    ensures n == multiset(labels)[c]
    ensures n <= |labels|
    ensures n == 0 <==> c !in labels
  {
    if labels == [] then 0
    else
      assert labels == [labels[0]] + labels[1..];
      (if labels[0] == c then 1 else 0) + Occurrences(labels[1..], c)
  }

  /** The counts of classes 0..k-1 added up. */
  function CountsBelow(labels: seq<int>, k: nat): nat {
    if k == 0 then 0 else CountsBelow(labels, k - 1) + Occurrences(labels, k - 1)
  }

  /** Dropping the first label takes one off the classes below k exactly
      when that label is one of them. */
  lemma {:induction false} CountsBelowTail(labels: seq<int>, k: nat)
    requires labels != []
    ensures CountsBelow(labels, k) == CountsBelow(labels[1..], k) + (if 0 <= labels[0] < k then 1 else 0)
  {
    if k > 0 {
      CountsBelowTail(labels, k - 1);
    }
  }

  /** When every label is a class index below num_classes, the per-class
      counts add up to the number of labels, the `total` of the script. */
  lemma {:induction false} CountsCoverLabels(labels: seq<int>, numClasses: nat)
    requires forall i :: 0 <= i < |labels| ==> 0 <= labels[i] < numClasses
    ensures CountsBelow(labels, numClasses) == |labels|
  {
    if labels == [] {
      CountsBelowZero(numClasses);
    } else {
      CountsBelowTail(labels, numClasses);
      CountsCoverLabels(labels[1..], numClasses);
    }
  }

  /** With no labels every count is zero. */
  lemma {:induction false} CountsBelowZero(k: nat)
    ensures CountsBelow([], k) == 0
  {
    if k > 0 {
      CountsBelowZero(k - 1);
    }
  }

  /** The balanced weight of a class seen `count` times out of `total`. */
  function BalancedWeight(total: nat, numClasses: nat, count: nat): (w: real)
    requires numClasses > 0
    ensures count > 0 ==> count as real * w == total as real / numClasses as real
    ensures count == 0 ==> w == total as real / numClasses as real
    ensures total > 0 <==> w > 0.0
  {
    var n := numClasses as real;
    var c := (if count > 0 then count else 1) as real;
    assert total as real / (n * c) == (total as real / n) / c;
    total as real / (n * c)
  }

  /** Of two non-empty classes the larger one weighs less: the weights
      undo the imbalance. */
  lemma LargerClassLighter(total: nat, numClasses: nat, small: nat, large: nat)
    requires numClasses > 0 && total > 0 && 0 < small < large
    ensures BalancedWeight(total, numClasses, large) < BalancedWeight(total, numClasses, small)
  {
    var share := total as real / numClasses as real;
    var ws := BalancedWeight(total, numClasses, small);
    var wl := BalancedWeight(total, numClasses, large);
    assert small as real * ws == share && large as real * wl == share;
    assert small as real * wl < large as real * wl;
  }

  /** The class_weight loop: a weight for each class index below
      num_classes and no other key. */
  method ClassWeights(labels: seq<int>, numClasses: nat) returns (weights: map<int, real>)
    ensures forall k :: k in weights <==> 0 <= k < numClasses
    ensures forall i :: 0 <= i < numClasses ==> weights[i] == BalancedWeight(|labels|, numClasses, Occurrences(labels, i))
  {
    var total := |labels|;
    weights := map[];
    for i := 0 to numClasses
      invariant forall k :: k in weights <==> 0 <= k < i
      invariant forall j :: 0 <= j < i ==> weights[j] == BalancedWeight(total, numClasses, Occurrences(labels, j))
    {
      var count := Occurrences(labels, i);
      if count == 0 {
        count := 1;
      }
      var w := total as real / (numClasses * count) as real;
      WeightIsBalanced(total, numClasses, Occurrences(labels, i), count);
      weights := weights[i := w];
    }
  }

  /** The loop's `total / (num_classes * count)`, with an empty class
      counted once, is the balanced weight. */
  lemma WeightIsBalanced(total: nat, numClasses: nat, count: nat, used: nat)
    requires numClasses > 0 && used == (if count > 0 then count else 1)
    ensures total as real / (numClasses * used) as real == BalancedWeight(total, numClasses, count)
  {
    assert (numClasses * used) as real == numClasses as real * used as real;
  }
}
