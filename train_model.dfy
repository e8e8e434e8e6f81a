/** The class weights of the two-class (Normal / Pneumonia) training
    script: `(1 / count) * (total / 2)` per class, or 1.0 for an empty
    class. */
module TrainModel {

  /** The weight of one class seen `count` times out of `total`. */
  function WeightFor(count: nat, total: nat): (w: real)
    ensures count > 0 ==> count as real * w == total as real / 2.0
    ensures count == 0 ==> w == 1.0
  {
    if count > 0 then
      var w := (1.0 / count as real) * (total as real / 2.0);
      assert count as real * w == (count as real * (1.0 / count as real)) * (total as real / 2.0);
      w
    else 1.0
  }

  /** `class_weight`: key 0 for Normal and key 1 for Pneumonia, over the
      total of both counts. */
  function TwoClassWeights(countNormal: nat, countPneumonia: nat): (weights: map<int, real>)
    ensures weights.Keys == {0, 1}
    ensures weights[0] == WeightFor(countNormal, countNormal + countPneumonia)
    ensures weights[1] == WeightFor(countPneumonia, countNormal + countPneumonia)
  {
    var total := countNormal + countPneumonia;
    map[0 := WeightFor(countNormal, total), 1 := WeightFor(countPneumonia, total)]
  }

  /** With both classes present each contributes half the total weight. */
  lemma BothHalves(countNormal: nat, countPneumonia: nat)
    requires countNormal > 0 && countPneumonia > 0
    ensures var w := TwoClassWeights(countNormal, countPneumonia);
            && countNormal as real * w[0] == countPneumonia as real * w[1]
            && countNormal as real * w[0] == (countNormal + countPneumonia) as real / 2.0
  {
  }

  /** With both classes present the smaller one gets the strictly larger
      weight, and equal classes get weight 1. */
  lemma MinorityWeighsMore(countNormal: nat, countPneumonia: nat)
    requires countNormal > 0 && countPneumonia > 0
    ensures var w := TwoClassWeights(countNormal, countPneumonia);
            && (countNormal < countPneumonia ==> w[0] > w[1])
            && (countPneumonia < countNormal ==> w[1] > w[0])
            && (countNormal == countPneumonia ==> w[0] == 1.0 && w[1] == 1.0)
  {
    var w := TwoClassWeights(countNormal, countPneumonia);
    var half := (countNormal + countPneumonia) as real / 2.0;
    assert countNormal as real * w[0] == half && countPneumonia as real * w[1] == half;
    if countNormal < countPneumonia {
      assert countNormal as real * w[1] < countPneumonia as real * w[1];
    } else if countPneumonia < countNormal {
      assert countPneumonia as real * w[0] < countNormal as real * w[0];
    }
  }

  /** An empty class keeps weight 1.0 while the only present class gets
      one half. */
  lemma EmptyClassWeights(count: nat)
    requires count > 0
    ensures TwoClassWeights(0, count) == map[0 := 1.0, 1 := 0.5]
    ensures TwoClassWeights(count, 0) == map[0 := 0.5, 1 := 1.0]
  {
    assert count as real * WeightFor(count, count) == count as real / 2.0;
  }
}
