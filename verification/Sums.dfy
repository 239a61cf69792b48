/** Totals over the records of a table. */
module Sums {

  /** The total weight of the records with these ids. */
  ghost function Sum<V>(table: map<nat, V>, ids: set<nat>, weight: V -> nat): nat
    requires ids <= table.Keys
  {
    if ids == {} then 0
    else
      var id :| id in ids;
      weight(table[id]) + Sum(table, ids - {id}, weight)
  }

  /** Which record comes first makes no difference. */
  lemma {:induction false} SumTakesOut<V>(table: map<nat, V>, ids: set<nat>, weight: V -> nat, id: nat)
    requires ids <= table.Keys && id in ids
    ensures Sum(table, ids, weight) == weight(table[id]) + Sum(table, ids - {id}, weight)
    decreases ids
  {
    var first :| first in ids && Sum(table, ids, weight) == weight(table[first]) + Sum(table, ids - {first}, weight);
    if first != id {
      SumTakesOut(table, ids - {first}, weight, id);
      SumTakesOut(table, ids - {id}, weight, first);
      assert ids - {first} - {id} == ids - {id} - {first};
    }
  }

  lemma {:induction false} SumOfSubset<V>(table: map<nat, V>, some: set<nat>, all: set<nat>, weight: V -> nat)
    requires some <= all <= table.Keys
    ensures Sum(table, some, weight) <= Sum(table, all, weight)
    decreases all
  {
    if id :| id in all {
      SumTakesOut(table, all, weight, id);
      if id in some {
        SumTakesOut(table, some, weight, id);
        SumOfSubset(table, some - {id}, all - {id}, weight);
      } else {
        SumOfSubset(table, some, all - {id}, weight);
      }
    }
  }

  /** Where no weight grows, no total does. */
  lemma {:induction false} SumOfLighter<V>(table: map<nat, V>, other: map<nat, V>, ids: set<nat>, weight: V -> nat)
    requires ids <= table.Keys && ids <= other.Keys
    requires forall id :: id in ids ==> weight(table[id]) <= weight(other[id])
    ensures Sum(table, ids, weight) <= Sum(other, ids, weight)
    decreases ids
  {
    if id :| id in ids {
      SumTakesOut(table, ids, weight, id);
      SumTakesOut(other, ids, weight, id);
      SumOfLighter(table, other, ids - {id}, weight);
    }
  }

  lemma SumOfSame<V>(table: map<nat, V>, other: map<nat, V>, ids: set<nat>, weight: V -> nat)
    requires ids <= table.Keys && ids <= other.Keys
    requires forall id :: id in ids ==> weight(table[id]) == weight(other[id])
    ensures Sum(table, ids, weight) == Sum(other, ids, weight)
  {
    SumOfLighter(table, other, ids, weight);
    SumOfLighter(other, table, ids, weight);
  }

  lemma {:induction false} SumOfOnes<V>(table: map<nat, V>, ids: set<nat>, weight: V -> nat)
    requires ids <= table.Keys && forall id :: id in ids ==> weight(table[id]) == 1
    ensures Sum(table, ids, weight) == |ids|
    decreases ids
  {
    if id :| id in ids {
      SumTakesOut(table, ids, weight, id);
      SumOfOnes(table, ids - {id}, weight);
    }
  }
}
