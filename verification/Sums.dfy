/** Sums over the rows of a table, as SQL's SUM or a reduce over findMany computes them. */
module Sums {

  ghost function Sum<K, V>(rows: map<K, V>, weight: V -> int): int
    decreases |rows|
  {
    if rows == map[] then 0
    else
      var k :| k in rows;
      weight(rows[k]) + Sum(rows - {k}, weight)
  }

  /** The sum does not depend on the order in which rows are visited. */
  lemma {:induction false} SumPick<K, V>(rows: map<K, V>, k: K, weight: V -> int)
    requires k in rows
    ensures Sum(rows, weight) == weight(rows[k]) + Sum(rows - {k}, weight)
    decreases |rows|
  {
    var first :| first in rows && Sum(rows, weight) == weight(rows[first]) + Sum(rows - {first}, weight);
    if first != k {
      SumPick(rows - {first}, k, weight);
      SumPick(rows - {k}, first, weight);
      assert rows - {first} - {k} == rows - {k} - {first};
    }
  }

  /** Inserting or overwriting one row. */
  lemma SumPut<K, V>(rows: map<K, V>, k: K, v: V, weight: V -> int)
    ensures Sum(rows[k := v], weight) == Sum(rows, weight) - (if k in rows then weight(rows[k]) else 0) + weight(v)
  {
    SumPick(rows[k := v], k, weight);
    if k in rows {
      SumPick(rows, k, weight);
      assert rows[k := v] - {k} == rows - {k};
    } else {
      assert rows[k := v] - {k} == rows;
    }
  }

  lemma {:induction false} SumNonNegative<K, V>(rows: map<K, V>, weight: V -> int)
    requires forall k :: k in rows ==> weight(rows[k]) >= 0
    ensures Sum(rows, weight) >= 0
    decreases |rows|
  {
    if rows != map[] {
      var k :| k in rows;
      SumPick(rows, k, weight);
      SumNonNegative(rows - {k}, weight);
    }
  }

  /** A row's weight is part of the whole. */
  lemma SumAtLeast<K, V>(rows: map<K, V>, k: K, weight: V -> int)
    requires forall j :: j in rows ==> weight(rows[j]) >= 0
    requires k in rows
    ensures weight(rows[k]) <= Sum(rows, weight)
  {
    SumPick(rows, k, weight);
    SumNonNegative(rows - {k}, weight);
  }

  lemma {:induction false} SumZero<K, V>(rows: map<K, V>, weight: V -> int)
    requires forall k :: k in rows ==> weight(rows[k]) == 0
    ensures Sum(rows, weight) == 0
    decreases |rows|
  {
    if rows != map[] {
      var k :| k in rows;
      SumPick(rows, k, weight);
      SumZero(rows - {k}, weight);
    }
  }

  /** At most one row weighs anything, and it weighs at most `bound`. */
  lemma {:induction false} SumOfAtMostOne<K, V>(rows: map<K, V>, weight: V -> int, bound: nat)
    requires forall k :: k in rows ==> weight(rows[k]) <= bound
    requires forall j, k | j in rows && k in rows :: weight(rows[j]) != 0 && weight(rows[k]) != 0 ==> j == k
    ensures Sum(rows, weight) <= bound
    decreases |rows|
  {
    if rows != map[] {
      var k :| k in rows;
      SumPick(rows, k, weight);
      if weight(rows[k]) == 0 {
        SumOfAtMostOne(rows - {k}, weight, bound);
      } else {
        SumZero(rows - {k}, weight);
      }
    }
  }

  /** The rows whose weight is not zero go, each to a row of its own that weighs at least as much. */
  ghost predicate Embeds<K1, V1, K2, V2>(
    small: map<K1, V1>, smallWeight: V1 -> int, big: map<K2, V2>, bigWeight: V2 -> int, image: map<K1, K2>)
  {
    && (forall k | k in small && smallWeight(small[k]) != 0 ::
          k in image && image[k] in big && smallWeight(small[k]) <= bigWeight(big[image[k]]))
    && (forall j, k | j in small && k in small && j in image && k in image && image[j] == image[k] ::
          smallWeight(small[j]) != 0 && smallWeight(small[k]) != 0 ==> j == k)
  }

  lemma {:induction false} SumEmbedded<K1, V1, K2, V2>(
    small: map<K1, V1>, smallWeight: V1 -> int, big: map<K2, V2>, bigWeight: V2 -> int, image: map<K1, K2>)
    requires Embeds(small, smallWeight, big, bigWeight, image)
    requires forall k :: k in big ==> bigWeight(big[k]) >= 0
    ensures Sum(small, smallWeight) <= Sum(big, bigWeight)
    decreases |small|
  {
    if small == map[] {
      SumNonNegative(big, bigWeight);
    } else {
      var k :| k in small;
      SumPick(small, k, smallWeight);
      var rest := small - {k};
      if smallWeight(small[k]) == 0 {
        SumEmbedded(rest, smallWeight, big, bigWeight, image);
      } else {
        SumPick(big, image[k], bigWeight);
        SumEmbedded(rest, smallWeight, big - {image[k]}, bigWeight, image);
      }
    }
  }
}
