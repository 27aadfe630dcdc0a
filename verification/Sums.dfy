/** Sums of integer columns, independent of the order in which rows are added. */
module Sums {
  ghost function Sum<K(!new)>(amounts: map<K, int>): int {
    if amounts == map[] then 0
    else
      var key :| key in amounts;
      amounts[key] + Sum(amounts - {key})
  }

  lemma {:induction false} SumWithout<K(!new)>(amounts: map<K, int>, key: K)
    requires key in amounts
    ensures Sum(amounts) == amounts[key] + Sum(amounts - {key})
  {
    var other :| other in amounts && Sum(amounts) == amounts[other] + Sum(amounts - {other});
    if other != key {
      SumWithout(amounts - {other}, key);
      SumWithout(amounts - {key}, other);
      assert amounts - {other} - {key} == amounts - {key} - {other};
    }
  }

  lemma SumWith<K(!new)>(amounts: map<K, int>, key: K, amount: int)
    requires key !in amounts
    ensures Sum(amounts[key := amount]) == amount + Sum(amounts)
  {
    SumWithout(amounts[key := amount], key);
    assert amounts[key := amount] - {key} == amounts;
  }

  lemma {:induction false} SumUnion<K(!new)>(left: map<K, int>, right: map<K, int>)
    requires left.Keys !! right.Keys
    ensures Sum(left + right) == Sum(left) + Sum(right)
  {
    if left == map[] {
      assert left + right == right;
    } else {
      var key :| key in left;
      var rest := left - {key};
      SumWithout(left, key);
      SumUnion(rest, right);
      SumWith(rest + right, key, left[key]);
      assert left + right == (rest + right)[key := left[key]];
    }
  }

  predicate Parts<K>(whole: map<K, int>, left: map<K, int>, right: map<K, int>) {
    && (forall key :: key in whole ==> key in left || key in right)
    && (forall key :: key in left ==> key in whole && key !in right && whole[key] == left[key])
    && (forall key :: key in right ==> key in whole && key !in left && whole[key] == right[key])
  }

  lemma SumParts<K(!new)>(whole: map<K, int>, left: map<K, int>, right: map<K, int>)
    requires Parts(whole, left, right)
    ensures Sum(whole) == Sum(left) + Sum(right)
  {
    SumUnion(left, right);
    assert whole == left + right;
  }

  lemma {:induction false} SumUniform<K(!new)>(amounts: map<K, int>, each: int)
    requires forall key :: key in amounts ==> amounts[key] == each
    ensures Sum(amounts) == each * |amounts|
  {
    if amounts != map[] {
      var key :| key in amounts;
      var rest := amounts - {key};
      SumWithout(amounts, key);
      SumUniform(rest, each);
      assert rest.Keys == amounts.Keys - {key};
      assert |rest| == |amounts| - 1;
      assert each * |amounts| == each * |rest| + each;
    }
  }

  lemma {:induction false} SumNonNegative<K(!new)>(amounts: map<K, int>)
    requires forall key :: key in amounts ==> 0 <= amounts[key]
    ensures 0 <= Sum(amounts)
  {
    if amounts != map[] {
      var key :| key in amounts;
      SumNonNegative(amounts - {key});
      SumWithout(amounts, key);
    }
  }
}
