/** The "sort, then take element [0]" selections of the source. With a stable
    sort (guaranteed for Array.prototype.sort since ECMAScript 2019) the first
    element after sorting by a key is the first element, in the original
    order, whose key is least. */
module Ranking {

  /** Index of the first element of `s` with the least key. */
  function ArgMin<T>(s: seq<T>, key: T -> real): (k: nat)
    requires |s| > 0
    ensures k < |s|
    ensures forall j :: 0 <= j < |s| ==> key(s[k]) <= key(s[j])
    ensures forall j :: 0 <= j < k ==> key(s[k]) < key(s[j])
  {
    if |s| == 1 then 0
    else
      var k := ArgMin(s[..|s| - 1], key);
      assert forall j :: 0 <= j < |s| - 1 ==> s[..|s| - 1][j] == s[j];
      if key(s[|s| - 1]) < key(s[k]) then |s| - 1 else k
  }
}
