// Lists as multisets and as sets.
module Lists {

  ghost predicate NoRepeats<T>(list: seq<T>) {
    forall i, j :: 0 <= i < j < |list| ==> list[i] != list[j]
  }

  // A list without its i-th element.
  lemma Without<T>(list: seq<T>, i: nat)
    requires i < |list|
    ensures multiset(list[..i] + list[i + 1..]) == multiset(list) - multiset{list[i]}
    ensures i == 0 ==> list[..i] + list[i + 1..] == list[1..]
  {
    assert list == list[..i] + [list[i]] + list[i + 1..];
  }

  lemma {:induction false} SizeOfDistinct<T>(list: seq<T>)
    requires NoRepeats(list)
    ensures |set x | x in list| == |list|
  {
    var all := set x | x in list;
    if list == [] {
      assert all == {};
    } else {
      var rest, last := list[..|list| - 1], list[|list| - 1];
      var others := set x | x in rest;
      SizeOfDistinct(rest);
      assert list == rest + [last];
      assert last !in others && all == others + {last};
    }
  }
}
