/** The recency lists of the caches (`container/list`): keys, most recent first. */
module RecencyList {
  import opened Text

  function Without(order: seq<string>, key: string): seq<string> {
    if order == [] then [] else
    if order[0] == key then Without(order[1..], key) else [order[0]] + Without(order[1..], key)
  }

  lemma {:induction false} WithoutMember(order: seq<string>, key: string, k: string)
    ensures k in Without(order, key) <==> k in order && k != key
    ensures |Without(order, key)| <= |order|
  {
    if order != [] {
      WithoutMember(order[1..], key, k);
      assert order == [order[0]] + order[1..];
    }
  }

  lemma {:induction false} WithoutAbsent(order: seq<string>, key: string)
    requires key !in order
    ensures Without(order, key) == order
  {
    if order != [] {
      WithoutAbsent(order[1..], key);
    }
  }

  lemma {:induction false} WithoutDistinct(order: seq<string>, key: string)
    requires Distinct(order)
    ensures Distinct(Without(order, key))
    ensures key in order ==> |Without(order, key)| == |order| - 1
  {
    if order != [] {
      WithoutDistinct(order[1..], key);
      WithoutMember(order[1..], key, order[0]);
      if order[0] == key {
        WithoutAbsent(order[1..], key);
      }
    }
  }

  lemma MoveToFront(order: seq<string>, key: string)
    requires Distinct(order)
    ensures Distinct([key] + Without(order, key))
    ensures forall k :: k in [key] + Without(order, key) <==> k in order || k == key
    ensures forall k :: k in Without(order, key) <==> k in order && k != key
    ensures key in order ==> |[key] + Without(order, key)| == |order|
  {
    WithoutDistinct(order, key);
    forall k
      ensures k in Without(order, key) <==> k in order && k != key
    {
      WithoutMember(order, key, k);
    }
  }

  lemma {:induction false} WithoutLast(order: seq<string>)
    requires Distinct(order) && order != []
    ensures Without(order, order[|order| - 1]) == order[..|order| - 1]
  {
    if |order| > 1 {
      WithoutLast(order[1..]);
      assert order[..|order| - 1] == [order[0]] + order[1..][..|order| - 2];
    }
  }

  /** The elements to keep, in order. */
  function Only(order: seq<string>, keep: set<string>): seq<string> {
    if order == [] then [] else (if order[0] in keep then [order[0]] else []) + Only(order[1..], keep)
  }

  lemma {:induction false} OnlyAll(order: seq<string>, keep: set<string>)
    requires forall k :: k in order ==> k in keep
    ensures Only(order, keep) == order
  {
    if order != [] {
      assert order[0] in order && forall k :: k in order[1..] ==> k in order;
      OnlyAll(order[1..], keep);
    }
  }

  lemma {:induction false} OnlyWithout(order: seq<string>, keep: set<string>, key: string)
    ensures Without(Only(order, keep), key) == Only(order, keep - {key})
  {
    if order != [] {
      OnlyWithout(order[1..], keep, key);
      var rest := Only(order[1..], keep);
      assert ([order[0]] + rest)[1..] == rest && [] + rest == rest;
    }
  }
}
