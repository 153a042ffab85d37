// What the other modules share: optional values, and a few facts about
// sequences without repetition.
module Wrappers {

  datatype Option<+T> = None | Some(value: T)

  // No value occurs twice.
  predicate Distinct<T(==)>(s: seq<T>) {
    forall i, j :: 0 <= i < j < |s| ==> s[i] != s[j]
  }

  lemma DistinctRest<T>(s: seq<T>)
    requires s != []
    ensures Distinct(s) <==> s[0] !in s[1..] && Distinct(s[1..])
  {
    var rest := s[1..];
    assert forall i :: 0 <= i < |rest| ==> rest[i] == s[i + 1];
    if s[0] !in rest && Distinct(rest) {
      forall i, j | 0 <= i < j < |s| ensures s[i] != s[j] {
        if i > 0 { assert rest[i - 1] != rest[j - 1]; } else { assert rest[j - 1] in rest; }
      }
    }
  }

  // The number of values in a sequence and in the set it spells: equal
  // exactly when none occurs twice.
  lemma {:induction false} DistinctSize<T>(s: seq<T>)
    ensures |set x | x in s| <= |s|
    ensures |set x | x in s| == |s| <==> Distinct(s)
  {
    if s != [] {
      var rest := s[1..];
      DistinctSize(rest);
      DistinctRest(s);
      var small := set x | x in rest;
      var all := set x | x in s;
      assert s == [s[0]] + rest;
      assert all == small + {s[0]};
      assert s[0] in rest <==> s[0] in small;
      if s[0] in rest {
        assert all == small;
      }
    }
  }

  // A subset is no larger, and as large only when it is all.
  lemma SubsetSize<T>(a: set<T>, b: set<T>)
    requires a <= b
    ensures |a| <= |b| && (|a| == |b| <==> a == b)
  {
    assert b == a + (b - a);
  }
}
