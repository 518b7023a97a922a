/// `src/enumify.js`: an object that maps each element of a list of names
/// to itself, built by folding the list into an initially empty object.
module Enumify {

  /// The elements of a list, as a set.
  function Elements(list: seq<string>): set<string>
  {
    set i | 0 <= i < |list| :: list[i]
  }

  /// The object `enumify(list)` returns: exactly the list's elements as
  /// keys, each mapped to itself.
  function Enumified(list: seq<string>): (m: map<string, string>)
    ensures m.Keys == Elements(list)
    ensures forall k :: k in m ==> m[k] == k
  {
    if list == [] then map[]
    else
      var n := |list| - 1;
      assert Elements(list) == Elements(list[..n]) + {list[n]} by {
        assert forall i :: 0 <= i < n ==> list[..n][i] == list[i];
      }
      Enumified(list[..n])[list[n] := list[n]]
  }

  /// `enumify`: `obj[value] = value` for each element in order.
  method Enumify(list: seq<string>) returns (obj: map<string, string>)
    ensures obj == Enumified(list)
    ensures obj.Keys == Elements(list) && forall k :: k in obj ==> obj[k] == k
  {
    obj := map[];
    var i := 0;
    while i < |list|
      invariant 0 <= i <= |list|
      invariant obj == Enumified(list[..i])
    {
      assert list[..i + 1][..i] == list[..i];
      obj := obj[list[i] := list[i]];
      i := i + 1;
    }
    assert list[..|list|] == list;
  }

  /// The result depends only on which names occur: order and repetition
  /// do not matter, so duplicates collapse into one key.
  lemma OnlyElementsMatter(a: seq<string>, b: seq<string>)
    requires Elements(a) == Elements(b)
    ensures Enumified(a) == Enumified(b)
  {
  }

  /// Repeating an element changes nothing; the empty list gives `{}`.
  lemma DuplicatesCollapse(list: seq<string>, x: string)
    requires x in list
    ensures Enumified(list + [x]) == Enumified(list)
    ensures Enumified([]) == map[]
  {
    assert Elements(list + [x]) == Elements(list) by {
      var j :| 0 <= j < |list| && list[j] == x;
      assert (list + [x])[j] == x;
      assert forall i :: 0 <= i < |list| ==> (list + [x])[i] == list[i];
    }
    OnlyElementsMatter(list + [x], list);
  }
}
