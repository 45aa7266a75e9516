/**
  The ordered listener list of the tracker, as a sequence that admits
  duplicates. Adding appends at the end; removing deletes the first equal
  entry only and leaves the list alone when there is none, as
  `ArrayList.add` and `ArrayList.remove(Object)` do.
 */
module ListenerList {

  /** Position of the first occurrence of `x` in `s`. */
  function IndexOf<T(==)>(s: seq<T>, x: T): (i: nat)
    requires x in s
    ensures i < |s| && s[i] == x
    ensures x !in s[..i]
  {
    if s[0] == x then 0
    else
      assert s == [s[0]] + s[1..];
      var j := IndexOf(s[1..], x);
      assert s[..j + 1] == [s[0]] + s[1..][..j];
      j + 1
  }

  /** Appends `x`; the list may already hold `x`. */
  function Append<T>(s: seq<T>, x: T): (r: seq<T>)
    ensures |r| == |s| + 1 && r[..|s|] == s && r[|s|] == x
    ensures multiset(r) == multiset(s) + multiset{x}
  {
    s + [x]
  }

  /** Deletes the first entry equal to `x`, if any: the entries before it
      stay in place and the entries after it move up by one. */
  function RemoveFirst<T(==)>(s: seq<T>, x: T): (r: seq<T>)
    ensures x !in s ==> r == s
    ensures x in s ==>
              var i := IndexOf(s, x);
              && |r| == |s| - 1
              && (forall k :: 0 <= k < i ==> r[k] == s[k] != x)
              && (forall k :: i <= k < |r| ==> r[k] == s[k + 1])
  {
    if x in s then
      var i := IndexOf(s, x);
      assert forall k :: 0 <= k < i ==> s[..i][k] == s[k];
      s[..i] + s[i + 1..]
    else s
  }

  /** Removal takes away exactly one copy of `x`, when there is one, and
      no other entry. */
  lemma RemoveFirstMultiset<T>(s: seq<T>, x: T)
    ensures multiset(RemoveFirst(s, x)) == multiset(s) - multiset{x}
  {
    if x in s {
      var i := IndexOf(s, x);
      assert s == s[..i] + [x] + s[i + 1..];
      assert RemoveFirst(s, x) == s[..i] + s[i + 1..];
    }
  }

  /** Removing an entry that occurs at most once leaves none behind. */
  lemma RemoveOnlyEntry<T>(s: seq<T>, x: T)
    requires multiset(s)[x] <= 1
    ensures x !in RemoveFirst(s, x)
  {
    RemoveFirstMultiset(s, x);
    assert multiset(RemoveFirst(s, x))[x] == 0;
  }

  /** The first occurrence is unique: a position holding `x` with no `x`
      before it is the one `IndexOf` finds. */
  lemma IndexOfUnique<T>(s: seq<T>, x: T, i: nat)
    requires i < |s| && s[i] == x && x !in s[..i]
    ensures IndexOf(s, x) == i
  {
  }

  /** Appending an entry that was not yet registered and then removing it
      gives back the original list. */
  lemma RemoveAppended<T>(s: seq<T>, x: T)
    requires x !in s
    ensures RemoveFirst(Append(s, x), x) == s
  {
    var a := Append(s, x);
    assert a[..|s|] == s;
    IndexOfUnique(a, x, |s|);
    assert RemoveFirst(a, x) == a[..|s|] + a[|s| + 1..];
  }

  /** When `x` is already registered, removing it after a second append
      deletes the earlier entry and keeps the new one at the end. */
  lemma RemoveAfterDuplicateAppend<T>(s: seq<T>, x: T)
    requires x in s
    ensures RemoveFirst(Append(s, x), x) == Append(RemoveFirst(s, x), x)
  {
    var a := Append(s, x);
    var i := IndexOf(s, x);
    assert a[..i] == s[..i];
    IndexOfUnique(a, x, i);
    assert a[i + 1..] == s[i + 1..] + [x];
    assert RemoveFirst(a, x) == s[..i] + (s[i + 1..] + [x]);
    assert RemoveFirst(s, x) == s[..i] + s[i + 1..];
  }
}
