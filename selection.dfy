/**
 * Checkbox-style selection lists: a value is removed (every occurrence) when
 * it is present and appended when it is absent. Used for the filter facets
 * and for the navigation's expanded items.
 */
module Selection {

  /** The list without any occurrence of `v`, the rest in order. */
  function Without<T(==)>(s: seq<T>, v: T): seq<T>
  {
    if s == [] then []
    else (if s[0] == v then [] else [s[0]]) + Without(s[1..], v)
  }

  /** Remove `v` if it is present, otherwise append it at the end. */
  function Toggle<T(==)>(s: seq<T>, v: T): seq<T>
  {
    if v in s then Without(s, v) else s + [v]
  }

  /** Removing a value keeps exactly the other values. */
  lemma {:induction false} WithoutMembership<T>(s: seq<T>, v: T, x: T)
    ensures x in Without(s, v) <==> x in s && x != v
  {
    if s != [] {
      WithoutMembership(s[1..], v, x);
      assert s == [s[0]] + s[1..];
    }
  }

  /** Removal distributes over concatenation, so it keeps the order of what remains. */
  lemma {:induction false} WithoutConcat<T>(a: seq<T>, b: seq<T>, v: T)
    ensures Without(a + b, v) == Without(a, v) + Without(b, v)
  {
    if a == [] {
      assert a + b == b;
    } else {
      assert (a + b)[1..] == a[1..] + b;
      WithoutConcat(a[1..], b, v);
    }
  }

  /** Removing an absent value changes nothing. */
  lemma {:induction false} WithoutAbsent<T>(s: seq<T>, v: T)
    requires v !in s
    ensures Without(s, v) == s
  {
    if s != [] {
      WithoutAbsent(s[1..], v);
      assert s == [s[0]] + s[1..];
    }
  }

  /** After a toggle, `v` is present exactly when it was absent before, and no other value moves in or out. */
  lemma ToggleMembership<T>(s: seq<T>, v: T, x: T)
    ensures v in Toggle(s, v) <==> v !in s
    ensures x != v ==> (x in Toggle(s, v) <==> x in s)
  {
    WithoutMembership(s, v, x);
    WithoutMembership(s, v, v);
  }

  /** Toggling an absent value twice gives back the original list. */
  lemma ToggleTwice<T>(s: seq<T>, v: T)
    requires v !in s
    ensures Toggle(Toggle(s, v), v) == s
  {
    assert v in s + [v];
    WithoutConcat(s, [v], v);
    WithoutAbsent(s, v);
    assert Without([v], v) == [];
  }
}
