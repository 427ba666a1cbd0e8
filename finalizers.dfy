/** The controller's finalizer token and the set arithmetic that Go's
    `sets.String` performs on a finalizer list: build the set from the list,
    insert or delete the token, and emit `List()`, the members in ascending
    order without duplicates. */
module Finalizers {

  /** The token the controller owns. It is declared in another file of the
      controller package; only its being one fixed string matters here. */
  const DeleteFinalizerName: string := "machine.sapcloud.io/machine-controller-manager"

  /** `a <= b` in Go's string order: lexicographic, character by character,
      a proper prefix coming first. */
  predicate Below(a: string, b: string)
  {
    |a| == 0 || (|b| > 0 && (a[0] < b[0] || (a[0] == b[0] && Below(a[1..], b[1..]))))
  }

  /** `a < b` in Go's string order. */
  predicate Before(a: string, b: string)
  {
    Below(a, b) && a != b
  }

  lemma {:induction false} BelowReflexive(a: string)
    ensures Below(a, a)
  {
    if |a| > 0 {
      BelowReflexive(a[1..]);
    }
  }

  lemma {:induction false} BelowAntisymmetric(a: string, b: string)
    requires Below(a, b) && Below(b, a)
    ensures a == b
  {
    if |a| > 0 && |b| > 0 {
      BelowAntisymmetric(a[1..], b[1..]);
      assert a == [a[0]] + a[1..];
      assert b == [b[0]] + b[1..];
    }
  }

  lemma {:induction false} BelowTransitive(a: string, b: string, c: string)
    requires Below(a, b) && Below(b, c)
    ensures Below(a, c)
  {
    if |a| > 0 && a[0] == b[0] && b[0] == c[0] {
      BelowTransitive(a[1..], b[1..], c[1..]);
    }
  }

  lemma {:induction false} BelowTotal(a: string, b: string)
    ensures Below(a, b) || Below(b, a)
  {
    if |a| > 0 && |b| > 0 && a[0] == b[0] {
      BelowTotal(a[1..], b[1..]);
    }
  }

  lemma BeforeTransitive(a: string, b: string, c: string)
    requires Before(a, b) && Before(b, c)
    ensures Before(a, c)
  {
    BelowTransitive(a, b, c);
    if a == c {
      BelowAntisymmetric(a, b);
    }
  }

  lemma BeforeAsymmetric(a: string, b: string)
    requires Before(a, b)
    ensures !Below(b, a)
  {
    if Below(b, a) {
      BelowAntisymmetric(a, b);
    }
  }

  lemma NotBelowIsAfter(a: string, b: string)
    requires !Below(a, b)
    ensures Before(b, a)
  {
    BelowTotal(a, b);
    if a == b {
      BelowReflexive(a);
    }
  }

  /** Ascending and duplicate-free: the shape of `sets.String.List()`. */
  predicate StrictlySorted(s: seq<string>)
  {
    forall i, j :: 0 <= i < j < |s| ==> Before(s[i], s[j])
  }

  lemma HeadBeforeTail(s: seq<string>)
    requires StrictlySorted(s) && s != []
    ensures StrictlySorted(s[1..])
    ensures forall y :: y in s[1..] ==> Before(s[0], y)
  {
    forall y | y in s[1..]
      ensures Before(s[0], y)
    {
      var j :| 0 <= j < |s[1..]| && s[1..][j] == y;
      assert s[j + 1] == y;
    }
  }

  lemma ConsSorted(x: string, t: seq<string>)
    requires StrictlySorted(t)
    requires forall y :: y in t ==> Before(x, y)
    ensures StrictlySorted([x] + t)
  {
    var s := [x] + t;
    forall i, j | 0 <= i < j < |s|
      ensures Before(s[i], s[j])
    {
      assert s[j] == t[j - 1];
      if i > 0 {
        assert s[i] == t[i - 1];
      }
    }
  }

  /** Inserting `x` into an ascending duplicate-free list. */
  function Insert(xs: seq<string>, x: string): (r: seq<string>)
    requires StrictlySorted(xs)
    ensures StrictlySorted(r)
    ensures forall y :: y in r <==> y in xs || y == x
    decreases |xs|
  {
    if xs == [] then [x]
    else if x == xs[0] then xs
    else if Below(x, xs[0]) then
      HeadBeforeTail(xs);
      assert forall y :: y in xs ==> Before(x, y) by {
        forall y | y in xs ensures Before(x, y) {
          if y != xs[0] {
            BeforeTransitive(x, xs[0], y);
          }
        }
      }
      ConsSorted(x, xs);
      [x] + xs
    else
      NotBelowIsAfter(x, xs[0]);
      HeadBeforeTail(xs);
      var t := Insert(xs[1..], x);
      ConsSorted(xs[0], t);
      assert xs == [xs[0]] + xs[1..];
      [xs[0]] + t
  }

  /** Deleting `x` from an ascending duplicate-free list. */
  function Remove(xs: seq<string>, x: string): (r: seq<string>)
    requires StrictlySorted(xs)
    ensures StrictlySorted(r)
    ensures forall y :: y in r <==> y in xs && y != x
    decreases |xs|
  {
    if xs == [] then []
    else
      HeadBeforeTail(xs);
      var t := Remove(xs[1..], x);
      assert xs == [xs[0]] + xs[1..];
      if xs[0] == x then t
      else
        ConsSorted(xs[0], t);
        [xs[0]] + t
  }

  /** `sets.NewString(fs...).List()`: the distinct entries of `fs`, ascending. */
  function Normalize(fs: seq<string>): (r: seq<string>)
    ensures StrictlySorted(r)
    ensures forall y :: y in r <==> y in fs
  {
    if fs == [] then []
    else
      assert fs == fs[..|fs| - 1] + [fs[|fs| - 1]];
      Insert(Normalize(fs[..|fs| - 1]), fs[|fs| - 1])
  }

  /** The list `addAzureMachineClassFinalizers` writes: the set of `fs`
      with the token inserted, as `List()` emits it. */
  function WithToken(fs: seq<string>): (r: seq<string>)
    ensures StrictlySorted(r)
    ensures forall y :: y in r <==> y in fs || y == DeleteFinalizerName
  {
    Insert(Normalize(fs), DeleteFinalizerName)
  }

  /** The list `deleteAzureMachineClassFinalizers` writes: the set of `fs`
      with the token deleted, as `List()` emits it. */
  function WithoutToken(fs: seq<string>): (r: seq<string>)
    ensures StrictlySorted(r)
    ensures forall y :: y in r <==> y in fs && y != DeleteFinalizerName
  {
    Remove(Normalize(fs), DeleteFinalizerName)
  }

  lemma SameMembersBothEmpty(a: seq<string>, b: seq<string>)
    requires forall y :: y in a <==> y in b
    ensures a == [] <==> b == []
  {
    if a != [] {
      assert a[0] in a;
    }
    if b != [] {
      assert b[0] in b;
    }
  }

  /** An ascending duplicate-free list is determined by its members, so the
      lists above are exactly what `List()` returns for those sets, however
      it is computed. */
  lemma {:induction false} SortedUnique(a: seq<string>, b: seq<string>)
    requires StrictlySorted(a) && StrictlySorted(b)
    requires forall y :: y in a <==> y in b
    ensures a == b
  {
    SameMembersBothEmpty(a, b);
    if a != [] {
      HeadBeforeTail(a);
      HeadBeforeTail(b);
      assert a == [a[0]] + a[1..];
      assert b == [b[0]] + b[1..];
      if a[0] != b[0] {
        assert a[0] in a && b[0] in b;
        assert a[0] in b[1..];
        assert b[0] in a[1..];
        BeforeAsymmetric(a[0], b[0]);
        assert false;
      } else {
        forall y
          ensures y in a[1..] <==> y in b[1..]
        {
          if y in a[1..] {
            assert y in a && y != b[0];
          }
          if y in b[1..] {
            assert y in b && y != a[0];
          }
        }
        SortedUnique(a[1..], b[1..]);
      }
    }
  }

  /** Re-normalizing a list that already has the shape of `List()` changes nothing. */
  lemma NormalizeCanonical(fs: seq<string>)
    requires StrictlySorted(fs)
    ensures Normalize(fs) == fs
  {
    SortedUnique(Normalize(fs), fs);
  }

  /** Adding the token twice is adding it once. */
  lemma WithTokenIdempotent(fs: seq<string>)
    ensures WithToken(WithToken(fs)) == WithToken(fs)
  {
    SortedUnique(WithToken(WithToken(fs)), WithToken(fs));
  }

  /** Removing the token twice is removing it once. */
  lemma WithoutTokenIdempotent(fs: seq<string>)
    ensures WithoutToken(WithoutToken(fs)) == WithoutToken(fs)
  {
    SortedUnique(WithoutToken(WithoutToken(fs)), WithoutToken(fs));
  }

  /** Removing the token right after adding it to a list that lacked it leaves
      the list `List()` would emit had the token never been added. */
  lemma WithoutUndoesWith(fs: seq<string>)
    requires DeleteFinalizerName !in fs
    ensures WithoutToken(WithToken(fs)) == Normalize(fs)
  {
    SortedUnique(WithoutToken(WithToken(fs)), Normalize(fs));
  }
}
