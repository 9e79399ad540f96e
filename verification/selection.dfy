/**
 * Selection lists keyed by id, as the options and moral-value screens keep
 * them: `some` to test for an id, `filter` to drop every entry with that id,
 * and a toggle that removes a present id or appends a new entry at the end.
 */
module Selection {

  /** `xs.some(y => key(y) === k)`. */
  predicate HasKey<T>(xs: seq<T>, key: T -> string, k: string) {
    exists i | 0 <= i < |xs| :: key(xs[i]) == k
  }

  /** No two entries of `xs` share a key. */
  predicate UniqueKeys<T>(xs: seq<T>, key: T -> string) {
    forall i, j | 0 <= i < j < |xs| :: key(xs[i]) != key(xs[j])
  }

  /** `xs.filter(y => key(y) !== k)`: the entries whose key is not `k`,
      in their original order. */
  function Without<T>(xs: seq<T>, key: T -> string, k: string): (r: seq<T>)
    ensures forall i | 0 <= i < |r| :: r[i] in xs && key(r[i]) != k
    ensures forall i | 0 <= i < |xs| && key(xs[i]) != k :: xs[i] in r
    ensures !HasKey(r, key, k)
    ensures |r| <= |xs|
    ensures HasKey(xs, key, k) ==> |r| < |xs|
    decreases |xs|
  {
    if |xs| == 0 then []
    else
      var rest := Without(xs[1..], key, k);
      assert HasKey(xs, key, k) && key(xs[0]) != k ==> HasKey(xs[1..], key, k) by {
        if HasKey(xs, key, k) && key(xs[0]) != k {
          var i :| 0 <= i < |xs| && key(xs[i]) == k;
          assert key(xs[1..][i - 1]) == k;
        }
      }
      assert xs == [xs[0]] + xs[1..];
      if key(xs[0]) == k then rest else [xs[0]] + rest
  }

  /** Dropping the entries with key `k` from a list that has none changes nothing. */
  lemma {:induction false} WithoutAbsent<T>(xs: seq<T>, key: T -> string, k: string)
    requires !HasKey(xs, key, k)
    ensures Without(xs, key, k) == xs
    decreases |xs|
  {
    if |xs| > 0 {
      assert key(xs[0]) != k;
      forall i | 0 <= i < |xs| - 1 ensures key(xs[1..][i]) != k {
        assert xs[1..][i] == xs[i + 1];
      }
      WithoutAbsent(xs[1..], key, k);
      assert xs == [xs[0]] + xs[1..];
    }
  }

  /** The filter works piecewise: it keeps the order of the entries it keeps. */
  lemma {:induction false} WithoutAppend<T>(a: seq<T>, b: seq<T>, key: T -> string, k: string)
    ensures Without(a + b, key, k) == Without(a, key, k) + Without(b, key, k)
    decreases |a|
  {
    if |a| == 0 {
      assert a + b == b;
    } else {
      var ab := a + b;
      assert ab[1..] == a[1..] + b;
      assert ab[0] == a[0];
      WithoutAppend(a[1..], b, key, k);
      var w := Without(a[1..] + b, key, k);
      if key(a[0]) == k {
        assert Without(ab, key, k) == w;
      } else {
        assert Without(ab, key, k) == [a[0]] + w;
      }
    }
  }

  /** Toggling by key: when some entry already has `x`'s key, every entry
      with that key is removed; otherwise `x` is appended at the end. */
  function Toggle<T>(xs: seq<T>, key: T -> string, x: T): (r: seq<T>)
    ensures HasKey(r, key, key(x)) <==> !HasKey(xs, key, key(x))
    ensures !HasKey(xs, key, key(x)) ==> r == xs + [x]
    ensures HasKey(xs, key, key(x)) ==>
              && |r| < |xs|
              && (forall i | 0 <= i < |r| :: r[i] in xs && key(r[i]) != key(x))
              && (forall i | 0 <= i < |xs| && key(xs[i]) != key(x) :: xs[i] in r)
    ensures Without(r, key, key(x)) == Without(xs, key, key(x))
  {
    var k := key(x);
    if HasKey(xs, key, k) then
      var r := Without(xs, key, k);
      WithoutAbsent(r, key, k);
      r
    else
      var r := xs + [x];
      assert key(r[|xs|]) == k;
      WithoutAppend(xs, [x], key, k);
      assert Without([x], key, k) == [];
      r
  }

  /** Toggling an entry whose key is not yet selected, then toggling it
      again, restores the original list. */
  lemma ToggleTwice<T>(xs: seq<T>, key: T -> string, x: T)
    requires !HasKey(xs, key, key(x))
    ensures Toggle(Toggle(xs, key, x), key, x) == xs
  {
    var k := key(x);
    WithoutAppend(xs, [x], key, k);
    WithoutAbsent(xs, key, k);
    assert Without([x], key, k) == [];
  }

  /** Toggling anything other than the first entry leaves the first entry
      first: selection order is insertion order. */
  lemma ToggleKeepsHead<T>(xs: seq<T>, key: T -> string, x: T)
    requires |xs| > 0 && key(xs[0]) != key(x)
    ensures |Toggle(xs, key, x)| > 0 && Toggle(xs, key, x)[0] == xs[0]
  {
    if HasKey(xs, key, key(x)) {
      assert xs == [xs[0]] + xs[1..];
      WithoutAppend([xs[0]], xs[1..], key, key(x));
    }
  }
}
