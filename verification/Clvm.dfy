/**
 CLVM trees, their tree hash, and integers as atoms.
 */
module Clvm {
  import opened Hashing
  import opened Results

  datatype Tree = Atom(a: Bytes) | Pair(l: Tree, r: Tree)

  const NIL := Atom([])

  /** `sha256tree`: atoms are hashed behind a 1, pairs behind a 2. */
  function TreeHash(t: Tree): Bytes32 {
    match t
    case Atom(a) => AtomTreeHash(a)
    case Pair(l, r) => PairTreeHash(TreeHash(l), TreeHash(r))
  }

  function AtomTreeHash(a: Bytes): Bytes32 {
    Sha256([1] + a)
  }

  function PairTreeHash(left: Bytes32, right: Bytes32): Bytes32 {
    Sha256([2] + left + right)
  }

  /** `x` is one of the byte strings that are hashed while the tree hash of `t` is computed. */
  predicate Hashed(x: Bytes, t: Tree) {
    match t
    case Atom(a) => x == [1] + a
    case Pair(l, r) => x == [2] + TreeHash(l) + TreeHash(r) || Hashed(x, l) || Hashed(x, r)
  }

  /** Two different strings with one digest are hashed on the way to the two tree hashes. */
  ghost predicate Collision(s: Tree, t: Tree) {
    exists x, y :: Hashed(x, s) && Hashed(y, t) && Clash(x, y)
  }

  /** A tree hash binds its tree, or a collision can be read off the two computations. */
  lemma {:induction false} TreeHashBinds(s: Tree, t: Tree)
    requires TreeHash(s) == TreeHash(t)
    ensures s == t || Collision(s, t)
  {
    hide Sha256;
    match (s, t)
    case (Atom(a), Atom(b)) =>
      assert Hashed([1] + a, s) && Hashed([1] + b, t);
      if [1] + a == [1] + b {
        SplitEqual([1], a, [1], b);
      }
    case (Pair(l, r), Pair(l', r')) =>
      var x, y := [2] + TreeHash(l) + TreeHash(r), [2] + TreeHash(l') + TreeHash(r');
      assert Hashed(x, s) && Hashed(y, t);
      if x == y {
        SplitEqual([2] + TreeHash(l), TreeHash(r), [2] + TreeHash(l'), TreeHash(r'));
        SplitEqual([2], TreeHash(l), [2], TreeHash(l'));
        TreeHashBinds(l, l');
        TreeHashBinds(r, r');
      }
    case (Atom(a), Pair(l, r)) =>
      assert Hashed([1] + a, s) && Hashed([2] + TreeHash(l) + TreeHash(r), t);
      assert ([1] + a)[0] != ([2] + TreeHash(l) + TreeHash(r))[0];
    case (Pair(l, r), Atom(a)) =>
      assert Hashed([2] + TreeHash(l) + TreeHash(r), s) && Hashed([1] + a, t);
      assert ([1] + a)[0] != ([2] + TreeHash(l) + TreeHash(r))[0];
  }

  // ---------------------------------------------------------------- proper lists

  function ListOf(ts: seq<Tree>): Tree {
    if ts == [] then NIL else Pair(ts[0], ListOf(ts[1..]))
  }

  /** Reads a nil-terminated list; anything else is refused, as iterating over it is. */
  function Items(t: Tree): Option<seq<Tree>> {
    match t
    case Atom(a) => if a == [] then Some([]) else None
    case Pair(l, r) =>
      match Items(r)
      case None => None
      case Some(rest) => Some([l] + rest)
  }

  lemma {:induction false} ItemsOfList(ts: seq<Tree>)
    ensures Items(ListOf(ts)) == Some(ts)
  {
    if ts != [] {
      ItemsOfList(ts[1..]);
      assert [ts[0]] + ts[1..] == ts;
    }
  }

  lemma {:induction false} ListOfItems(t: Tree)
    requires Items(t).Some?
    ensures ListOf(Items(t).value) == t
  {
    match t
    case Atom(_) =>
    case Pair(l, r) =>
      ListOfItems(r);
      assert ([l] + Items(r).value)[1..] == Items(r).value;
  }

  /** Two field lists with one tree hash are the same fields, or there is a collision. */
  lemma FieldsBind(xs: seq<Tree>, ys: seq<Tree>)
    requires TreeHash(ListOf(xs)) == TreeHash(ListOf(ys))
    ensures xs == ys || Collision(ListOf(xs), ListOf(ys))
  {
    TreeHashBinds(ListOf(xs), ListOf(ys));
    ItemsOfList(xs);
    ItemsOfList(ys);
  }

  // ---------------------------------------------------------------- integers

  function Digits(n: int): Bytes
    decreases if n < 0 then -n else n
  {
    if -128 <= n < 128 then [n % 256] else Digits(n / 256) + [n % 256]
  }

  /** Big-endian two's complement in as few bytes as possible; zero is the empty atom. */
  function IntToAtom(n: int): Bytes {
    if n == 0 then [] else Digits(n)
  }

  function Signed(b: byte): int {
    if b < 128 then b else b - 256
  }

  function AtomToInt(a: Bytes): int {
    if a == [] then 0
    else if |a| == 1 then Signed(a[0])
    else 256 * AtomToInt(a[..|a| - 1]) + a[|a| - 1]
  }

  /** No leading byte can be dropped without changing the number. */
  predicate Minimal(a: Bytes) {
    && (|a| == 1 ==> a[0] != 0)
    && (|a| > 1 ==> !(a[0] == 0 && a[1] < 128) && !(a[0] == 255 && a[1] >= 128))
  }

  function IntTree(n: int): Tree {
    Atom(IntToAtom(n))
  }

  lemma {:induction false} DigitsRoundTrip(n: int)
    ensures Digits(n) != [] && AtomToInt(Digits(n)) == n
    decreases if n < 0 then -n else n
  {
    if !(-128 <= n < 128) {
      DigitsRoundTrip(n / 256);
      assert Digits(n)[..|Digits(n)| - 1] == Digits(n / 256);
    }
  }

  lemma IntRoundTrip(n: int)
    ensures AtomToInt(IntToAtom(n)) == n
  {
    DigitsRoundTrip(n);
  }

  lemma {:induction false} DigitsMinimal(n: int)
    ensures |Digits(n)| > 1 ==> Minimal(Digits(n))
    ensures |Digits(n)| == 1 <==> -128 <= n < 128
    decreases if n < 0 then -n else n
  {
    if !(-128 <= n < 128) {
      DigitsMinimal(n / 256);
      DigitsRoundTrip(n / 256);
    }
  }

  lemma DigitsStep(n: int, last: byte)
    requires n == 0 ==> last >= 128
    requires n == -1 ==> last < 128
    ensures Digits(256 * n + last) == Digits(n) + [last]
  {
    var m := 256 * n + last;
    assert m / 256 == n && m % 256 == last;
    assert !(-128 <= m < 128);
  }

  lemma {:induction false} MinimalDigits(a: Bytes)
    requires |a| > 1 ==> Minimal(a)
    requires a != []
    ensures Digits(AtomToInt(a)) == a
  {
    hide Digits;
    if |a| == 1 {
      OneDigit(a[0]);
    } else {
      var front, last := a[..|a| - 1], a[|a| - 1];
      assert |front| > 1 ==> front[0] == a[0] && front[1] == a[1];
      MinimalDigits(front);
      DigitsMinimal(AtomToInt(front));
      DigitsStep(AtomToInt(front), last);
    }
  }

  lemma OneDigit(b: byte)
    ensures Digits(Signed(b)) == [b]
  {
  }

  /** An atom is the encoding of the integer it denotes exactly when it is minimal. */
  lemma AtomIsCanonical(a: Bytes)
    ensures IntToAtom(AtomToInt(a)) == a <==> Minimal(a)
  {
    var n := AtomToInt(a);
    DigitsMinimal(n);
    DigitsRoundTrip(n);
    if Minimal(a) && a != [] {
      MinimalDigits(a);
    }
  }

  lemma IntTreeInjective(m: int, n: int)
    requires IntTree(m) == IntTree(n)
    ensures m == n
  {
    IntRoundTrip(m);
    IntRoundTrip(n);
  }
}
