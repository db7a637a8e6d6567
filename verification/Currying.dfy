/**
 Currying a CLVM program, taking it apart again, and computing its tree hash from hashes alone.
 */
module Currying {
  import opened Hashing
  import opened Clvm
  import opened Results

  const Q := Atom([1])
  const A := Atom([2])
  const C := Atom([4])

  function Quote(t: Tree): Tree {
    Pair(Q, t)
  }

  /** The environment expression `(c (q . a1) (c (q . a2) ... 1))`. */
  function CurriedValues(args: seq<Tree>): Tree {
    if args == [] then Atom([1])
    else Pair(C, Pair(Quote(args[0]), Pair(CurriedValues(args[1..]), NIL)))
  }

  /** `(a (q . mod) env)`. */
  function Curry(mod: Tree, args: seq<Tree>): Tree {
    Pair(A, Pair(Quote(mod), Pair(CurriedValues(args), NIL)))
  }

  function UncurryValues(t: Tree): Option<seq<Tree>> {
    match t
    case Atom(a) => if a == [1] then Some([]) else None
    case Pair(op, Pair(Pair(q, arg), Pair(rest, end))) =>
      if op != C || q != Q || end != NIL then None
      else match UncurryValues(rest) {
             case None => None
             case Some(args) => Some([arg] + args)
           }
    case _ => None
  }

  function Uncurry(t: Tree): Option<(Tree, seq<Tree>)> {
    match t
    case Pair(op, Pair(Pair(q, mod), Pair(env, end))) =>
      if op != A || q != Q || end != NIL then None
      else match UncurryValues(env) {
             case None => None
             case Some(args) => Some((mod, args))
           }
    case _ => None
  }

  lemma {:induction false} UncurryValuesOfCurried(args: seq<Tree>)
    ensures UncurryValues(CurriedValues(args)) == Some(args)
  {
    if args != [] {
      UncurryValuesOfCurried(args[1..]);
      assert [args[0]] + args[1..] == args;
    }
  }

  lemma {:induction false} CurriedValuesOfUncurried(t: Tree)
    requires UncurryValues(t).Some?
    ensures CurriedValues(UncurryValues(t).value) == t
  {
    match t
    case Atom(_) =>
    case Pair(op, Pair(Pair(q, arg), Pair(rest, end))) =>
      CurriedValuesOfUncurried(rest);
      assert ([arg] + UncurryValues(rest).value)[1..] == UncurryValues(rest).value;
  }

  /** Currying and uncurrying undo each other, for argument lists of any length. */
  lemma UncurryIsInverse(t: Tree, mod: Tree, args: seq<Tree>)
    ensures Uncurry(t) == Some((mod, args)) <==> t == Curry(mod, args)
  {
    UncurryValuesOfCurried(args);
    if Uncurry(t) == Some((mod, args)) {
      CurriedValuesOfUncurried(t.r.r.l);
    }
  }

  // ---------------------------------------------------------------- what a curried program does

  /** Evaluates the fragment built of quote, cons and the whole environment. */
  function EvalEnv(e: Tree, env: Tree): Option<Tree> {
    match e
    case Atom(a) => if a == [1] then Some(env) else None
    case Pair(op, operands) =>
      if op == Q then Some(operands)
      else if op == C then
        match operands {
          case Pair(x, Pair(y, end)) =>
            var first, rest := EvalEnv(x, env), EvalEnv(y, env);
            if end == NIL && first.Some? && rest.Some? then Some(Pair(first.value, rest.value)) else None
          case _ => None
        }
      else None
  }

  /** Runs `(a p e)` given the machine `run` that executes a program on an environment. */
  function Apply(run: (Tree, Tree) -> Option<Tree>, t: Tree, env: Tree): Option<Tree> {
    match t
    case Pair(op, Pair(p, Pair(e, end))) =>
      var program, inner := EvalEnv(p, env), EvalEnv(e, env);
      if op == A && end == NIL && program.Some? && inner.Some? then run(program.value, inner.value) else None
    case _ => None
  }

  function Prepend(args: seq<Tree>, env: Tree): Tree {
    if args == [] then env else Pair(args[0], Prepend(args[1..], env))
  }

  lemma {:induction false} CurriedValuesBuildTheEnvironment(args: seq<Tree>, env: Tree)
    ensures EvalEnv(CurriedValues(args), env) == Some(Prepend(args, env))
  {
    if args != [] {
      CurriedValuesBuildTheEnvironment(args[1..], env);
    }
  }

  /** A curried program is the program with its first arguments fixed. */
  lemma CurryIsPartialApplication(run: (Tree, Tree) -> Option<Tree>, mod: Tree, args: seq<Tree>, env: Tree)
    ensures Apply(run, Curry(mod, args), env) == run(mod, Prepend(args, env))
  {
    CurriedValuesBuildTheEnvironment(args, env);
  }

  // ---------------------------------------------------------------- hashes alone

  function Hashes(ts: seq<Tree>): seq<Bytes32> {
    seq(|ts|, i requires 0 <= i < |ts| => TreeHash(ts[i]))
  }

  /** `sha256tree` of `(q . mod)`; the module is already hashed and is not hashed again. */
  function QuotedModHash(modHash: Bytes32): Bytes32 {
    PairTreeHash(Sha256([1, 1]), modHash)
  }

  function CurriedValuesHash(args: seq<Bytes32>): Bytes32 {
    if args == [] then AtomTreeHash([1])
    else
      var quoted := PairTreeHash(AtomTreeHash([1]), args[0]);
      var restThenNil := PairTreeHash(CurriedValuesHash(args[1..]), AtomTreeHash([]));
      PairTreeHash(AtomTreeHash([4]), PairTreeHash(quoted, restThenNil))
  }

  /** The tree hash of a curried program from the hashes of the module and of the bare arguments. */
  function CurryHash(modHash: Bytes32, args: seq<Bytes32>): Bytes32 {
    var valuesThenNil := PairTreeHash(CurriedValuesHash(args), AtomTreeHash([]));
    PairTreeHash(AtomTreeHash([2]), PairTreeHash(QuotedModHash(modHash), valuesThenNil))
  }

  lemma {:induction false} CurriedValuesHashIsTreeHash(args: seq<Tree>)
    ensures CurriedValuesHash(Hashes(args)) == TreeHash(CurriedValues(args))
  {
    hide Sha256;
    if args != [] {
      var rest := CurriedValues(args[1..]);
      CurriedValuesHashIsTreeHash(args[1..]);
      assert Hashes(args)[1..] == Hashes(args[1..]);
      TreeHashOfTriple(C, Quote(args[0]), rest);
      assert TreeHash(Quote(args[0])) == PairTreeHash(AtomTreeHash([1]), Hashes(args)[0]);
    }
  }

  lemma TreeHashOfTriple(x: Tree, y: Tree, z: Tree)
    ensures TreeHash(Pair(x, Pair(y, Pair(z, NIL))))
         == PairTreeHash(TreeHash(x), PairTreeHash(TreeHash(y), PairTreeHash(TreeHash(z), AtomTreeHash([]))))
  {
    assert TreeHash(Pair(z, NIL)) == PairTreeHash(TreeHash(z), AtomTreeHash([]));
    assert TreeHash(Pair(y, Pair(z, NIL))) == PairTreeHash(TreeHash(y), TreeHash(Pair(z, NIL)));
  }

  /** The byte-level computation is the tree hash of the tree that currying builds. */
  lemma CurryHashIsTreeHash(mod: Tree, args: seq<Tree>)
    ensures CurryHash(TreeHash(mod), Hashes(args)) == TreeHash(Curry(mod, args))
  {
    hide Sha256;
    CurriedValuesHashIsTreeHash(args);
    TreeHashOfTriple(A, Quote(mod), CurriedValues(args));
    assert TreeHash(Quote(mod)) == PairTreeHash(AtomTreeHash([1]), TreeHash(mod));
    assert [1] + [1] == [1, 1];
  }

  // ---------------------------------------------------------------- list hashes

  function ListHash(hashes: seq<Bytes32>): Bytes32 {
    if hashes == [] then TreeHash(NIL) else PairTreeHash(hashes[0], ListHash(hashes[1..]))
  }

  /** Folds already hashed items from the back. */
  method TreeHashList(values: seq<Bytes32>) returns (treeHash: Bytes32)
    ensures treeHash == ListHash(values)
  {
    treeHash := TreeHash(NIL);
    var i := |values|;
    while i > 0
      invariant 0 <= i <= |values|
      invariant treeHash == ListHash(values[i..])
    {
      i := i - 1;
      assert values[i..][1..] == values[i + 1..];
      treeHash := Sha256([2] + values[i] + treeHash);
    }
  }

  lemma {:induction false} ListHashIsTreeHash(ts: seq<Tree>)
    ensures ListHash(Hashes(ts)) == TreeHash(ListOf(ts))
  {
    if ts != [] {
      ListHashIsTreeHash(ts[1..]);
      assert Hashes(ts)[1..] == Hashes(ts[1..]);
    }
  }

  // ---------------------------------------------------------------- the singleton wrapper

  /** The two upstream constants; their values are left open. */
  const SINGLETON_MOD: Tree
  const SINGLETON_LAUNCHER_HASH: Bytes32

  function SingletonStruct(launcherId: Bytes32): Tree {
    Pair(Atom(TreeHash(SINGLETON_MOD)), Pair(Atom(launcherId), Atom(SINGLETON_LAUNCHER_HASH)))
  }

  function SingletonFullPuzzleHash(launcherId: Bytes32, innerPuzzleHash: Bytes32): Bytes32 {
    CurryHash(TreeHash(SINGLETON_MOD), [TreeHash(SingletonStruct(launcherId)), innerPuzzleHash])
  }

  /** The wrapper hash is that of the wrapped puzzle, whichever puzzle has the inner hash. */
  lemma SingletonHashIsWrappedTree(launcherId: Bytes32, inner: Tree)
    ensures SingletonFullPuzzleHash(launcherId, TreeHash(inner))
         == TreeHash(Curry(SINGLETON_MOD, [SingletonStruct(launcherId), inner]))
  {
    hide Sha256, TreeHash, CurriedValues, CurriedValuesHash, Curry, CurryHash;
    var args := [SingletonStruct(launcherId), inner];
    CurryHashIsTreeHash(SINGLETON_MOD, args);
    assert Hashes(args) == [TreeHash(SingletonStruct(launcherId)), TreeHash(inner)];
  }

  /** Equal full puzzle hashes of two wrapped puzzles mean one launcher and one inner puzzle. */
  lemma SingletonHashBinds(launcher: Bytes32, inner: Tree, launcher': Bytes32, inner': Tree)
    requires SingletonFullPuzzleHash(launcher, TreeHash(inner)) == SingletonFullPuzzleHash(launcher', TreeHash(inner'))
    ensures
      || (launcher == launcher' && inner == inner')
      || Collision(Curry(SINGLETON_MOD, [SingletonStruct(launcher), inner]),
                   Curry(SINGLETON_MOD, [SingletonStruct(launcher'), inner']))
  {
    var args, args' := [SingletonStruct(launcher), inner], [SingletonStruct(launcher'), inner'];
    SingletonHashIsWrappedTree(launcher, inner);
    SingletonHashIsWrappedTree(launcher', inner');
    TreeHashBinds(Curry(SINGLETON_MOD, args), Curry(SINGLETON_MOD, args'));
    if Curry(SINGLETON_MOD, args) == Curry(SINGLETON_MOD, args') {
      UncurryIsInverse(Curry(SINGLETON_MOD, args), SINGLETON_MOD, args);
      UncurryIsInverse(Curry(SINGLETON_MOD, args'), SINGLETON_MOD, args');
      assert args[0] == args'[0] && args[1] == args'[1];
    }
  }
}
