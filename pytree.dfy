/**
  Parameter trees (JAX pytrees) as they reach the checkpoint converter, the leaf walk
  `tree_leaves_with_path`, the precision narrowing `to_int8` and the parameter count
  `calculate_num_params_from_pytree` (MaxText/convert_checkpoint.py).
*/
module PyTree {
  import opened Wrappers

  /** Element types of the arrays stored at the leaves. */
  datatype DType = Float32 | Float16 | BFloat16 | Float64 | Int8 | Int16 | Int32 | Int64 | UInt8 | UInt32 | Bool

  /** An array: its element type, its element count (`jnp.size`) and its values, kept abstract. */
  datatype Tensor<P> = Tensor(dtype: DType, size: nat, payload: P)

  /**
    A pytree: an array, or a container whose children are listed with their keys in the
    order JAX flattens them (for a dict: sorted by key). `Node([])` is an empty container
    such as `{}`.
  */
  datatype Tree<P> = Leaf(tensor: Tensor<P>) | Node(children: seq<(string, Tree<P>)>)

  /** The keys from the root down to a leaf. */
  type Path = seq<string>

  function Concat<X>(ss: seq<seq<X>>): seq<X>
  {
    if ss == [] then [] else Concat(ss[..|ss| - 1]) + ss[|ss| - 1]
  }

  /** The leaves of one child, with the child's key put in front of their paths. */
  function Prefixed<P>(key: string, ls: seq<(Path, Tensor<P>)>): (r: seq<(Path, Tensor<P>)>)
    ensures |r| == |ls|
    ensures forall j :: 0 <= j < |ls| ==> r[j].0 == [key] + ls[j].0 && r[j].1 == ls[j].1
  {
    seq(|ls|, j requires 0 <= j < |ls| => ([key] + ls[j].0, ls[j].1))
  }

  /** `tree_leaves_with_path`: every leaf with its path, depth first, children in order. */
  function Leaves<P>(t: Tree<P>): seq<(Path, Tensor<P>)>
  {
    match t
    case Leaf(x) => [([], x)]
    case Node(cs) => Concat(seq(|cs|, i requires 0 <= i < |cs| => Prefixed(cs[i].0, Leaves(cs[i].1))))
  }

  /** The paths of the leaves, in walk order. */
  function Paths<P>(t: Tree<P>): seq<Path>
  {
    var ls := Leaves(t);
    seq(|ls|, i requires 0 <= i < |ls| => ls[i].0)
  }

  /**
    The function `to_int8` maps over the leaves: a float32 array is cast to int8
    (`astype` keeps the element count; `cast` stands for what it does to the values),
    any other array is returned as it is.
  */
  function NarrowTensor<P>(x: Tensor<P>, cast: P -> P): (r: Tensor<P>)
    ensures r.size == x.size && r.dtype != Float32
    ensures x.dtype == Float32 ==> r.dtype == Int8 && r.payload == cast(x.payload)
    ensures x.dtype != Float32 ==> r == x
  {
    if x.dtype == Float32 then Tensor(Int8, x.size, cast(x.payload)) else x
  }

  /** `to_int8(t)`: `tree_map` of the narrowing over every leaf of `t`. */
  function ToInt8<P>(t: Tree<P>, cast: P -> P): Tree<P>
  {
    match t
    case Leaf(x) => Leaf(NarrowTensor(x, cast))
    case Node(cs) => Node(seq(|cs|, i requires 0 <= i < |cs| => (cs[i].0, ToInt8(cs[i].1, cast))))
  }

  /** The same containers with the same keys in the same order, and leaves where leaves are. */
  predicate SameStructure<P>(a: Tree<P>, b: Tree<P>)
  {
    match a
    case Leaf(_) => b.Leaf?
    case Node(cs) =>
      b.Node? && |b.children| == |cs| &&
      forall i :: 0 <= i < |cs| ==> b.children[i].0 == cs[i].0 && SameStructure(cs[i].1, b.children[i].1)
  }

  /** The walk list after narrowing every leaf in place. */
  function NarrowLeaves<P>(ls: seq<(Path, Tensor<P>)>, cast: P -> P): (r: seq<(Path, Tensor<P>)>)
    ensures |r| == |ls|
  {
    seq(|ls|, i requires 0 <= i < |ls| => (ls[i].0, NarrowTensor(ls[i].1, cast)))
  }

  /** No leaf of `t` is a float32 array. */
  predicate NoFloat32<P>(t: Tree<P>)
  {
    forall i :: 0 <= i < |Leaves(t)| ==> Leaves(t)[i].1.dtype != Float32
  }

  lemma {:induction false} ConcatNarrow<P>(ss: seq<seq<(Path, Tensor<P>)>>, cast: P -> P)
    ensures NarrowLeaves(Concat(ss), cast)
         == Concat(seq(|ss|, i requires 0 <= i < |ss| => NarrowLeaves(ss[i], cast)))
  {
    if ss != [] {
      var init := ss[..|ss| - 1];
      ConcatNarrow(init, cast);
      var mapped := seq(|ss|, i requires 0 <= i < |ss| => NarrowLeaves(ss[i], cast));
      assert mapped[..|ss| - 1] == seq(|init|, i requires 0 <= i < |init| => NarrowLeaves(init[i], cast));
      assert NarrowLeaves(Concat(init) + ss[|ss| - 1], cast)
          == NarrowLeaves(Concat(init), cast) + NarrowLeaves(ss[|ss| - 1], cast);
    }
  }

  /** `to_int8` keeps the tree's structure: the same containers, keys and leaf positions. */
  lemma {:induction false} ToInt8PreservesStructure<P>(t: Tree<P>, cast: P -> P)
    ensures SameStructure(t, ToInt8(t, cast))
  {
    match t
    case Leaf(_) =>
    case Node(cs) =>
      forall i | 0 <= i < |cs| ensures SameStructure(cs[i].1, ToInt8(cs[i].1, cast)) {
        ToInt8PreservesStructure(cs[i].1, cast);
      }
  }

  /** Walking the narrowed tree gives the walk of the original with every leaf narrowed. */
  lemma {:induction false} ToInt8Leaves<P>(t: Tree<P>, cast: P -> P)
    ensures Leaves(ToInt8(t, cast)) == NarrowLeaves(Leaves(t), cast)
  {
    match t
    case Leaf(x) =>
    case Node(cs) =>
      var cs' := ToInt8(t, cast).children;
      var before := seq(|cs|, i requires 0 <= i < |cs| => Prefixed(cs[i].0, Leaves(cs[i].1)));
      var after := seq(|cs'|, i requires 0 <= i < |cs'| => Prefixed(cs'[i].0, Leaves(cs'[i].1)));
      forall i | 0 <= i < |cs| ensures after[i] == NarrowLeaves(before[i], cast) {
        ToInt8Leaves(cs[i].1, cast);
      }
      assert after == seq(|before|, i requires 0 <= i < |before| => NarrowLeaves(before[i], cast));
      ConcatNarrow(before, cast);
  }

  /**
    Leaf by leaf: the same path and element count; a float32 leaf becomes the int8 cast
    of its values, every other leaf is unchanged.
  */
  lemma ToInt8LeafRule<P>(t: Tree<P>, cast: P -> P)
    ensures |Leaves(ToInt8(t, cast))| == |Leaves(t)| && Paths(ToInt8(t, cast)) == Paths(t)
    ensures forall i :: 0 <= i < |Leaves(t)| && Leaves(t)[i].1.dtype == Float32 ==>
              Leaves(ToInt8(t, cast))[i].1 == Tensor(Int8, Leaves(t)[i].1.size, cast(Leaves(t)[i].1.payload))
    ensures forall i :: 0 <= i < |Leaves(t)| && Leaves(t)[i].1.dtype != Float32 ==>
              Leaves(ToInt8(t, cast))[i] == Leaves(t)[i]
  {
    ToInt8Leaves(t, cast);
  }

  /** After `to_int8` no float32 leaf is left. */
  lemma ToInt8NoFloat32<P>(t: Tree<P>, cast: P -> P)
    ensures NoFloat32(ToInt8(t, cast))
  {
    ToInt8Leaves(t, cast);
  }

  /** Narrowing a tree twice is the same as narrowing it once. */
  lemma {:induction false} ToInt8Idempotent<P>(t: Tree<P>, cast: P -> P)
    ensures ToInt8(ToInt8(t, cast), cast) == ToInt8(t, cast)
  {
    match t
    case Leaf(_) =>
    case Node(cs) =>
      var once := ToInt8(t, cast).children;
      var twice := ToInt8(ToInt8(t, cast), cast).children;
      forall i | 0 <= i < |cs| ensures twice[i] == once[i] {
        ToInt8Idempotent(cs[i].1, cast);
      }
      assert twice == once;
  }

  /** The element counts of the leaves, in walk order (`tree_map(jnp.size, params)`). */
  function Sizes<P>(ls: seq<(Path, Tensor<P>)>): (r: seq<nat>)
    ensures |r| == |ls|
  {
    seq(|ls|, i requires 0 <= i < |ls| => ls[i].1.size)
  }

  /** `functools.reduce(lambda x, y: x + y, xs)` on a non-empty list: ((xs[0] + xs[1]) + ...). */
  function FoldLeftAdd(xs: seq<nat>): nat
    requires xs != []
  {
    if |xs| == 1 then xs[0] else FoldLeftAdd(xs[..|xs| - 1]) + xs[|xs| - 1]
  }

  /** `tree_reduce` without an initial value: an empty list of leaves raises a TypeError (None). */
  function ReduceAdd(xs: seq<nat>): Option<nat>
  {
    if xs == [] then None else Some(FoldLeftAdd(xs))
  }

  /** `calculate_num_params_from_pytree(t)`. */
  function NumParams<P>(t: Tree<P>): (r: Option<nat>)
    ensures r.None? <==> Leaves(t) == []
  {
    ReduceAdd(Sizes(Leaves(t)))
  }

  function Sum(xs: seq<nat>): nat
  {
    if xs == [] then 0 else Sum(xs[..|xs| - 1]) + xs[|xs| - 1]
  }

  /** The number of array elements of a tree, counted container by container. */
  function TotalSize<P>(t: Tree<P>): nat
  {
    match t
    case Leaf(x) => x.size
    case Node(cs) => Sum(seq(|cs|, i requires 0 <= i < |cs| => TotalSize(cs[i].1)))
  }

  lemma {:induction false} FoldLeftAddIsSum(xs: seq<nat>)
    requires xs != []
    ensures FoldLeftAdd(xs) == Sum(xs)
  {
    if |xs| > 1 {
      FoldLeftAddIsSum(xs[..|xs| - 1]);
    } else {
      assert xs[..0] == [];
    }
  }

  lemma {:induction false} SumAppend(a: seq<nat>, b: seq<nat>)
    ensures Sum(a + b) == Sum(a) + Sum(b)
  {
    if b != [] {
      assert (a + b)[..|a + b| - 1] == a + b[..|b| - 1];
      SumAppend(a, b[..|b| - 1]);
    } else {
      assert a + b == a;
    }
  }

  lemma {:induction false} SumSizesConcat<P>(ss: seq<seq<(Path, Tensor<P>)>>)
    ensures Sum(Sizes(Concat(ss))) == Sum(seq(|ss|, i requires 0 <= i < |ss| => Sum(Sizes(ss[i]))))
  {
    if ss != [] {
      var init := ss[..|ss| - 1];
      SumSizesConcat(init);
      assert Sizes(Concat(init) + ss[|ss| - 1]) == Sizes(Concat(init)) + Sizes(ss[|ss| - 1]);
      SumAppend(Sizes(Concat(init)), Sizes(ss[|ss| - 1]));
      var sums := seq(|ss|, i requires 0 <= i < |ss| => Sum(Sizes(ss[i])));
      assert sums[..|ss| - 1] == seq(|init|, i requires 0 <= i < |init| => Sum(Sizes(init[i])));
    }
  }

  /** Summing the walk's element counts is counting the tree's elements. */
  lemma {:induction false} SumOfLeafSizes<P>(t: Tree<P>)
    ensures Sum(Sizes(Leaves(t))) == TotalSize(t)
  {
    match t
    case Leaf(x) =>
      assert Sizes(Leaves(t)) == [x.size];
      assert Sum([x.size]) == Sum([]) + x.size;
    case Node(cs) =>
      var ss := seq(|cs|, i requires 0 <= i < |cs| => Prefixed(cs[i].0, Leaves(cs[i].1)));
      SumSizesConcat(ss);
      forall i | 0 <= i < |cs| ensures Sum(Sizes(ss[i])) == TotalSize(cs[i].1) {
        SumOfLeafSizes(cs[i].1);
        assert Sizes(ss[i]) == Sizes(Leaves(cs[i].1));
      }
      assert seq(|ss|, i requires 0 <= i < |ss| => Sum(Sizes(ss[i])))
          == seq(|cs|, i requires 0 <= i < |cs| => TotalSize(cs[i].1));
  }

  /**
    The parameter count is the total number of array elements; a tree without leaves
    has no count (the reduction raises).
  */
  lemma NumParamsIsTotalSize<P>(t: Tree<P>)
    ensures NumParams(t).None? <==> Leaves(t) == []
    ensures Leaves(t) != [] ==> NumParams(t) == Some(TotalSize(t))
  {
    if Leaves(t) != [] {
      FoldLeftAddIsSum(Sizes(Leaves(t)));
      SumOfLeafSizes(t);
    }
  }

  /** `astype` keeps every element count, so narrowing leaves the parameter count unchanged. */
  lemma NumParamsUnchangedByToInt8<P>(t: Tree<P>, cast: P -> P)
    ensures NumParams(ToInt8(t, cast)) == NumParams(t)
  {
    ToInt8Leaves(t, cast);
    assert Sizes(Leaves(ToInt8(t, cast))) == Sizes(Leaves(t));
  }
}
