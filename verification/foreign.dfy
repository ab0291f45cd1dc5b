/** The foreign toolkit as the bindings see it: opaque pointers, C integer widths,
    the ordered record of foreign calls, and a store of per-object state. */
module Foreign {

  /** An opaque foreign pointer; 0 is the null pointer. */
  type Ptr = nat

  const Null: Ptr := 0

  /** C integer types the bindings convert between. */
  type u8 = x: int | 0 <= x < 0x100
  type i32 = x: int | -0x8000_0000 <= x < 0x8000_0000
  type u32 = x: int | 0 <= x < 0x1_0000_0000

  /** Rust's `x as u8`: keep the low byte in two's complement. Dafny's `%` is
      Euclidean, so this is right for negative `x` as well. */
  function AsU8(x: int): (r: u8)
    ensures (r - x) % 0x100 == 0
  {
    x % 0x100
  }

  /** Rust's `b as c_int` for a bool. */
  function BoolToInt(b: bool): (r: i32)
    ensures r == 0 || r == 1
    ensures (r != 0) == b
  {
    if b then 1 else 0
  }

  /** Calls into the toolkit, and the bindings' own global-flag writes, in the
      order a run performs them. */
  datatype Call =
    | UiInit
    | UiUninit
    | UiFreeInitError
    | UiControlDestroy(p: Ptr)
    | FlagSet
    | FlagCleared
    | UiFormDelete(form: Ptr, index: int)

  /** Integer-valued properties the toolkit keeps per object. */
  datatype Prop = Margined | Padded | ProgressValue

  /** A child as a container holds it: its pointer and whether it stretches. */
  datatype Child = Child(ptr: Ptr, stretchy: bool)

  /** Per-object state held on the foreign side: each object's parent pointer
      (absent means null) and its integer properties (absent means 0), plus the
      children a container received through an append call. */
  datatype Store = Store(
    parent: map<Ptr, Ptr>,
    ints: map<(Ptr, Prop), int>,
    children: map<Ptr, seq<Child>>)

  const EmptyStore := Store(map[], map[], map[])

  function ParentOf(s: Store, p: Ptr): Ptr
  {
    if p in s.parent then s.parent[p] else Null
  }

  function GetInt(s: Store, p: Ptr, prop: Prop): int
  {
    if (p, prop) in s.ints then s.ints[(p, prop)] else 0
  }

  function SetInt(s: Store, p: Ptr, prop: Prop, v: int): (r: Store)
    ensures GetInt(r, p, prop) == v
    ensures forall q: Ptr, pr: Prop :: (q, pr) != (p, prop) ==> GetInt(r, q, pr) == GetInt(s, q, pr)
    ensures r.parent == s.parent && r.children == s.children
  {
    s.(ints := s.ints[(p, prop) := v])
  }

  function ChildrenOf(s: Store, p: Ptr): seq<Child>
  {
    if p in s.children then s.children[p] else []
  }

  /** What the toolkit does on a container append: the child goes to the end of
      the container's list and its parent becomes the container. */
  function AppendChild(s: Store, container: Ptr, child: Ptr, stretchy: bool): (r: Store)
    ensures ChildrenOf(r, container) == ChildrenOf(s, container) + [Child(child, stretchy)]
    ensures ParentOf(r, child) == container
    ensures forall q: Ptr :: q != child ==> ParentOf(r, q) == ParentOf(s, q)
    ensures forall q: Ptr :: q != container ==> ChildrenOf(r, q) == ChildrenOf(s, q)
    ensures r.ints == s.ints
  {
    Store(s.parent[child := container], s.ints,
          s.children[container := ChildrenOf(s, container) + [Child(child, stretchy)]])
  }

  /** What the toolkit does on a container delete: the child at `index` leaves
      the container's list, the others keep their order, and it has no parent. */
  function RemoveChild(s: Store, container: Ptr, index: nat): (r: Store)
    requires index < |ChildrenOf(s, container)|
    ensures var kids := ChildrenOf(s, container);
            && |ChildrenOf(r, container)| == |kids| - 1
            && (forall i :: 0 <= i < index ==> ChildrenOf(r, container)[i] == kids[i])
            && (forall i :: index < i < |kids| ==> ChildrenOf(r, container)[i - 1] == kids[i])
            && ChildrenOf(r, container) == kids[..index] + kids[index + 1..]
    ensures ParentOf(r, ChildrenOf(s, container)[index].ptr) == Null
    ensures forall q: Ptr :: q != ChildrenOf(s, container)[index].ptr ==> ParentOf(r, q) == ParentOf(s, q)
    ensures forall q: Ptr :: q != container ==> ChildrenOf(r, q) == ChildrenOf(s, q)
    ensures r.ints == s.ints
  {
    var kids := ChildrenOf(s, container);
    Store(s.parent[kids[index].ptr := Null], s.ints,
          s.children[container := kids[..index] + kids[index + 1..]])
  }

  /** The number of times `x` occurs in `xs`. */
  function Count<T(==)>(xs: seq<T>, x: T): (n: nat)
    ensures n <= |xs|
  {
    if xs == [] then 0 else (if xs[0] == x then 1 else 0) + Count(xs[1..], x)
  }

  lemma {:induction false} CountAppend<T>(xs: seq<T>, ys: seq<T>, x: T)
    ensures Count(xs + ys, x) == Count(xs, x) + Count(ys, x)
  {
    if xs == [] {
      assert xs + ys == ys;
    } else {
      assert (xs + ys)[1..] == xs[1..] + ys;
      CountAppend(xs[1..], ys, x);
    }
  }
}
