/** Handles: every wrapper is a bare foreign pointer. Cloning copies the
    pointer, dropping does nothing, and converting into the generic `Control`
    keeps the pointer. Parent navigation reads and writes the toolkit's own
    parent pointers. */
module Handles {
  import opened Wrappers
  import opened Foreign

  /** The generic `Control` of the `ui` and top-level crates. */
  datatype Control = Control(ptr: Ptr)

  /** A typed wrapper generated by `define_control!` or `define_control_alt!`:
      the control type's name and its one pointer field. */
  datatype Wrapper = Wrapper(kind: string, ptr: Ptr)

  /** `Clone` for a generated wrapper: a new wrapper with the same pointer field. */
  function CloneWrapper(w: Wrapper): Wrapper
  {
    Wrapper(w.kind, w.ptr)
  }

  /** `Clone` for `Control`. */
  function CloneControl(c: Control): Control
  {
    Control(c.ptr)
  }

  /** `Drop` for `Control` and for every generated wrapper: the toolkit's state
      is left exactly as it was. */
  function DropHandle(s: Store, p: Ptr): (r: Store)
    ensures r == s
  {
    s
  }

  /** `from_ui_control`: stores the pointer it is given, without any check. */
  function FromUiControl(kind: string, p: Ptr): (r: Wrapper)
    ensures r.ptr == p && r.kind == kind
  {
    Wrapper(kind, p)
  }

  /** `Control::from_ui_control`. */
  function ControlFromUi(p: Ptr): Control
  {
    Control(p)
  }

  function AsUiControl(c: Control): Ptr
  {
    c.ptr
  }

  /** `Into<Control>`: the pointer is cast and the wrapper forgotten, so no
      destructor runs and the toolkit's state is untouched. */
  function IntoControl(w: Wrapper): (r: Control)
    ensures r.ptr == w.ptr
  {
    Control(w.ptr)
  }

  /** Clones alias: a clone is indistinguishable from the original, wrapping
      a pointer and reading it back returns that pointer, and dropping a clone
      leaves the original's parent, every other parent and the original's
      properties as they were. */
  lemma HandleIdentity(s: Store, w: Wrapper, c: Control, d: Control, p: Ptr)
    ensures CloneWrapper(w) == w && CloneControl(c) == c
    ensures Parent(DropHandle(s, CloneControl(c).ptr), c) == Parent(s, c)
    ensures Parent(DropHandle(s, CloneControl(c).ptr), d) == Parent(s, d)
    ensures forall prop: Prop :: GetInt(DropHandle(s, CloneControl(c).ptr), c.ptr, prop) == GetInt(s, c.ptr, prop)
    ensures AsUiControl(ControlFromUi(p)) == p
    ensures ControlFromUi(AsUiControl(c)) == c
    ensures IntoControl(CloneWrapper(w)) == IntoControl(w)
    ensures AsUiControl(IntoControl(FromUiControl(w.kind, p))) == p
  {
  }

  /** A constructor's wrapper is the control at the toolkit's pointer: a
      parent set through it is seen by any `Control` around that pointer, and
      two constructed wrappers of one kind are equal exactly when their
      pointers are. */
  lemma ConstructedWrapsPointer(s: Store, kind: string, p: Ptr, q: Ptr, parent: Control)
    requires parent.ptr != Null
    ensures AsUiControl(IntoControl(FromUiControl(kind, p))) == p
    ensures Parent(SetParent(s, IntoControl(FromUiControl(kind, p)), Some(parent)), ControlFromUi(p)) == Some(parent)
    ensures FromUiControl(kind, p) == FromUiControl(kind, q) <==> p == q
  {
  }

  /** `Control::parent`: `None` for a null foreign parent, otherwise a
      `Control` around the parent pointer. */
  function Parent(s: Store, c: Control): (r: Option<Control>)
    ensures r.None? <==> ParentOf(s, c.ptr) == Null
    ensures r.Some? ==> r.value.ptr == ParentOf(s, c.ptr)
  {
    var p := ParentOf(s, c.ptr);
    if p == Null then None else Some(Control(p))
  }

  /** The pointer `set_parent` hands the toolkit for an optional parent. */
  function ParentPtr(parent: Option<Control>): Ptr
  {
    match parent
    case None => Null
    case Some(p) => p.ptr
  }

  /** `Control::set_parent`: the toolkit records null for `None` and the
      parent's pointer for `Some`. */
  function SetParent(s: Store, c: Control, parent: Option<Control>): (r: Store)
    ensures ParentOf(r, c.ptr) == (if parent.None? then Null else parent.value.ptr)
    ensures forall q: Ptr :: q != c.ptr ==> ParentOf(r, q) == ParentOf(s, q)
    ensures r.ints == s.ints && r.children == s.children
  {
    s.(parent := s.parent[c.ptr := ParentPtr(parent)])
  }

  /** Reading the parent back after setting it returns what was set, as long
      as a `Some` parent is not the null pointer; other controls keep theirs. */
  lemma ParentAfterSetParent(s: Store, c: Control, parent: Option<Control>, d: Control)
    requires parent.Some? ==> parent.value.ptr != Null
    ensures Parent(SetParent(s, c, parent), c) == parent
    ensures d.ptr != c.ptr ==> Parent(SetParent(s, c, parent), d) == Parent(s, d)
  {
  }

  /** Setting the parent through one alias is seen through every other alias. */
  lemma AliasSeesParent(s: Store, w: Wrapper, parent: Control)
    requires parent.ptr != Null
    ensures Parent(SetParent(s, IntoControl(CloneWrapper(w)), Some(parent)), IntoControl(w)) == Some(parent)
  {
  }

  /** The `ui` crate's `parent`: `ensure_initialized` runs first. Its body is
      not part of this model; `guard` is whether it lets the call through. */
  function CheckedParent(guard: bool, s: Store, c: Control): (r: Outcome<Option<Control>>)
    ensures r.Panic? <==> !guard
    ensures r.Panic? ==> r.fault == NotInitialized
    ensures r.Ok? ==> (r.value.None? <==> ParentOf(s, c.ptr) == Null)
    ensures r.Ok? && r.value.Some? ==> r.value.value.ptr == ParentOf(s, c.ptr)
  {
    if !guard then Panic(NotInitialized) else Ok(Parent(s, c))
  }

  /** The `ui` crate's `set_parent`, behind `ensure_initialized`. */
  function CheckedSetParent(guard: bool, s: Store, c: Control, parent: Option<Control>): (r: Outcome<Store>)
    ensures r.Panic? <==> !guard
    ensures r.Ok? ==> ParentOf(r.value, c.ptr) == ParentPtr(parent)
    ensures r.Ok? ==> forall q: Ptr :: q != c.ptr ==> ParentOf(r.value, q) == ParentOf(s, q)
  {
    if !guard then Panic(NotInitialized) else Ok(SetParent(s, c, parent))
  }

  /** `Control::destroy`: one foreign destroy call. It deliberately skips
      `ensure_initialized`, so it goes through whatever the guard says. */
  function Destroy(trace: seq<Call>, c: Control): (r: seq<Call>)
    ensures |r| == |trace| + 1 && r[..|trace|] == trace
    ensures r[|trace|] == UiControlDestroy(c.ptr)
  {
    trace + [UiControlDestroy(c.ptr)]
  }

  /** `BoxControl::append` of the `ui` crate: after `ensure_initialized` it asserts
      that the child has no parent, then the toolkit appends it. */
  function UiBoxAppend(guard: bool, s: Store, box: Control, child: Control, stretchy: bool): (r: Outcome<Store>)
    ensures r.Panic? <==> !guard || ParentOf(s, child.ptr) != Null
    ensures r.Panic? && guard ==> r.fault == ChildHasParent
    ensures r.Ok? ==> ChildrenOf(r.value, box.ptr) == ChildrenOf(s, box.ptr) + [Child(child.ptr, stretchy)]
    ensures r.Ok? ==> ParentOf(r.value, child.ptr) == box.ptr
    ensures r.Ok? ==> forall q: Ptr :: q != child.ptr ==> ParentOf(r.value, q) == ParentOf(s, q)
    ensures r.Ok? ==> forall q: Ptr :: q != box.ptr ==> ChildrenOf(r.value, q) == ChildrenOf(s, q)
    ensures r.Ok? ==> r.value.ints == s.ints
  {
    if !guard then Panic(NotInitialized)
    else if CheckedParent(guard, s, child).value.Some? then Panic(ChildHasParent)
    else Ok(AppendChild(s, box.ptr, child.ptr, stretchy))
  }

  /** Appending one child to two boxes (or twice to one) panics the second
      time, because the first append gave the child a parent. */
  lemma AppendTwicePanics(s: Store, box1: Control, box2: Control, child: Control, st1: bool, st2: bool)
    requires box1.ptr != Null
    requires UiBoxAppend(true, s, box1, child, st1).Ok?
    ensures UiBoxAppend(true, UiBoxAppend(true, s, box1, child, st1).value, box2, child, st2)
            == Panic(ChildHasParent)
  {
  }
}
