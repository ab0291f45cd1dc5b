/** Box layouts and forms of the `iui` crate: appends that refuse a child which
    already has a parent, and the `padded` flag kept by the toolkit. */
module Layout {
  import opened Wrappers
  import opened Foreign
  import opened Handles

  datatype LayoutStrategy = Compact | Stretchy

  /** The `stretchy` argument a strategy becomes. */
  function IsStretchy(strategy: LayoutStrategy): (r: bool)
    ensures r <==> strategy == Stretchy
  {
    match strategy
    case Compact => false
    case Stretchy => true
  }

  /** `VerticalBox::new`. */
  function VerticalBoxNew(p: Ptr): (r: Wrapper)
    ensures r.kind == "VerticalBox" && r.ptr == p
  {
    FromUiControl("VerticalBox", p)
  }

  /** `HorizontalBox::new`: it returns a `VerticalBox` wrapper around the new
      horizontal box. The methods are shared, so the type only shows in names. */
  function HorizontalBoxNew(p: Ptr): (r: Wrapper)
    ensures r == VerticalBoxNew(p)
  {
    FromUiControl("VerticalBox", p)
  }

  /** The shared `append` helper (and `Form::append`): the child is converted
      into a `Control`, the crate asserts it has no parent, and the toolkit
      appends it with the strategy's `stretchy`. */
  function Append(s: Store, container: Ptr, child: Wrapper, strategy: LayoutStrategy): (r: Outcome<Store>)
    ensures r.Panic? <==> ParentOf(s, child.ptr) != Null
    ensures r.Panic? ==> r.fault == ChildHasParent
    ensures r.Ok? ==> ChildrenOf(r.value, container) == ChildrenOf(s, container) + [Child(child.ptr, strategy == Stretchy)]
    ensures r.Ok? ==> ParentOf(r.value, child.ptr) == container
    ensures r.Ok? ==> forall q :: q != container ==> ChildrenOf(r.value, q) == ChildrenOf(s, q)
    ensures r.Ok? ==> forall q: Ptr :: q != child.ptr ==> ParentOf(r.value, q) == ParentOf(s, q)
    ensures r.Ok? ==> r.value.ints == s.ints
  {
    var control := IntoControl(child);
    if Parent(s, CloneControl(control)).Some? then Panic(ChildHasParent)
    else Ok(AppendChild(s, container, control.ptr, IsStretchy(strategy)))
  }

  /** `padded`: the toolkit's value is nonzero. */
  function Padded(s: Store, container: Ptr): (r: bool)
    ensures r <==> GetInt(s, container, Prop.Padded) != 0
  {
    GetInt(s, container, Prop.Padded) != 0
  }

  /** `set_padded`: the bool goes over as 0 or 1. */
  function SetPadded(s: Store, container: Ptr, padded: bool): (r: Store)
    ensures GetInt(r, container, Prop.Padded) == BoolToInt(padded)
    ensures forall q: Ptr, pr: Prop :: (q, pr) != (container, Prop.Padded) ==> GetInt(r, q, pr) == GetInt(s, q, pr)
    ensures r.parent == s.parent && r.children == s.children
  {
    SetInt(s, container, Prop.Padded, BoolToInt(padded))
  }

  /** Reading `padded` back after setting it gives the value set, and other
      containers are unaffected. */
  lemma PaddedAfterSetPadded(s: Store, container: Ptr, padded: bool, other: Ptr)
    requires other != container
    ensures Padded(SetPadded(s, container, padded), container) == padded
    ensures Padded(SetPadded(s, container, padded), other) == Padded(s, other)
  {
  }

  /** One child appended to two containers: the second append panics. */
  lemma SecondAppendPanics(s: Store, c1: Ptr, c2: Ptr, child: Wrapper, st1: LayoutStrategy, st2: LayoutStrategy)
    requires c1 != Null
    requires Append(s, c1, child, st1).Ok?
    ensures Append(Append(s, c1, child, st1).value, c2, child, st2) == Panic(ChildHasParent)
  {
  }

  /** `Form::count`: the toolkit's child count, unchanged. */
  function FormCount(s: Store, form: Wrapper): (r: int)
    ensures r == |ChildrenOf(s, form.ptr)|
  {
    |ChildrenOf(s, form.ptr)|
  }

  /** `Form::delete`: the index goes to the toolkit unchanged, and the toolkit
      removes the child at that position, which then has no parent. An index
      outside the form's children leaves the store as it was. */
  function FormDelete(s: Store, trace: seq<Call>, form: Wrapper, index: i32): (r: (Store, seq<Call>))
    ensures |r.1| == |trace| + 1 && r.1[..|trace|] == trace
    ensures r.1[|trace|] == UiFormDelete(form.ptr, index)
    ensures 0 <= index < FormCount(s, form) ==> FormCount(r.0, form) == FormCount(s, form) - 1
    ensures 0 <= index < FormCount(s, form) ==> ParentOf(r.0, ChildrenOf(s, form.ptr)[index].ptr) == Null
    ensures 0 <= index < FormCount(s, form) ==>
              ChildrenOf(r.0, form.ptr) == ChildrenOf(s, form.ptr)[..index] + ChildrenOf(s, form.ptr)[index + 1..]
    ensures 0 <= index < FormCount(s, form) ==>
              forall q: Ptr :: q != ChildrenOf(s, form.ptr)[index].ptr ==> ParentOf(r.0, q) == ParentOf(s, q)
    ensures r.0.ints == s.ints
    ensures !(0 <= index < FormCount(s, form)) ==> r.0 == s
    ensures forall q: Ptr :: q != form.ptr ==> ChildrenOf(r.0, q) == ChildrenOf(s, q)
  {
    assert (trace + [UiFormDelete(form.ptr, index)])[..|trace|] == trace;
    var s1 := if 0 <= index < |ChildrenOf(s, form.ptr)| then RemoveChild(s, form.ptr, index) else s;
    (s1, trace + [UiFormDelete(form.ptr, index)])
  }

  /** Each successful append to a form adds one to its count. */
  lemma FormAppendCounts(s: Store, form: Wrapper, child: Wrapper, strategy: LayoutStrategy)
    requires Append(s, form.ptr, child, strategy).Ok?
    ensures FormCount(Append(s, form.ptr, child, strategy).value, form) == FormCount(s, form) + 1
  {
  }

  /** Deleting the control just appended to a form undoes the append: the
      form's children are as before, and the child has no parent, so it can be
      appended again. */
  lemma FormDeleteUndoesAppend(s: Store, trace: seq<Call>, form: Wrapper, child: Wrapper, strategy: LayoutStrategy, again: LayoutStrategy)
    requires FormCount(s, form) < 0x8000_0000 - 1
    requires Append(s, form.ptr, child, strategy).Ok?
    ensures var s1 := Append(s, form.ptr, child, strategy).value;
            var s2 := FormDelete(s1, trace, form, FormCount(s, form)).0;
            && ChildrenOf(s2, form.ptr) == ChildrenOf(s, form.ptr)
            && ParentOf(s2, child.ptr) == Null
            && Append(s2, form.ptr, child, again).Ok?
  {
    var s1 := Append(s, form.ptr, child, strategy).value;
    var n := FormCount(s, form);
    var s2 := FormDelete(s1, trace, form, n).0;
    assert ChildrenOf(s1, form.ptr)[n].ptr == child.ptr;
    assert s2 == RemoveChild(s1, form.ptr, n);
    assert ChildrenOf(s2, form.ptr) == ChildrenOf(s, form.ptr) by {
      forall i | 0 <= i < n
        ensures ChildrenOf(s2, form.ptr)[i] == ChildrenOf(s, form.ptr)[i]
      {
        assert ChildrenOf(s2, form.ptr)[i] == ChildrenOf(s1, form.ptr)[i];
      }
    }
  }
}
