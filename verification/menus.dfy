/** The menu bar of the `iui` crate: menus and items may only be created while
    the global `HAS_FINALIZED_MENUS` flag is clear. */
module Menus {
  import opened Wrappers
  import opened Foreign
  import opened Callbacks

  datatype Menu = Menu(ptr: Ptr)
  datatype MenuItem = MenuItem(ptr: Ptr)

  /** What a menu holds, in order. */
  datatype Entry = Item(item: Ptr) | CheckItem(item: Ptr) | Separator

  /** The finalization flag, the menus created, and each menu's entries. */
  datatype MenuBar = MenuBar(finalized: bool, menus: seq<Ptr>, entries: map<Ptr, seq<Entry>>)

  /** `HAS_FINALIZED_MENUS` starts false, and there are no menus yet. */
  const Initial := MenuBar(false, [], map[])

  function EntriesOf(m: MenuBar, menu: Ptr): seq<Entry>
  {
    if menu in m.entries then m.entries[menu] else []
  }

  function AddEntry(m: MenuBar, menu: Ptr, e: Entry): (r: MenuBar)
    ensures EntriesOf(r, menu) == EntriesOf(m, menu) + [e]
    ensures forall other :: other != menu ==> EntriesOf(r, other) == EntriesOf(m, other)
    ensures r.finalized == m.finalized && r.menus == m.menus
  {
    m.(entries := m.entries[menu := EntriesOf(m, menu) + [e]])
  }

  /** `Menu::new`: `None` once menus are finalized; otherwise the menu the
      toolkit created at `p`. The flag is read, never written. */
  function MenuNew(m: MenuBar, p: Ptr): (r: (MenuBar, Option<Menu>))
    ensures r.1.None? <==> m.finalized
    ensures r.1.Some? ==> r.1.value == Menu(p) && r.0.menus == m.menus + [p] && r.0.entries == m.entries
    ensures r.1.None? ==> r.0 == m
    ensures r.0.finalized == m.finalized
  {
    if m.finalized then (m, None)
    else (m.(menus := m.menus + [p]), Some(Menu(p)))
  }

  /** `Menu::append_item`: `None` once menus are finalized; otherwise the item
      the toolkit appended at `p`. */
  function AppendItem(m: MenuBar, menu: Menu, p: Ptr): (r: (MenuBar, Option<MenuItem>))
    ensures r.1.None? <==> m.finalized
    ensures r.1.Some? ==> r.1.value == MenuItem(p) && EntriesOf(r.0, menu.ptr) == EntriesOf(m, menu.ptr) + [Item(p)]
    ensures r.1.None? ==> r.0 == m
    ensures r.0.finalized == m.finalized && r.0.menus == m.menus
    ensures forall o :: o != menu.ptr ==> EntriesOf(r.0, o) == EntriesOf(m, o)
  {
    if m.finalized then (m, None)
    else (AddEntry(m, menu.ptr, Item(p)), Some(MenuItem(p)))
  }

  /** `Menu::append_check_item`: as `append_item`, for a checkable item. */
  function AppendCheckItem(m: MenuBar, menu: Menu, p: Ptr): (r: (MenuBar, Option<MenuItem>))
    ensures r.1.None? <==> m.finalized
    ensures r.1.Some? ==> r.1.value == MenuItem(p) && EntriesOf(r.0, menu.ptr) == EntriesOf(m, menu.ptr) + [CheckItem(p)]
    ensures r.1.None? ==> r.0 == m
    ensures r.0.finalized == m.finalized && r.0.menus == m.menus
    ensures forall o :: o != menu.ptr ==> EntriesOf(r.0, o) == EntriesOf(m, o)
  {
    if m.finalized then (m, None)
    else (AddEntry(m, menu.ptr, CheckItem(p)), Some(MenuItem(p)))
  }

  /** `Menu::append_separator`: not gated by the flag. */
  function AppendSeparator(m: MenuBar, menu: Menu): (r: MenuBar)
    ensures EntriesOf(r, menu.ptr) == EntriesOf(m, menu.ptr) + [Separator]
    ensures r.finalized == m.finalized && r.menus == m.menus
    ensures forall o :: o != menu.ptr ==> EntriesOf(r, o) == EntriesOf(m, o)
  {
    AddEntry(m, menu.ptr, Separator)
  }

  /** The write that finalizes the menus. Nothing in the source performs it;
      the crate's own test expects `Window::new` to, since libui's menus must
      be complete before the first window is built. It is the corrected
      `Window::new`'s effect on the menu bar. */
  function Finalize(m: MenuBar): (r: MenuBar)
    ensures r.finalized && r.menus == m.menus && r.entries == m.entries
  {
    m.(finalized := true)
  }

  /** A call of one of the menu operations, with the pointer the toolkit returns. */
  datatype MenuCall =
    | NewMenu(p: Ptr)
    | NewItem(menu: Menu, p: Ptr)
    | NewCheckItem(menu: Menu, p: Ptr)
    | NewSeparator(menu: Menu)

  function Apply(m: MenuBar, calls: seq<MenuCall>): MenuBar
    decreases |calls|
  {
    if calls == [] then m
    else
      var m1 := match calls[0]
        case NewMenu(p) => MenuNew(m, p).0
        case NewItem(menu, p) => AppendItem(m, menu, p).0
        case NewCheckItem(menu, p) => AppendCheckItem(m, menu, p).0
        case NewSeparator(menu) => AppendSeparator(m, menu);
      Apply(m1, calls[1..])
  }

  /** No menu operation writes the flag, and once it is set no menu is created
      and no item is added, whatever is called. */
  lemma {:induction false} MenuCallsKeepFlag(m: MenuBar, calls: seq<MenuCall>)
    ensures Apply(m, calls).finalized == m.finalized
    ensures m.finalized ==> Apply(m, calls).menus == m.menus
    ensures m.finalized ==> forall menu :: OnlySeparatorsAdded(EntriesOf(m, menu), EntriesOf(Apply(m, calls), menu))
    decreases |calls|
  {
    if calls != [] {
      var m1 := match calls[0]
        case NewMenu(p) => MenuNew(m, p).0
        case NewItem(menu, p) => AppendItem(m, menu, p).0
        case NewCheckItem(menu, p) => AppendCheckItem(m, menu, p).0
        case NewSeparator(menu) => AppendSeparator(m, menu);
      MenuCallsKeepFlag(m1, calls[1..]);
      if m.finalized {
        forall menu
          ensures OnlySeparatorsAdded(EntriesOf(m, menu), EntriesOf(Apply(m, calls), menu))
        {
          var mid := EntriesOf(m1, menu);
          var last := EntriesOf(Apply(m1, calls[1..]), menu);
          assert OnlySeparatorsAdded(EntriesOf(m, menu), mid);
          SeparatorsTransitive(EntriesOf(m, menu), mid, last);
        }
      }
    }
  }

  /** `after` is `before` followed by separators only. */
  ghost predicate OnlySeparatorsAdded(before: seq<Entry>, after: seq<Entry>)
  {
    && |before| <= |after|
    && after[..|before|] == before
    && forall i :: |before| <= i < |after| ==> after[i] == Separator
  }

  lemma SeparatorsTransitive(a: seq<Entry>, b: seq<Entry>, c: seq<Entry>)
    requires OnlySeparatorsAdded(a, b) && OnlySeparatorsAdded(b, c)
    ensures OnlySeparatorsAdded(a, c)
  {
    assert c[..|a|] == c[..|b|][..|a|];
  }

  /** As written: no code writes the flag and `Window::new` leaves the menu bar
      alone, so after the steps of the crate's `cannot_change_menus_late` test,
      or any other sequence of menu calls, a new menu and a new item are still
      accepted. The test's last two assertions fail. */
  lemma MenusNeverFinalize(calls: seq<MenuCall>, menu: Menu, p: Ptr, item: Ptr)
    ensures !Apply(Initial, calls).finalized
    ensures MenuNew(Apply(Initial, calls), p).1 == Some(Menu(p))
    ensures AppendItem(Apply(Initial, calls), menu, item).1 == Some(MenuItem(item))
  {
    MenuCallsKeepFlag(Initial, calls);
  }

  /** The crate's `cannot_change_menus_late` test with the corrected
      `Window::new`: before finalization a menu and an item are created; after
      it, neither is. */
  lemma CannotChangeMenusLate(p: Ptr, item: Ptr, menu2: Ptr, item2: Ptr)
    ensures var (m1, menu) := MenuNew(Initial, p);
            && menu.Some?
            && AppendItem(m1, menu.value, item).1.Some?
            && var m2 := Finalize(AppendItem(m1, menu.value, item).0);
            && MenuNew(m2, menu2).1.None?
            && AppendItem(m2, menu.value, item2).1.None?
  {
  }

  /** `MenuItem::on_clicked`: registers `c_callback::<F>` with a box from
      `to_heap_ptr`; whether `from_void_ptr` frees it is the parameter. */
  function OnMenuClicked(b: Bridge, item: MenuItem, c: Closure, releases: bool): (r: Bridge)
    requires Callbacks.Valid(b)
    ensures Callbacks.Valid(r)
    ensures (item.ptr, MenuClicked) in r.slots
    ensures r.slots[(item.ptr, MenuClicked)].tramp == Helper(releases)
    ensures r.slots[(item.ptr, MenuClicked)].data in r.boxes && r.boxes[r.slots[(item.ptr, MenuClicked)].data] == c
    ensures Callbacks.RegisteredOver(b, r, item.ptr, MenuClicked, c, Helper(releases))
  {
    Register(b, item.ptr, MenuClicked, c, Helper(releases))
  }

  /** The toolkit reporting a click on the item at `item` in the window at
      `window`: the callback sees wrappers rebuilt from exactly those pointers. */
  function MenuClick(b: Bridge, item: Ptr, window: Ptr): Fired
  {
    Trigger(b, item, MenuClicked, [item, window])
  }

  /** A registered menu callback runs with the item and window the toolkit
      passes back, not with the wrapper it was registered through. */
  lemma MenuClickPassesPointers(b: Bridge, item: MenuItem, c: Closure, releases: bool, window: Ptr)
    requires Callbacks.Valid(b)
    ensures MenuClick(OnMenuClicked(b, item, c, releases), item.ptr, window).Fired?
    ensures MenuClick(OnMenuClicked(b, item, c, releases), item.ptr, window).bridge.fired
            == b.fired + [Invocation(c, [item.ptr, window])]
  {
  }
}
