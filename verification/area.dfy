/** Drawing areas: the `Modifiers` bit set, decoding of the toolkit's mouse and
    key event records (identical in `src/controls.rs` and both `area.rs` files;
    the `ui` crate checks initialization first), the handler's defaults, and the
    trampolines that reach the leaked handler box. */
module Area {
  import opened Wrappers
  import opened Foreign
  import opened Callbacks
  import opened Handles

  /** `Modifiers`, a `u8` bit set with exactly four flags. */
  datatype Modifiers = Modifiers(ctrl: bool, alt: bool, shift: bool, superKey: bool)

  const Ctrl: u8 := 1
  const Alt: u8 := 2
  const Shift: u8 := 4
  const Super: u8 := 8

  /** `Modifiers::bits`. */
  function Bits(m: Modifiers): (r: u8)
    ensures r < 16
    ensures (r % 2 == 1) == m.ctrl && ((r / 2) % 2 == 1) == m.alt
    ensures ((r / 4) % 2 == 1) == m.shift && (r / 8 == 1) == m.superKey
  {
    (if m.ctrl then Ctrl else 0) + (if m.alt then Alt else 0)
    + (if m.shift then Shift else 0) + (if m.superKey then Super else 0)
  }

  /** `Modifiers::from_bits`: `None` when a bit outside the four flags is set. */
  function FromBits(b: u8): (r: Option<Modifiers>)
    ensures r.Some? <==> b < 16
  {
    if b >= 16 then None
    else Some(Modifiers(b % 2 == 1, (b / 2) % 2 == 1, (b / 4) % 2 == 1, b / 8 == 1))
  }

  /** Encoding then decoding gives the same set back. */
  lemma FromBitsOfBits(m: Modifiers)
    ensures FromBits(Bits(m)) == Some(m)
  {
  }

  /** Decoding then encoding gives the same byte back, for every byte that decodes. */
  lemma BitsOfFromBits(b: u8)
    requires b < 16
    ensures Bits(FromBits(b).value) == b
  {
  }

  /** The toolkit's `uiAreaMouseEvent`, without its floating-point fields. */
  datatype RawMouse = RawMouse(down: int, up: int, count: int, modifiers: int, held: int)

  /** `AreaMouseEvent`, without its floating-point fields. */
  datatype MouseEvent = MouseEvent(down: int, up: int, count: int, modifiers: Modifiers, held: int)

  /** The toolkit's `uiAreaKeyEvent`. */
  datatype RawKey = RawKey(key: int, extKey: nat, modifier: int, modifiers: int, up: int)

  /** `AreaKeyEvent`. */
  datatype KeyEvent = KeyEvent(key: u8, extKey: nat, modifier: Modifiers, modifiers: Modifiers, up: bool)

  /** `Modifiers::from_bits(x as u8).unwrap()`: the `c_int` is cut to its low
      byte, and a bit outside the four flags panics. */
  function DecodeModifiers(x: int): (r: Outcome<Modifiers>)
    ensures r.Ok? <==> AsU8(x) < 16
    ensures r.Panic? ==> r.fault == UnknownModifierBits
    ensures r.Ok? ==> Bits(r.value) == AsU8(x)
  {
    match FromBits(AsU8(x))
    case None => Panic(UnknownModifierBits)
    case Some(m) => BitsOfFromBits(AsU8(x)); Ok(m)
  }

  /** `AreaMouseEvent::from_ui_area_mouse_event`. */
  function DecodeMouse(raw: RawMouse): (r: Outcome<MouseEvent>)
    ensures r.Ok? <==> AsU8(raw.modifiers) < 16
    ensures r.Panic? ==> r.fault == UnknownModifierBits
    ensures r.Ok? ==> Bits(r.value.modifiers) == AsU8(raw.modifiers)
    ensures r.Ok? ==> r.value.down == raw.down && r.value.up == raw.up && r.value.count == raw.count
    ensures r.Ok? ==> r.value.held == raw.held
  {
    match DecodeModifiers(raw.modifiers)
    case Panic(f) => Panic(f)
    case Ok(m) => Ok(MouseEvent(raw.down, raw.up, raw.count, m, raw.held))
  }

  /** `AreaKeyEvent::from_ui_area_key_event`: both modifier fields are checked
      the same way, the key is cut to a byte, and `up` is "nonzero". */
  function DecodeKey(raw: RawKey): (r: Outcome<KeyEvent>)
    ensures r.Ok? <==> AsU8(raw.modifier) < 16 && AsU8(raw.modifiers) < 16
    ensures r.Panic? ==> r.fault == UnknownModifierBits
    ensures r.Ok? ==> r.value.key == AsU8(raw.key) && r.value.extKey == raw.extKey
    ensures r.Ok? ==> Bits(r.value.modifier) == AsU8(raw.modifier)
    ensures r.Ok? ==> Bits(r.value.modifiers) == AsU8(raw.modifiers)
    ensures r.Ok? ==> (r.value.up <==> raw.up != 0)
  {
    match DecodeModifiers(raw.modifier)
    case Panic(f) => Panic(f)
    case Ok(m1) =>
      match DecodeModifiers(raw.modifiers)
      case Panic(f) => Panic(f)
      case Ok(m2) => Ok(KeyEvent(AsU8(raw.key), raw.extKey, m1, m2, raw.up != 0))
  }

  /** The `ui` crate's mouse decoding checks initialization first. */
  function UiDecodeMouse(guard: bool, raw: RawMouse): (r: Outcome<MouseEvent>)
    ensures !guard ==> r == Panic(NotInitialized)
    ensures guard ==> r == DecodeMouse(raw)
  {
    if !guard then Panic(NotInitialized) else DecodeMouse(raw)
  }

  /** The `ui` crate's key decoding checks initialization first. */
  function UiDecodeKey(guard: bool, raw: RawKey): (r: Outcome<KeyEvent>)
    ensures !guard ==> r == Panic(NotInitialized)
    ensures guard ==> r == DecodeKey(raw)
  {
    if !guard then Panic(NotInitialized) else DecodeKey(raw)
  }

  /** Only the low byte of a modifier field is looked at: 0x100 decodes as the
      empty set, 0x101 as Ctrl, and -1 (all bits) panics. */
  lemma ModifierTruncation()
    ensures DecodeModifiers(0x100) == Ok(Modifiers(false, false, false, false))
    ensures DecodeModifiers(0x101) == Ok(Modifiers(true, false, false, false))
    ensures DecodeModifiers(0x10) == Panic(UnknownModifierBits)
    ensures DecodeModifiers(-1) == Panic(UnknownModifierBits)
  {
  }

  /** An `AreaHandler` implementation as far as the bindings can tell: which
      handler box it is, and what its `key_event` answers when it overrides it. */
  datatype Handler = Handler(id: nat, keyAnswer: Option<bool>)

  /** The trait's defaults: `key_event` answers true; the others do nothing. */
  function KeyAnswer(h: Handler): (r: bool)
    ensures h.keyAnswer.None? ==> r
    ensures h.keyAnswer.Some? ==> r == h.keyAnswer.value
  {
    match h.keyAnswer
    case None => true
    case Some(a) => a
  }

  /** `Area::new`: the handler is boxed, given to the toolkit, and leaked; the
      trampolines borrow it. */
  function AreaNew(b: Bridge, p: Ptr, h: Handler): (r: (Bridge, Wrapper))
    requires Callbacks.Valid(b)
    ensures Callbacks.Valid(r.0)
    ensures r.1 == Wrapper("Area", p)
    ensures (p, AreaEvents) in r.0.slots && r.0.slots[(p, AreaEvents)].tramp == Borrowing
    ensures r.0.slots[(p, AreaEvents)].data in r.0.boxes && r.0.boxes[r.0.slots[(p, AreaEvents)].data] == User(h.id)
    ensures Callbacks.RegisteredOver(b, r.0, p, AreaEvents, User(h.id), Borrowing)
  {
    (Register(b, p, AreaEvents, User(h.id), Borrowing), FromUiControl("Area", p))
  }

  /** The `ui` crate's `Area::new` checks initialization first. */
  function UiAreaNew(guard: bool, b: Bridge, p: Ptr, h: Handler): (r: Outcome<(Bridge, Wrapper)>)
    requires Callbacks.Valid(b)
    ensures r.Panic? <==> !guard
    ensures r.Ok? ==> r.value == AreaNew(b, p, h)
  {
    if !guard then Panic(NotInitialized) else Ok(AreaNew(b, p, h))
  }

  /** The mouse trampoline: decode, then run the handler on an `Area` rebuilt
      from the incoming pointer. */
  function MouseTrampoline(b: Bridge, area: Ptr, raw: RawMouse): (r: Outcome<Fired>)
    ensures r.Panic? <==> DecodeMouse(raw).Panic?
    ensures r.Ok? ==> r.value == Trigger(b, area, AreaEvents, [area])
  {
    match DecodeMouse(raw)
    case Panic(f) => Panic(f)
    case Ok(_) => Ok(Trigger(b, area, AreaEvents, [area]))
  }

  datatype KeyDispatch = KeyDispatch(fired: Fired, code: i32)

  /** The key trampoline: decode, run the handler, and answer its bool as a
      `c_int`. The bridge records only which box a handler is, so `h` is the
      handler that was registered for `area` through `AreaNew`, passed by the
      caller. */
  function KeyTrampoline(b: Bridge, area: Ptr, h: Handler, raw: RawKey): (r: Outcome<KeyDispatch>)
    ensures r.Panic? <==> DecodeKey(raw).Panic?
    ensures r.Ok? ==> r.value.fired == Trigger(b, area, AreaEvents, [area])
    ensures r.Ok? ==> (r.value.code == 1 <==> KeyAnswer(h)) && (r.value.code == 0 <==> !KeyAnswer(h))
  {
    match DecodeKey(raw)
    case Panic(f) => Panic(f)
    case Ok(_) => Ok(KeyDispatch(Trigger(b, area, AreaEvents, [area]), BoolToInt(KeyAnswer(h))))
  }

  /** A handler that overrides `key_event` decides the answer: 1 when it says
      it handled the key, 0 otherwise. */
  lemma OverridingHandlerDecidesKeys(b: Bridge, p: Ptr, id: nat, answer: bool, raw: RawKey)
    requires AsU8(raw.modifier) < 16 && AsU8(raw.modifiers) < 16
    ensures KeyTrampoline(b, p, Handler(id, Some(answer)), raw).Ok?
    ensures KeyTrampoline(b, p, Handler(id, Some(answer)), raw).value.code == BoolToInt(answer)
  {
  }

  /** A handler that keeps the default `key_event` makes every well-formed key
      event answer 1 ("handled"), and the handler box survives any number of
      events. */
  lemma DefaultHandlerClaimsKeys(b: Bridge, p: Ptr, id: nat, raw: RawKey, n: nat)
    requires Callbacks.Valid(b)
    requires AsU8(raw.modifier) < 16 && AsU8(raw.modifiers) < 16
    ensures var b1 := AreaNew(b, p, Handler(id, None)).0;
            && KeyTrampoline(b1, p, Handler(id, None), raw).Ok?
            && KeyTrampoline(b1, p, Handler(id, None), raw).value.code == 1
            && TriggerTimes(b1, p, AreaEvents, [p], n).Fired?
            && TriggerTimes(b1, p, AreaEvents, [p], n).bridge.fired == b.fired + Repeat(Invocation(User(id), [p]), n)
  {
    var b1 := AreaNew(b, p, Handler(id, None)).0;
    BorrowedFiresEveryTime(b1, p, AreaEvents, [p], n);
  }
}
