/** `ProgressBar` of the `iui` crate: a percentage or "indeterminate", sent to
    the toolkit as one `i32` with -1 standing for indeterminate. */
module ProgressBar {
  import opened Wrappers
  import opened Foreign
  import opened Handles

  datatype ProgressBarValue = Determinate(percent: u32) | Indeterminate

  /** What the bar can actually show: percentages above 100 become 100. */
  function Clamp(v: ProgressBarValue): (r: ProgressBarValue)
    ensures r.Indeterminate? <==> v.Indeterminate?
    ensures r.Determinate? ==> r.percent <= 100 && r.percent <= v.percent
    ensures r.Determinate? ==> (r.percent == v.percent <==> v.percent <= 100)
  {
    match v
    case Indeterminate => Indeterminate
    case Determinate(x) => Determinate(if x > 100 then 100 else x)
  }

  /** The `sys_value` of `set_value`. */
  function Encode(v: ProgressBarValue): (r: i32)
    ensures -1 <= r <= 100
    ensures r == -1 <==> v.Indeterminate?
    ensures v.Determinate? ==> r == Clamp(v).percent
  {
    match v
    case Indeterminate => -1
    case Determinate(x) => if x > 100 then 100 else x
  }

  /** `value`: a negative raw value other than -1 panics, -1 is indeterminate,
      and any other raw value is a percentage. */
  function Decode(raw: i32): (r: Outcome<ProgressBarValue>)
    ensures r.Panic? <==> raw < -1
    ensures r.Panic? ==> r.fault == NegativeProgress
    ensures r.Ok? ==> (r.value.Indeterminate? <==> raw == -1)
    ensures r.Ok? && r.value.Determinate? ==> r.value.percent == raw
  {
    if raw < 0 then
      if raw == -1 then Ok(Indeterminate) else Panic(NegativeProgress)
    else Ok(Determinate(raw))
  }

  /** Decoding an encoded value gives back what the bar can show. */
  lemma DecodeEncode(v: ProgressBarValue)
    ensures Decode(Encode(v)) == Ok(Clamp(v))
  {
  }

  /** Encoding a decoded value gives back the raw value, for every raw value
      `set_value` can produce. */
  lemma EncodeDecode(raw: i32)
    requires -1 <= raw <= 100
    ensures Decode(raw).Ok? && Encode(Decode(raw).value) == raw
  {
  }

  /** `set_value`: stores the encoded value on the toolkit's side. */
  function SetValue(s: Store, bar: Wrapper, v: ProgressBarValue): (r: Store)
    ensures GetInt(r, bar.ptr, ProgressValue) == Encode(v)
    ensures forall q: Ptr, pr: Prop :: (q, pr) != (bar.ptr, ProgressValue) ==> GetInt(r, q, pr) == GetInt(s, q, pr)
    ensures r.parent == s.parent && r.children == s.children
  {
    SetInt(s, bar.ptr, ProgressValue, Encode(v))
  }

  /** `value`: decodes what the toolkit reports. */
  function Value(s: Store, bar: Wrapper): (r: Outcome<ProgressBarValue>)
    requires -0x8000_0000 <= GetInt(s, bar.ptr, ProgressValue) < 0x8000_0000
    ensures r == Decode(GetInt(s, bar.ptr, ProgressValue))
  {
    Decode(GetInt(s, bar.ptr, ProgressValue))
  }

  /** `set_determinate` delegates to `set_value`. */
  function SetDeterminate(s: Store, bar: Wrapper, percent: u32): (r: Store)
    ensures r == SetValue(s, bar, Determinate(percent))
  {
    SetValue(s, bar, Determinate(percent))
  }

  /** `set_indeterminate` delegates to `set_value`. */
  function SetIndeterminate(s: Store, bar: Wrapper): (r: Store)
    ensures r == SetValue(s, bar, Indeterminate)
  {
    SetValue(s, bar, Indeterminate)
  }

  /** `ProgressBar::indeterminate`: a new bar, set indeterminate. */
  function NewIndeterminate(s: Store, p: Ptr): (r: (Store, Wrapper))
    ensures r.1 == FromUiControl("ProgressBar", p)
    ensures GetInt(r.0, p, ProgressValue) == -1
  {
    var bar := FromUiControl("ProgressBar", p);
    (SetIndeterminate(s, bar), bar)
  }

  /** When the toolkit reports the last value set, reading back after setting
      gives the clamped value, never a panic; setting one bar leaves another's
      reading alone. */
  lemma ValueAfterSetValue(s: Store, bar: Wrapper, v: ProgressBarValue, other: Wrapper)
    requires other.ptr != bar.ptr
    requires -0x8000_0000 <= GetInt(s, other.ptr, ProgressValue) < 0x8000_0000
    ensures Value(SetValue(s, bar, v), bar) == Ok(Clamp(v))
    ensures Value(SetValue(s, bar, v), other) == Value(s, other)
  {
    DecodeEncode(v);
  }

  /** A bar made by `indeterminate()` reads back as indeterminate. */
  lemma NewIndeterminateReadsBack(s: Store, p: Ptr)
    ensures var (s1, bar) := NewIndeterminate(s, p);
            Value(s1, bar) == Ok(Indeterminate)
  {
  }
}
