/**
 One external monitor: its display handle and the brightness the applet last
 read from or wrote to it. The cached value is a raw `u16` as the hardware
 reports it; nothing confines it to 0..100.
 */
module Monitors {
  import opened Options
  import opened Ddc

  datatype Monitor = Monitor(display: Display, brightness: u16)

  /** One monitor per enumerated display, in enumeration order, each with a
      zero brightness. Enumeration takes no read answers: it reads nothing. */
  method NewVec(displays: seq<Display>) returns (monitors: seq<Monitor>)
    ensures |monitors| == |displays|
    ensures forall k :: 0 <= k < |monitors| ==> monitors[k].display == displays[k]
    ensures forall k :: 0 <= k < |monitors| ==> monitors[k].brightness == 0
  {
    monitors := [];
    for k := 0 to |displays|
      invariant |monitors| == k
      invariant forall j :: 0 <= j < k ==> monitors[j] == Monitor(displays[j], 0)
    {
      monitors := monitors + [Monitor(displays[k], 0)];
    }
  }

  /** Optimistic update: the cache takes the requested value first, then one
      write of the brightness feature is sent and its answer `write` is dropped. */
  function SetScreenBrightness(m: Monitor, brightness: u16, write: WriteResult): (r: Effect<Monitor>)
    ensures r.state.brightness == brightness
    ensures r.state.display == m.display
    ensures r.io == [SetVcp(m.display.handle, BRIGHTNESS_CODE, brightness)]
  {
    Effect(m.(brightness := brightness), [SetVcp(m.display.handle, BRIGHTNESS_CODE, brightness)])
  }

  /** One read of the brightness feature; `read` is the display's answer
      (`None` when the read fails). */
  function UpdateBrightness(m: Monitor, read: Option<u16>): (r: Effect<Monitor>)
    ensures read.Some? ==> r.state.brightness == read.value
    ensures read.None? ==> r.state.brightness == 0
    ensures r.state.display == m.display
    ensures r.io == [GetVcp(m.display.handle, BRIGHTNESS_CODE)]
  {
    Effect(m.(brightness := read.UnwrapOr(0)), [GetVcp(m.display.handle, BRIGHTNESS_CODE)])
  }
}
