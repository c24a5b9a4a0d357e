/**
 Properties that relate several operations of the monitor cache and the
 applet's `update` step: the write answer is irrelevant, the toggle policy
 over two steps, popup round trips, the frame of a brightness message, the
 0..100 range as an invariant that holds only while the hardware cooperates,
 and the concrete two-display session.
 */
module AppletProperties {
  import opened Options
  import opened Ddc
  import opened Monitors
  import opened Applet

  /* ---------- Monitor cache ---------- */

  /** The cache after a set does not depend on whether the write succeeded. */
  lemma SetIgnoresWriteResult(m: Monitor, brightness: u16, a: WriteResult, b: WriteResult)
    ensures Monitors.SetScreenBrightness(m, brightness, a) == Monitors.SetScreenBrightness(m, brightness, b)
  {
  }

  /** Of two sets in a row only the second is visible in the cache. */
  lemma LastSetWins(m: Monitor, first: u16, second: u16, w1: WriteResult, w2: WriteResult)
    ensures Monitors.SetScreenBrightness(Monitors.SetScreenBrightness(m, first, w1).state, second, w2).state
         == Monitors.SetScreenBrightness(m, second, w2).state
  {
  }

  /** A refresh replaces the cache wholesale: what was set before is gone. */
  lemma UpdateOverridesSet(m: Monitor, brightness: u16, write: WriteResult, read: Option<u16>)
    ensures UpdateBrightness(Monitors.SetScreenBrightness(m, brightness, write).state, read).state
         == UpdateBrightness(m, read).state
  {
  }

  /** Reading never writes, and setting never reads. */
  lemma ReadsAndWritesAreSeparate(m: Monitor, read: Option<u16>, brightness: u16, write: WriteResult)
    ensures NoWrites(UpdateBrightness(m, read).io)
    ensures NoReads(Monitors.SetScreenBrightness(m, brightness, write).io)
  {
  }

  /** A reported value above 100 is cached as it is. */
  lemma UpdateDoesNotClamp(m: Monitor)
    ensures UpdateBrightness(m, Some(500)).state.brightness == 500
    ensures UpdateBrightness(m, Some(0xFFFF)).state.brightness == 0xFFFF
  {
  }

  /** A failed read does not keep the previous value: a lit monitor drops to 0. */
  lemma ReadFailureForgetsCache(m: Monitor)
    requires m.brightness != 0
    ensures UpdateBrightness(m, None).state.brightness == 0
    ensures UpdateBrightness(m, None).state.brightness != m.brightness
  {
  }

  /* ---------- Icon classes ---------- */

  /** A brighter value never gets a dimmer icon. */
  lemma BrightnessIconMonotone(a: u16, b: u16)
    requires a <= b
    ensures BrightnessIcon(a).Rank() <= BrightnessIcon(b).Rank()
  {
  }

  /** The four icon names are pairwise different, so the class is visible. */
  lemma IconNamesDistinct(x: Icon, y: Icon)
    requires x != y
    ensures x.Name() != y.Name()
  {
  }

  /* ---------- Brightness messages ---------- */

  /** Setting monitor `i` replaces exactly that monitor's cached value. */
  lemma SetScreenBrightnessFrame(w: Window, i: nat, brightness: u16, env: Env)
    requires i < |w.monitors|
    ensures Update(w, Message.SetScreenBrightness(i, brightness), env)
         == Done(Effect(w.(monitors := w.monitors[i := w.monitors[i].(brightness := brightness)]),
                        [SetVcp(w.monitors[i].display.handle, BRIGHTNESS_CODE, brightness)]))
  {
  }

  /** Toggling twice from 0 restores the window exactly, after writing 100 then 0. */
  lemma ToggleTwiceFromZero(w: Window, i: nat, e1: Env, e2: Env)
    requires i < |w.monitors| && w.monitors[i].brightness == 0
    ensures Update(w, ToggleMinMaxBrightness(i), e1).Done?
    ensures var mid := Update(w, ToggleMinMaxBrightness(i), e1).effect;
            var end := Update(mid.state, ToggleMinMaxBrightness(i), e2);
            && end.Done?
            && end.effect.state == w
            && mid.io + end.effect.io
               == [SetVcp(w.monitors[i].display.handle, BRIGHTNESS_CODE, 100),
                   SetVcp(w.monitors[i].display.handle, BRIGHTNESS_CODE, 0)]
  {
  }

  /** From any lit value a toggle turns the monitor off, and a second toggle
      turns it fully on: the toggle is an involution only at 0 and 100. */
  lemma ToggleFromNonZero(w: Window, i: nat, e1: Env, e2: Env)
    requires i < |w.monitors| && w.monitors[i].brightness != 0
    ensures Update(w, ToggleMinMaxBrightness(i), e1).Done?
    ensures var mid := Update(w, ToggleMinMaxBrightness(i), e1).effect.state;
            && mid.monitors[i].brightness == 0
            && Update(mid, ToggleMinMaxBrightness(i), e2).Done?
            && Update(mid, ToggleMinMaxBrightness(i), e2).effect.state.monitors[i].brightness == 100
  {
  }

  /** A stale index aborts instead of touching any monitor. */
  lemma IndexPastEndPanics(w: Window, msg: Message, env: Env)
    requires msg.Indexed() && msg.index >= |w.monitors|
    ensures Update(w, msg, env) == Panicked(IndexOutOfBounds(msg.index, |w.monitors|))
  {
  }

  /* ---------- Popup ---------- */

  /** Opening then closing the popup by toggling leaves every monitor holding
      what it answered on opening, with only reads sent. */
  lemma PopupOpenCloseRoundTrip(w: Window, e1: Env, e2: Env)
    requires w.popup.None?
    ensures var shown := Update(w, TogglePopup, e1).effect;
            var closed := Update(shown.state, TogglePopup, e2).effect;
            && shown.state.popup == Some(e1.freshId)
            && closed.state.popup == None
            && closed.state.monitors == shown.state.monitors
            && closed.io == []
            && NoWrites(shown.io)
            && |closed.state.monitors| == |w.monitors|
            && forall k :: 0 <= k < |w.monitors| ==>
                 closed.state.monitors[k].brightness == e1.read(k).UnwrapOr(0)
  {
  }

  /** Closing a popup that is not the open one changes nothing. */
  lemma StalePopupClosedIsNoOp(w: Window, id: PopupId, env: Env)
    requires w.popup != Some(id)
    ensures Update(w, PopupClosed(id), env) == Done(Effect(w, []))
  {
  }

  /** After opening the popup the panel shows the class of what the first
      monitor answered, or the brightest icon when there is no monitor. */
  lemma PanelIconAfterOpen(w: Window, env: Env)
    requires w.popup.None?
    ensures var shown := Update(w, TogglePopup, env).effect.state;
            && (|w.monitors| == 0 ==> PanelIcon(shown) == High)
            && (|w.monitors| > 0 ==> PanelIcon(shown) == BrightnessIcon(env.read(0).UnwrapOr(0)))
  {
  }

  /* ---------- The 0..100 range ---------- */

  predicate BrightnessInRange(w: Window) {
    forall k :: 0 <= k < |w.monitors| ==> w.monitors[k].brightness <= 100
  }

  /** Every display answers reads with a value in 0..100. */
  ghost predicate ReadsInRange(env: Env) {
    forall k: nat :: env.read(k).Some? ==> env.read(k).value <= 100
  }

  /** The slider only sends values in 0..100. */
  predicate WithinSlider(msg: Message) {
    msg.SetScreenBrightness? ==> msg.brightness <= 100
  }

  /** The cache stays in 0..100 only as long as the hardware and the slider do:
      the applet itself never clamps. */
  lemma UpdatePreservesRange(w: Window, msg: Message, env: Env)
    requires BrightnessInRange(w) && ReadsInRange(env) && WithinSlider(msg)
    ensures Update(w, msg, env).Done? ==> BrightnessInRange(Update(w, msg, env).effect.state)
  {
  }

  /** A freshly enumerated window is in range, yet one display answering 500
      takes it out of range at the first popup open. */
  lemma UnclampedReadLeavesRange(w: Window, displays: seq<Display>)
    requires Initial(w, displays) && |displays| > 0
    ensures var env := Env(k => Some(500), WriteOk, 1);
            && BrightnessInRange(w)
            && Update(w, TogglePopup, env).Done?
            && !BrightnessInRange(Update(w, TogglePopup, env).effect.state)
  {
  }

  /* ---------- A session with two displays ---------- */

  /** From the startup window of two displays: popup opened with answers 40
      and 75, monitor 0 toggled, monitor 1 set to 0, monitor 1 toggled; a set
      at index 5 then panics. */
  lemma TwoDisplaySession(w0: Window)
    requires Initial(w0, [Display(1, Some("DisplayA")), Display(2, Some("DisplayB"))])
    ensures var a := Display(1, Some("DisplayA"));
            var b := Display(2, Some("DisplayB"));
            var env := Env(k => if k == 0 then Some(40) else Some(75), WriteErr, 7);
            var w1 := Update(w0, TogglePopup, env).effect.state;
            var w2 := Update(w1, ToggleMinMaxBrightness(0), env).effect.state;
            var w3 := Update(w2, Message.SetScreenBrightness(1, 0), env).effect.state;
            var w4 := Update(w3, ToggleMinMaxBrightness(1), env).effect.state;
            && w1 == Window(Some(7), [Monitor(a, 40), Monitor(b, 75)])
            && w2 == Window(Some(7), [Monitor(a, 0), Monitor(b, 75)])
            && w3 == Window(Some(7), [Monitor(a, 0), Monitor(b, 0)])
            && w4 == Window(Some(7), [Monitor(a, 0), Monitor(b, 100)])
            && Update(w4, Message.SetScreenBrightness(5, 50), env) == Panicked(IndexOutOfBounds(5, 2))
  {
  }
}
