/**
 The applet's state machine: the popup it may have open, the monitors it
 caches, and the `update` step that reacts to one message. Only the popup and
 monitor messages are modelled; theme, animation and rendering are not.

 Everything the outside world decides during a step (what each display
 answers to a read, what a write returns, which id a new popup gets) arrives
 in an `Env`; the traffic the step sends comes back in the `Effect`.
 */
module Applet {
  import opened Options
  import opened Ddc
  import Monitors

  type PopupId = nat

  datatype Window = Window(popup: Option<PopupId>, monitors: seq<Monitors.Monitor>)

  datatype Message =
    | TogglePopup
    | PopupClosed(id: PopupId)
    | SetScreenBrightness(index: nat, brightness: u16)
    | ToggleMinMaxBrightness(index: nat)
  {
    /** The messages that index into the monitor list. */
    predicate Indexed() {
      SetScreenBrightness? || ToggleMinMaxBrightness?
    }
  }

  /** The outside world's answers during one step: `read(k)` is what the k-th
      monitor answers to a brightness read, `write` what any write returns,
      `freshId` the id a newly opened popup receives. */
  datatype Env = Env(read: nat -> Option<u16>, write: WriteResult, freshId: PopupId)

  /** Indexing past the end of the monitor list aborts the applet. */
  datatype Panic = IndexOutOfBounds(index: nat, len: nat)

  datatype Outcome = Done(effect: Effect<Window>) | Panicked(panic: Panic)

  const ICON_HIGH: string := "cosmic-applet-battery-display-brightness-high-symbolic"
  const ICON_MEDIUM: string := "cosmic-applet-battery-display-brightness-medium-symbolic"
  const ICON_LOW: string := "cosmic-applet-battery-display-brightness-low-symbolic"
  const ICON_OFF: string := "cosmic-applet-battery-display-brightness-off-symbolic"

  datatype Icon = Off | Low | Medium | High {

    function Name(): string {
      match this
      case High => ICON_HIGH
      case Medium => ICON_MEDIUM
      case Low => ICON_LOW
      case Off => ICON_OFF
    }

    /** Position on the dim-to-bright scale. */
    function Rank(): nat {
      match this
      case Off => 0
      case Low => 1
      case Medium => 2
      case High => 3
    }
  }

  /** `w` is what startup builds from `displays`: no popup, one monitor per
      display in order, every brightness 0. */
  predicate Initial(w: Window, displays: seq<Display>) {
    && w.popup == None
    && |w.monitors| == |displays|
    && forall k :: 0 <= k < |w.monitors| ==>
         w.monitors[k].display == displays[k] && w.monitors[k].brightness == 0
  }

  /** The startup window: monitors freshly enumerated, no popup. */
  method Init(displays: seq<Display>) returns (w: Window)
    ensures Initial(w, displays)
    ensures w.popup == None
    ensures |w.monitors| == |displays|
    ensures forall k :: 0 <= k < |w.monitors| ==>
      w.monitors[k].display == displays[k] && w.monitors[k].brightness == 0
  {
    var monitors := Monitors.NewVec(displays);
    w := Window(None, monitors);
  }

  /** Brightness classes: 0, 1..=33, 34..=66, and everything above 66. */
  function BrightnessIcon(brightness: u16): (icon: Icon)
    ensures icon == High <==> 66 < brightness
    ensures icon == Medium <==> 34 <= brightness <= 66
    ensures icon == Low <==> 1 <= brightness <= 33
    ensures icon == Off <==> brightness == 0
  {
    if brightness > 66 then High
    else if brightness > 33 then Medium
    else if brightness > 0 then Low
    else Off
  }

  /** The icon shown in the panel: the first monitor's class, or the brightest
      icon when no monitor was found. */
  function PanelIcon(w: Window): (icon: Icon)
    ensures |w.monitors| == 0 ==> icon == High
    ensures |w.monitors| > 0 ==> icon == BrightnessIcon(w.monitors[0].brightness)
  {
    if |w.monitors| == 0 then High else BrightnessIcon(w.monitors[0].brightness)
  }

  /** Reads every monitor once, first to last, keeping whatever each answers. */
  function RefreshAll(monitors: seq<Monitors.Monitor>, read: nat -> Option<u16>): (r: Effect<seq<Monitors.Monitor>>)
    ensures |r.state| == |monitors|
    ensures forall k :: 0 <= k < |monitors| ==> r.state[k].display == monitors[k].display
    ensures forall k :: 0 <= k < |monitors| ==> r.state[k].brightness == read(k).UnwrapOr(0)
    ensures |r.io| == |monitors|
    ensures forall k :: 0 <= k < |monitors| ==> r.io[k] == GetVcp(monitors[k].display.handle, BRIGHTNESS_CODE)
    decreases |monitors|
  {
    if |monitors| == 0 then Effect([], [])
    else
      var n := |monitors| - 1;
      var done := RefreshAll(monitors[..n], read);
      var last := Monitors.UpdateBrightness(monitors[n], read(n));
      Effect(done.state + [last.state], done.io + last.io)
  }

  /** Closes an open popup without touching any display; otherwise refreshes
      every monitor and then opens a popup with a fresh id. */
  function OnTogglePopup(w: Window, env: Env): (r: Effect<Window>)
    ensures w.popup.Some? ==> r.state.popup == None && r.state.monitors == w.monitors && r.io == []
    ensures w.popup.None? ==> r.state.popup == Some(env.freshId)
    ensures |r.state.monitors| == |w.monitors|
    ensures forall k :: 0 <= k < |w.monitors| ==> r.state.monitors[k].display == w.monitors[k].display
    ensures w.popup.None? ==> forall k :: 0 <= k < |w.monitors| ==>
      r.state.monitors[k].brightness == env.read(k).UnwrapOr(0)
    ensures w.popup.None? ==> |r.io| == |w.monitors| && forall k :: 0 <= k < |w.monitors| ==>
      r.io[k] == GetVcp(w.monitors[k].display.handle, BRIGHTNESS_CODE)
    ensures NoWrites(r.io)
  {
    match w.popup
    case Some(_) => Effect(w.(popup := None), [])
    case None =>
      var refreshed := RefreshAll(w.monitors, env.read);
      Effect(Window(Some(env.freshId), refreshed.state), refreshed.io)
  }

  /** Forgets the popup only when the closed one is the one that is open. */
  function OnPopupClosed(w: Window, id: PopupId): (r: Effect<Window>)
    ensures r.state.monitors == w.monitors && r.io == []
    ensures r.state.popup == None <==> (w.popup == None || w.popup == Some(id))
    ensures r.state.popup.Some? ==> r.state.popup == w.popup
  {
    if w.popup == Some(id) then Effect(w.(popup := None), []) else Effect(w, [])
  }

  /** Sets monitor `i`; the popup and every other monitor stay as they were. */
  function OnSetScreenBrightness(w: Window, i: nat, brightness: u16, write: WriteResult): (r: Effect<Window>)
    requires i < |w.monitors|
    ensures r.state.popup == w.popup
    ensures |r.state.monitors| == |w.monitors|
    ensures r.state.monitors[i].brightness == brightness
    ensures r.state.monitors[i].display == w.monitors[i].display
    ensures forall j :: 0 <= j < |w.monitors| && j != i ==> r.state.monitors[j] == w.monitors[j]
    ensures r.io == [SetVcp(w.monitors[i].display.handle, BRIGHTNESS_CODE, brightness)]
  {
    var written := Monitors.SetScreenBrightness(w.monitors[i], brightness, write);
    Effect(w.(monitors := w.monitors[i := written.state]), written.io)
  }

  /** The toggle policy: fully on from zero, fully off from anything else. */
  function ToggleTarget(brightness: u16): (target: u16)
    ensures target == 100 <==> brightness == 0
    ensures target == 0 <==> brightness != 0
  {
    if brightness == 0 then 100 else 0
  }

  /** Toggles monitor `i` between 0 and 100 through the ordinary set path. */
  function OnToggleMinMax(w: Window, i: nat, write: WriteResult): (r: Effect<Window>)
    requires i < |w.monitors|
    ensures r.state.popup == w.popup
    ensures |r.state.monitors| == |w.monitors|
    ensures w.monitors[i].brightness == 0 ==> r.state.monitors[i].brightness == 100
    ensures w.monitors[i].brightness != 0 ==> r.state.monitors[i].brightness == 0
    ensures r.state.monitors[i].display == w.monitors[i].display
    ensures forall j :: 0 <= j < |w.monitors| && j != i ==> r.state.monitors[j] == w.monitors[j]
    ensures r.io == [SetVcp(w.monitors[i].display.handle, BRIGHTNESS_CODE, r.state.monitors[i].brightness)]
  {
    OnSetScreenBrightness(w, i, ToggleTarget(w.monitors[i].brightness), write)
  }

  /** One `update` step. Only popup toggling reads the displays, only the two
      brightness messages write to them, and an index past the end panics. */
  function Update(w: Window, msg: Message, env: Env): (r: Outcome)
    ensures r.Panicked? <==> msg.Indexed() && msg.index >= |w.monitors|
    ensures r.Panicked? ==> r.panic == IndexOutOfBounds(msg.index, |w.monitors|)
    ensures r.Done? ==> |r.effect.state.monitors| == |w.monitors|
    ensures r.Done? ==> forall k :: 0 <= k < |w.monitors| ==>
      r.effect.state.monitors[k].display == w.monitors[k].display
    ensures r.Done? && !msg.TogglePopup? ==> NoReads(r.effect.io)
    ensures r.Done? && !msg.Indexed() ==> NoWrites(r.effect.io)
    ensures r.Done? && msg.Indexed() ==> |r.effect.io| == 1 && r.effect.state.popup == w.popup
  {
    match msg
    case TogglePopup => Done(OnTogglePopup(w, env))
    case PopupClosed(id) => Done(OnPopupClosed(w, id))
    case SetScreenBrightness(i, b) =>
      if i < |w.monitors| then Done(OnSetScreenBrightness(w, i, b, env.write))
      else Panicked(IndexOutOfBounds(i, |w.monitors|))
    case ToggleMinMaxBrightness(i) =>
      if i < |w.monitors| then Done(OnToggleMinMax(w, i, env.write))
      else Panicked(IndexOutOfBounds(i, |w.monitors|))
  }
}
