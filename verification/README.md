# External monitor brightness applet: the brightness cache and its state machine

This project models the part of the COSMIC panel applet that controls the brightness
of external monitors over DDC/CI. The model has four parts:

- **Monitor cache** (`monitor.dfy`, module `Monitors`). Each `Monitor` pairs a display handle
  with a cached raw `u16` brightness.
  - `NewVec` builds one monitor per enumerated display, each at brightness 0.
  - `SetScreenBrightness` stores the requested value first. It then sends one write of VCP
    code 0x10, Luminance in the VESA Monitor Control Command Set, and ignores the answer.
  - `UpdateBrightness` reads VCP code 0x10 once. It stores the reported value as it is, or 0
    when the read fails.
- **Applet state machine** (`window.dfy`, module `Applet`). A `Window` holds the open popup
  (if any) and the monitors. `Update` reacts to one `Message`:
  - `TogglePopup` closes an open popup, or refreshes every monitor and then opens a popup.
  - `PopupClosed(id)` clears the popup only if `id` is the open one.
  - `SetScreenBrightness(i, b)` sets monitor `i`.
  - `ToggleMinMaxBrightness(i)` sets monitor `i` to 100 from 0 and to 0 from anything else.
  - An index past the end of the list panics.
  - `BrightnessIcon` maps a brightness to one of four icons, and `PanelIcon` picks the panel's
    icon from the first monitor.
- **Properties** (`properties.dfy`, module `AppletProperties`): facts that involve several
  operations.
- **Sessions** (`session.dfy`, module `Session`). `Run` handles a sequence of messages one
  after another, as the runtime delivers them, and stops at the first panic. Its lemmas extend
  the one-step facts to whole sessions by induction.

The DDC/CI hardware is an oracle (`ddc.dfy`, module `Ddc`; Rust's `Option` is in `options.dfy`):

- What a display answers to a read, what a write returns and the id a new popup gets all
  arrive as inputs (`Env`). In `Env`, `read(k)` is the answer of the k-th monitor.
- Every operation returns an `Effect`: the new state plus the log of `GetVcp`/`SetVcp`
  transactions it sent, in order.
- A Rust index panic is the `Panicked(IndexOutOfBounds(..))` outcome rather than a
  precondition, so `Update` accepts every window and message.

## Behaviour of the code worth noting

- **No clamping.** A refresh stores the raw `u16` a display reports (`UpdateDoesNotClamp`,
  `UnclampedReadLeavesRange`). The cache stays in 0..100 only while every display answers in
  range and the slider sends values in range (`UpdatePreservesRange`, `RunPreservesRange`).
- **Failed reads.** A failed read stores 0, the `u16` default, whatever was cached before
  (`ReadFailureForgetsCache`).
- **Toggle.** Toggling a monitor at 40 gives 0. From the startup window of two displays
  answering 40 and 75, the sequence toggle 0, set 1 to 0, toggle 1 gives `[40, 75]`,
  `[0, 75]`, `[0, 0]`, `[0, 100]` (`TwoDisplaySession`).
- **Index errors.** A brightness message whose index is past the end of the list panics
  (`IndexPastEndPanics`).

## Model

| member | source | states |
|---|---|---|
| Monitors.NewVec | src/monitor.rs:11-20 | one monitor per enumerated display, in enumeration order, each at brightness 0; enumeration takes no read answers |
| Monitors.SetScreenBrightness | src/monitor.rs:22-28 | the cache holds the requested value whatever the write returns, the display is kept, and exactly one write of feature 0x10 with that value is sent |
| Monitors.UpdateBrightness | src/monitor.rs:30-37 | exactly one read of feature 0x10; a successful answer is stored unchanged, a failed read stores 0 |
| Applet.Init | src/window.rs:61-73 | the startup window has no popup and holds the freshly enumerated monitors, all at 0 (the predicate `Initial`, which later lemmas start from) |
| Applet.BrightnessIcon | src/window.rs:208-218 | every u16 falls in exactly one class: above 66 high, 34..=66 medium, 1..=33 low, 0 off |
| Applet.PanelIcon | src/window.rs:138-141 | the panel icon is the first monitor's class, or high when there are no monitors |
| Applet.RefreshAll | src/window.rs:85-87 | every monitor keeps its display and takes what it answered (0 on failure); one read per monitor, sent in list order |
| Applet.OnTogglePopup | src/window.rs:81-103 | with a popup open: the popup is cleared, the monitors are unchanged and nothing is sent; otherwise every monitor is refreshed in order and the popup gets the fresh id; never writes |
| Applet.OnPopupClosed | src/window.rs:104-108 | the popup is cleared exactly when the closed id is the open one; the monitors are untouched and nothing is sent |
| Applet.OnSetScreenBrightness | src/window.rs:109-111 | monitor i takes the value and one write for it is sent; the popup and every other monitor are unchanged |
| Applet.ToggleTarget | src/window.rs:114-117 | the toggle target is 100 exactly when the cached value is 0, and 0 exactly when it is not |
| Applet.OnToggleMinMax | src/window.rs:112-118 | monitor i goes 0 to 100 or non-zero to 0 through one write; the popup and other monitors are unchanged |
| Applet.Update | src/window.rs:79-118 | panics exactly for an indexed message past the end of the list; keeps the number of monitors and their displays; only TogglePopup reads, only the two brightness messages write, each with one transaction |
| AppletProperties.SetIgnoresWriteResult | src/monitor.rs:24-27 | the result of a set is the same whether the write succeeds or fails |
| AppletProperties.LastSetWins | src/monitor.rs:22-23 | of two sets in a row the cache shows only the second |
| AppletProperties.UpdateOverridesSet | src/monitor.rs:30-36 | a refresh after a set leaves what the read alone would leave |
| AppletProperties.ReadsAndWritesAreSeparate | src/monitor.rs:22-37 | a refresh sends no write and a set sends no read |
| AppletProperties.UpdateDoesNotClamp | src/monitor.rs:31-35 | reported values 500 and 65535 are cached as they are |
| AppletProperties.ReadFailureForgetsCache | src/monitor.rs:36 | a failed read turns a non-zero cached value into 0 |
| AppletProperties.BrightnessIconMonotone | src/window.rs:209-217 | a larger brightness never gets a dimmer icon |
| AppletProperties.IconNamesDistinct | src/window.rs:22-25 | the four icon names are pairwise different |
| AppletProperties.SetScreenBrightnessFrame | src/window.rs:109-111 | a set at a valid index yields exactly the window with that one monitor's brightness replaced, plus its one write |
| AppletProperties.ToggleTwiceFromZero | src/window.rs:112-118 | from 0, two toggles restore the whole window, after writing 100 and then 0 |
| AppletProperties.ToggleFromNonZero | src/window.rs:114-117 | from any non-zero value a toggle lands on 0, and a second toggle on 100 |
| AppletProperties.IndexPastEndPanics | src/window.rs:110-113 | a brightness message with an index past the end panics |
| AppletProperties.PopupOpenCloseRoundTrip | src/window.rs:81-90 | opening then closing the popup leaves each monitor at what it answered on opening, with only reads sent |
| AppletProperties.StalePopupClosedIsNoOp | src/window.rs:104-108 | closing a popup other than the open one changes nothing and sends nothing |
| AppletProperties.PanelIconAfterOpen | src/window.rs:84-90 | after opening the popup the panel shows the class of the first monitor's answer |
| AppletProperties.UpdatePreservesRange | src/window.rs:79-118 | the cache stays in 0..100 while every answer and every slider value are in 0..100 |
| AppletProperties.UnclampedReadLeavesRange | src/monitor.rs:31-35 | every startup window with at least one display is in 0..100, and leaves it when the first monitor answers 500 at the first popup open |
| Session.Run | src/window.rs:79-118 | a session of messages never adds or removes a monitor |
| Session.RunKeepsDisplays | src/window.rs:79-118 | every monitor keeps its display for a whole session |
| Session.RunWithoutTogglePopupNeverReads | src/window.rs:104-118 | a session without TogglePopup sends no read |
| Session.RunOfPopupMessagesNeverWrites | src/window.rs:81-108 | a session of popup messages only never panics and sends no write |
| Session.RunPreservesRange | src/window.rs:79-118 | the cache stays in 0..100 for a whole session while every answer and slider value is in 0..100 |
| Session.RunInBoundsNeverPanics | src/window.rs:109-118 | a session whose indices are all below the initial monitor count never panics |
| AppletProperties.TwoDisplaySession | src/window.rs:79-118 | from any startup window of two displays answering 40 and 75: open popup, toggle 0, set 1 to 0, toggle 1 give [40,75], [0,75], [0,0], [0,100]; a set at index 5 then panics |

## Left out

- `ddc_hi` calls (`Display::enumerate`, `get_vcp_feature`, `set_vcp_feature`): foreign I2C I/O. Enumeration becomes an input list of displays, reads become `Option<u16>` answers, and writes become `SetVcp` events in the log.
- Display opening failures during enumeration: handled inside `ddc_hi`, so the input list holds only the displays that opened.
- Handle release on re-enumeration: Rust ownership and drop. The applet enumerates only once, at startup.
- `Id::unique`: the fresh popup id is an input (`Env.freshId`). Its uniqueness is not modelled.
- `get_popup` / `destroy_popup` commands, popup settings and size limits: the returned `Command` is compositor plumbing, so `Update` returns only the state and the I/O log.
- `Timeline::new()` on popup open, `Frame`, `ThemeModeConfigChanged`, `SetDarkMode`, `subscription` and `style`: theming and animation, unrelated to brightness.
- `view_window` (sliders, tooltips with the model name, percentage text) and `on_close_requested`: rendering glue. Only the panel icon choice from `view` is modelled.
- `src/main.rs` and the `localize` module: entry point and localisation.
