/**
 The slice of the DDC/CI world the applet touches: fixed-width integers, the
 display handles produced by enumeration, and the VCP (Virtual Control Panel)
 traffic the applet sends over them.

 The hardware itself is not modelled. What a display answers to a read, and
 whether a write succeeds, are inputs to the operations; what the applet sends
 is recorded as a log of `Io` events, in the order it is sent.
 */
module Ddc {
  import opened Options

  newtype u8 = x: int | 0 <= x < 0x100
  newtype u16 = x: int | 0 <= x < 0x1_0000

  /** VCP code 0x10, Luminance in the VESA Monitor Control Command Set. */
  const BRIGHTNESS_CODE: u8 := 0x10

  /** Identity of the open control channel of one display. */
  type Handle = nat

  /** One display as enumeration reports it: its channel and optional model name. */
  datatype Display = Display(handle: Handle, modelName: Option<string>)

  /** One VCP transaction sent to a display. */
  datatype Io =
    | GetVcp(handle: Handle, code: u8)
    | SetVcp(handle: Handle, code: u8, value: u16)

  /** What a display answers to a write; the applet never looks at it. */
  datatype WriteResult = WriteOk | WriteErr

  /** The new value produced by an operation, and the traffic it sent. */
  datatype Effect<S> = Effect(state: S, io: seq<Io>)

  predicate NoWrites(io: seq<Io>) {
    forall k :: 0 <= k < |io| ==> io[k].GetVcp?
  }

  predicate NoReads(io: seq<Io>) {
    forall k :: 0 <= k < |io| ==> io[k].SetVcp?
  }
}
