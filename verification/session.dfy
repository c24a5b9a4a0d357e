/**
 A session: the runtime hands the applet one message after another, each
 handled by `Update`. The first panic ends the session. These lemmas lift the
 one-step facts to whole sessions by induction on the number of messages.
 */
module Session {
  import opened Options
  import opened Ddc
  import opened Applet
  import opened AppletProperties

  /** One delivered message together with the world's answers while it is handled. */
  datatype Step = Step(msg: Message, env: Env)

  /** Handles the steps in order, concatenating the I/O logs; stops at the first panic.
      No message ever adds or removes a monitor. */
  function Run(w: Window, steps: seq<Step>): (r: Outcome)
    ensures r.Done? ==> |r.effect.state.monitors| == |w.monitors|
    decreases |steps|
  {
    if |steps| == 0 then Done(Effect(w, []))
    else
      match Update(w, steps[0].msg, steps[0].env)
      case Panicked(p) => Panicked(p)
      case Done(first) =>
        match Run(first.state, steps[1..])
        case Panicked(p) => Panicked(p)
        case Done(rest) => Done(Effect(rest.state, first.io + rest.io))
  }

  lemma NoReadsConcat(a: seq<Io>, b: seq<Io>)
    requires NoReads(a) && NoReads(b)
    ensures NoReads(a + b)
  {
  }

  lemma NoWritesConcat(a: seq<Io>, b: seq<Io>)
    requires NoWrites(a) && NoWrites(b)
    ensures NoWrites(a + b)
  {
  }

  /** Every monitor keeps its display for the whole session. */
  lemma {:induction false} RunKeepsDisplays(w: Window, steps: seq<Step>)
    ensures Run(w, steps).Done? ==>
      forall k :: 0 <= k < |w.monitors| ==>
        Run(w, steps).effect.state.monitors[k].display == w.monitors[k].display
    decreases |steps|
  {
    if |steps| > 0 {
      var u := Update(w, steps[0].msg, steps[0].env);
      if u.Done? {
        RunKeepsDisplays(u.effect.state, steps[1..]);
      }
    }
  }

  /** A session that never toggles the popup never reads a display. */
  lemma {:induction false} RunWithoutTogglePopupNeverReads(w: Window, steps: seq<Step>)
    requires forall j :: 0 <= j < |steps| ==> !steps[j].msg.TogglePopup?
    ensures Run(w, steps).Done? ==> NoReads(Run(w, steps).effect.io)
    decreases |steps|
  {
    if |steps| > 0 {
      var u := Update(w, steps[0].msg, steps[0].env);
      if u.Done? {
        RunWithoutTogglePopupNeverReads(u.effect.state, steps[1..]);
        var rest := Run(u.effect.state, steps[1..]);
        if rest.Done? {
          NoReadsConcat(u.effect.io, rest.effect.io);
        }
      }
    }
  }

  /** A session of popup messages only never writes to a display. */
  lemma {:induction false} RunOfPopupMessagesNeverWrites(w: Window, steps: seq<Step>)
    requires forall j :: 0 <= j < |steps| ==> !steps[j].msg.Indexed()
    ensures Run(w, steps).Done?
    ensures NoWrites(Run(w, steps).effect.io)
    decreases |steps|
  {
    if |steps| > 0 {
      var u := Update(w, steps[0].msg, steps[0].env);
      RunOfPopupMessagesNeverWrites(u.effect.state, steps[1..]);
      NoWritesConcat(u.effect.io, Run(u.effect.state, steps[1..]).effect.io);
    }
  }

  /** The cache stays in 0..100 for a whole session as long as every display
      answers in range and every slider value is in range. */
  lemma {:induction false} RunPreservesRange(w: Window, steps: seq<Step>)
    requires BrightnessInRange(w)
    requires forall j :: 0 <= j < |steps| ==> ReadsInRange(steps[j].env) && WithinSlider(steps[j].msg)
    ensures Run(w, steps).Done? ==> BrightnessInRange(Run(w, steps).effect.state)
    decreases |steps|
  {
    if |steps| > 0 {
      UpdatePreservesRange(w, steps[0].msg, steps[0].env);
      var u := Update(w, steps[0].msg, steps[0].env);
      if u.Done? {
        RunPreservesRange(u.effect.state, steps[1..]);
      }
    }
  }

  /** Since no message changes the number of monitors, a session whose indices
      are all below the initial count never panics. */
  lemma {:induction false} RunInBoundsNeverPanics(w: Window, steps: seq<Step>)
    requires forall j :: 0 <= j < |steps| && steps[j].msg.Indexed() ==> steps[j].msg.index < |w.monitors|
    ensures Run(w, steps).Done?
    decreases |steps|
  {
    if |steps| > 0 {
      var u := Update(w, steps[0].msg, steps[0].env);
      assert u.Done?;
      RunInBoundsNeverPanics(u.effect.state, steps[1..]);
    }
  }
}
