/** A session as the browser drives it: pointer moves and animation frames
    interleaved in any order, each applied to the shared state in turn. */
module Session {
  import opened Settings
  import opened GameState
  import opened Step
  import opened StepProofs

  datatype Event =
    | Pointer(mouseY: real)   // a `mousemove` at this canvas-relative height
    | Frame(draws: Draws)     // one `update` with its random draws

  predicate ValidEvents(es: seq<Event>) {
    forall i :: 0 <= i < |es| ==> (es[i].Frame? ==> ValidDraws(es[i].draws))
  }

  lemma ValidEventsTail(es: seq<Event>)
    requires es != [] && ValidEvents(es)
    ensures ValidEvents(es[1..])
  {
    forall i | 0 <= i < |es[1..]| ensures es[1..][i].Frame? ==> ValidDraws(es[1..][i].draws) {
      assert es[1..][i] == es[i + 1];
    }
  }

  /** Number of frames in an event sequence. */
  function Frames(es: seq<Event>): nat {
    if es == [] then 0 else (if es[0].Frame? then 1 else 0) + Frames(es[1..])
  }

  function Apply(s: State, w: real, h: real, e: Event): State
    requires ValidField(w, h) && (e.Frame? ==> ValidDraws(e.draws))
  {
    match e
    case Pointer(y) => MouseMove(s, h, y)
    case Frame(d) => Update(s, w, h, d)
  }

  /** Applies the events in order; scores never go down along the way. */
  function Run(s: State, w: real, h: real, es: seq<Event>): (t: State)
    requires ValidField(w, h) && ValidEvents(es)
    ensures t.leftScore >= s.leftScore && t.rightScore >= s.rightScore
    decreases |es|
  {
    if es == [] then s
    else
      ValidEventsTail(es);
      Run(Apply(s, w, h, es[0]), w, h, es[1..])
  }

  /** Every state reached from a state satisfying the invariant satisfies it:
      both paddles and the ball stay inside the field. */
  lemma {:induction false} RunInv(s: State, w: real, h: real, es: seq<Event>)
    requires ValidField(w, h) && ValidEvents(es) && Inv(s, w, h)
    ensures Inv(Run(s, w, h, es), w, h)
    decreases |es|
  {
    if es != [] {
      match es[0] {
        case Pointer(y) => MouseMoveInv(s, w, h, y);
        case Frame(d) => UpdateInv(s, w, h, d);
      }
      ValidEventsTail(es);
      RunInv(Apply(s, w, h, es[0]), w, h, es[1..]);
    }
  }

  /** Each frame scores at most one point and pointer moves score none, so
      the total score grows by at most the number of frames. */
  lemma {:induction false} RunScoreBound(s: State, w: real, h: real, es: seq<Event>)
    requires ValidField(w, h) && ValidEvents(es)
    ensures Run(s, w, h, es).leftScore + Run(s, w, h, es).rightScore
         <= s.leftScore + s.rightScore + Frames(es)
    decreases |es|
  {
    if es != [] {
      ValidEventsTail(es);
      RunScoreBound(Apply(s, w, h, es[0]), w, h, es[1..]);
    }
  }

  /** From page load, no sequence of events takes a paddle or the ball
      outside the field. */
  lemma SessionStaysInField(w: real, h: real, dirDraw: real, speedDraw: real, es: seq<Event>)
    requires ValidField(w, h) && IsDraw(dirDraw) && IsDraw(speedDraw) && ValidEvents(es)
    ensures Inv(Run(Initial(w, h, dirDraw, speedDraw), w, h, es), w, h)
  {
    InitialInv(w, h, dirDraw, speedDraw);
    RunInv(Initial(w, h, dirDraw, speedDraw), w, h, es);
  }
}
