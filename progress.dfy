/**
 * The progress-animation scheduler: every 100ms a timer callback drains the
 * progress channel into the set of animating bars and pulses each of them.
 */
module Progress {
  import opened Types

  /** What one tick leaves behind: the animating set, the events still queued,
      whether the set is pulsed, and whether the timer keeps running. */
  datatype TickResult = TickResult(active: set<ProgressBar>, rest: seq<ActivateEvent>, pulse: bool, cont: bool)

  /** The effect of one Activate or Deactivate on the animating set. */
  function Step(active: set<ProgressBar>, ev: ActivateEvent): set<ProgressBar>
  {
    match ev
    case Activate(w) => active + {w}
    case Deactivate(w) => active - {w}
    case Clear => {}
  }

  /** One tick, following the try_recv loop: `queue` holds the buffered events and
      `disconnected` says whether every sender is gone once they are consumed. */
  function Drain(active: set<ProgressBar>, queue: seq<ActivateEvent>, disconnected: bool): TickResult
    decreases |queue|
  {
    if queue == [] then
      if disconnected then TickResult(active, [], false, false)
      else TickResult(active, [], true, true)
    else if queue[0].Clear? then TickResult({}, queue[1..], false, true)
    else Drain(Step(active, queue[0]), queue[1..], disconnected)
  }

  predicate NoClear(q: seq<ActivateEvent>)
  {
    forall i :: 0 <= i < |q| ==> !q[i].Clear?
  }

  predicate Names(ev: ActivateEvent, w: ProgressBar)
  {
    ev == Activate(w) || ev == Deactivate(w)
  }

  /** Reference definition: `w` animates after the events `q` exactly when the most
      recent event naming it is an Activate, or none names it and it animated before. */
  function AnimatesAfter(active: set<ProgressBar>, q: seq<ActivateEvent>, w: ProgressBar): bool
    decreases |q|
  {
    if q == [] then w in active
    else if q[|q| - 1] == Activate(w) then true
    else if q[|q| - 1] == Deactivate(w) then false
    else AnimatesAfter(active, q[..|q| - 1], w)
  }

  predicate NoDuplicates(s: seq<ProgressBar>)
  {
    forall i, j :: 0 <= i < j < |s| ==> s[i] != s[j]
  }

  /** `pulsed` lists every bar of `active` exactly once. */
  ghost predicate Enumerates(pulsed: seq<ProgressBar>, active: set<ProgressBar>)
  {
    NoDuplicates(pulsed) && forall w :: w in pulsed <==> w in active
  }

  lemma {:induction false} AnimatesAfterFirst(active: set<ProgressBar>, q: seq<ActivateEvent>, w: ProgressBar)
    requires q != [] && !q[0].Clear?
    ensures AnimatesAfter(active, q, w) == AnimatesAfter(Step(active, q[0]), q[1..], w)
    decreases |q|
  {
    if |q| > 1 {
      var init := q[..|q| - 1];
      assert init[0] == q[0];
      assert init[1..] == q[1..][..|q[1..]| - 1];
      AnimatesAfterFirst(active, init, w);
    }
  }

  /** Within a tick that meets no Clear, Activate acts as set insertion and Deactivate
      as set removal: a bar animates afterwards exactly when the last event naming it
      was an Activate (or none named it and it was animating). */
  lemma {:induction false} DrainTracksLastEvent(active: set<ProgressBar>, q: seq<ActivateEvent>, disconnected: bool, w: ProgressBar)
    requires NoClear(q)
    ensures w in Drain(active, q, disconnected).active <==> AnimatesAfter(active, q, w)
    decreases |q|
  {
    if q != [] {
      AnimatesAfterFirst(active, q, w);
      DrainTracksLastEvent(Step(active, q[0]), q[1..], disconnected, w);
    }
  }

  /** Activating a bar twice in a row is the same as activating it once. */
  lemma RepeatedActivateIsNoOp(active: set<ProgressBar>, w: ProgressBar, q: seq<ActivateEvent>, disconnected: bool)
    ensures Drain(active, [Activate(w), Activate(w)] + q, disconnected) == Drain(active, [Activate(w)] + q, disconnected)
  {
    assert ([Activate(w), Activate(w)] + q)[1..] == [Activate(w)] + q;
    assert ([Activate(w)] + q)[1..] == q;
    assert active + {w} + {w} == active + {w};
  }

  /** Deactivating a bar that is not animating changes nothing. */
  lemma DeactivateAbsentIsNoOp(active: set<ProgressBar>, w: ProgressBar, q: seq<ActivateEvent>, disconnected: bool)
    requires w !in active
    ensures Drain(active, [Deactivate(w)] + q, disconnected) == Drain(active, q, disconnected)
  {
    assert ([Deactivate(w)] + q)[1..] == q;
    assert active - {w} == active;
  }

  lemma {:induction false} AnimatesAfterUnnamedSuffix(active: set<ProgressBar>, pre: seq<ActivateEvent>, post: seq<ActivateEvent>, w: ProgressBar)
    requires forall i :: 0 <= i < |post| ==> !Names(post[i], w)
    ensures AnimatesAfter(active, pre + post, w) == AnimatesAfter(active, pre, w)
    decreases |post|
  {
    if post != [] {
      var q := pre + post;
      assert q[..|q| - 1] == pre + post[..|post| - 1];
      assert q[|q| - 1] == post[|post| - 1];
      assert !Names(post[|post| - 1], w);
      assert forall i :: 0 <= i < |post| - 1 ==> post[..|post| - 1][i] == post[i];
      AnimatesAfterUnnamedSuffix(active, pre, post[..|post| - 1], w);
    } else {
      assert pre + post == pre;
    }
  }

  /** A Deactivate that is not followed by another event naming the same bar leaves
      it stopped, whatever Activates came before (matched pairs cancel out). */
  lemma MatchedDeactivateStops(active: set<ProgressBar>, pre: seq<ActivateEvent>, post: seq<ActivateEvent>, w: ProgressBar, disconnected: bool)
    requires NoClear(pre + [Deactivate(w)] + post)
    requires forall i :: 0 <= i < |post| ==> !Names(post[i], w)
    ensures w !in Drain(active, pre + [Deactivate(w)] + post, disconnected).active
  {
    var q := pre + [Deactivate(w)];
    assert q + post == pre + [Deactivate(w)] + post;
    DrainTracksLastEvent(active, q + post, disconnected, w);
    AnimatesAfterUnnamedSuffix(active, q, post, w);
    assert q[..|q| - 1] == pre;
  }

  /** A Clear empties the set and ends the tick at once, still continuing, with no
      pulse; the events after it stay queued for the next tick. */
  lemma {:induction false} ClearEndsTick(active: set<ProgressBar>, pre: seq<ActivateEvent>, post: seq<ActivateEvent>, disconnected: bool)
    requires NoClear(pre)
    ensures Drain(active, pre + [Clear] + post, disconnected) == TickResult({}, post, false, true)
    decreases |pre|
  {
    var q := pre + [Clear] + post;
    if pre == [] {
      assert q == [Clear] + post;
      assert q[1..] == post;
    } else {
      assert q[0] == pre[0];
      assert q[1..] == pre[1..] + [Clear] + post;
      ClearEndsTick(Step(active, pre[0]), pre[1..], post, disconnected);
    }
  }

  /** Without a Clear the tick consumes the whole queue; it pulses and continues while
      the channel is connected, and stops without pulsing once it is disconnected. */
  lemma {:induction false} DrainWithoutClear(active: set<ProgressBar>, q: seq<ActivateEvent>, disconnected: bool)
    requires NoClear(q)
    ensures Drain(active, q, disconnected).rest == []
    ensures Drain(active, q, disconnected).cont == !disconnected
    ensures Drain(active, q, disconnected).pulse == !disconnected
    decreases |q|
  {
    if q != [] {
      DrainWithoutClear(Step(active, q[0]), q[1..], disconnected);
    }
  }

  /** The pulse loop: each animating bar is pulsed once, in the set's iteration order. */
  method PulseAll(active: set<ProgressBar>) returns (pulsed: seq<ProgressBar>)
    ensures Enumerates(pulsed, active)
    ensures |pulsed| == |active|
  {
    pulsed := [];
    var todo := active;
    while todo != {}
      invariant todo <= active
      invariant NoDuplicates(pulsed)
      invariant forall w :: w in pulsed <==> w in active && w !in todo
      invariant |pulsed| + |todo| == |active|
      decreases todo
    {
      var w :| w in todo;
      pulsed := pulsed + [w];
      todo := todo - {w};
    }
  }

  /** The state of progress_handler's timer callback. */
  class ProgressHandler {
    var active: set<ProgressBar>
    var running: bool

    constructor ()
      ensures active == {} && running
    {
      active := {};
      running := true;
    }

    /** One timer tick; returns the events left queued, the bars pulsed and
        whether the timer continues. */
    method Tick(queue: seq<ActivateEvent>, disconnected: bool) returns (rest: seq<ActivateEvent>, pulsed: seq<ProgressBar>, cont: bool)
      requires running
      modifies this
      ensures active == Drain(old(active), queue, disconnected).active
      ensures rest == Drain(old(active), queue, disconnected).rest
      ensures cont == Drain(old(active), queue, disconnected).cont && running == cont
      ensures Drain(old(active), queue, disconnected).pulse ==> Enumerates(pulsed, active)
      ensures !Drain(old(active), queue, disconnected).pulse ==> pulsed == []
    {
      rest := queue;
      while rest != []
        invariant Drain(old(active), queue, disconnected) == Drain(active, rest, disconnected)
        decreases |rest|
      {
        match rest[0] {
          case Activate(w) =>
            active := active + {w};
          case Deactivate(w) =>
            active := active - {w};
          case Clear =>
            active := {};
            rest, pulsed, cont := rest[1..], [], true;
            running := true;
            return;
        }
        rest := rest[1..];
      }
      if disconnected {
        pulsed, cont := [], false;
      } else {
        pulsed := PulseAll(active);
        cont := true;
      }
      running := cont;
    }
  }
}
