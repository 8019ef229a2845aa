/** The observable effects of one execution step, in the order they happen. Logging is
    not modelled except for the one anomaly the step checks for, so that its
    reachability can be stated. */
module Effects {
  import opened Uint64
  import opened Messages

  /** Opaque identity of a configured post-processing callback. */
  type ProcessorID = string

  /** Name of the cluster-wide channel the primary publishes results on. */
  const ClusterChannel: string := "cluster-primary"

  datatype Effect =
    | OutOfOrderLogged(lastExecuted: Uint, sequence: Uint)
    // The executor receives only `requestID` and `request`; `digest` and `sequence`
    // label the call with the commit that triggered it, so that runs can be checked
    // for exactly-once execution and gap-free order.
    | ExecutorCalled(digest: Digest, sequence: Uint, requestID: RequestID, request: ExecRequest)
    | TimerStopped
    | TimerStarted
    | PostProcessed(processor: ProcessorID, requestID: RequestID, origin: PeerId, request: ExecRequest, result: ExecResult)
    | Published(channel: string, payload: Bytes)
    // A send attempt to `to`, recorded whatever the transport returned.
    | Sent(to: PeerId, message: ExecuteResponse)

  /** No effect in `effects` is a call to the workload executor. */
  predicate NoCalls(effects: seq<Effect>)
  {
    forall i :: 0 <= i < |effects| ==> !effects[i].ExecutorCalled?
  }

  /** The executor invocations recorded in `effects`, in order. */
  function Calls(effects: seq<Effect>): (r: seq<Effect>)
    ensures forall i :: 0 <= i < |r| ==> r[i].ExecutorCalled?
  {
    if |effects| == 0 then []
    else (if effects[0].ExecutorCalled? then [effects[0]] else []) + Calls(effects[1..])
  }

  /** The post-processor invocations recorded in `effects`, in order. */
  function PostCalls(effects: seq<Effect>): (r: seq<Effect>)
    ensures forall i :: 0 <= i < |r| ==> r[i].PostProcessed?
  {
    if |effects| == 0 then []
    else (if effects[0].PostProcessed? then [effects[0]] else []) + PostCalls(effects[1..])
  }

  /** Filtering the post-processor invocations out of a concatenation filters each part. */
  lemma {:induction false} PostCallsAppend(a: seq<Effect>, b: seq<Effect>)
    ensures PostCalls(a + b) == PostCalls(a) + PostCalls(b)
    decreases |a|
  {
    if |a| > 0 {
      assert (a + b)[1..] == a[1..] + b;
      PostCallsAppend(a[1..], b);
    } else {
      assert a + b == b;
    }
  }

  /** Filtering a log of post-processor invocations only keeps all of it, and filtering
      a log with none of them keeps nothing. */
  lemma {:induction false} PostCallsOfKind(effects: seq<Effect>)
    ensures (forall i :: 0 <= i < |effects| ==> effects[i].PostProcessed?) ==> PostCalls(effects) == effects
    ensures (forall i :: 0 <= i < |effects| ==> !effects[i].PostProcessed?) ==> PostCalls(effects) == []
    decreases |effects|
  {
    if |effects| > 0 {
      PostCallsOfKind(effects[1..]);
      assert effects == [effects[0]] + effects[1..];
    }
  }

  /** A log without executor calls records none. */
  lemma {:induction false} CallsOfNone(effects: seq<Effect>)
    requires NoCalls(effects)
    ensures Calls(effects) == []
    decreases |effects|
  {
    if |effects| > 0 {
      CallsOfNone(effects[1..]);
    }
  }

  /** Filtering the executor calls out of a concatenation filters each part. */
  lemma {:induction false} CallsAppend(a: seq<Effect>, b: seq<Effect>)
    ensures Calls(a + b) == Calls(a) + Calls(b)
    decreases |a|
  {
    if |a| > 0 {
      assert (a + b)[1..] == a[1..] + b;
      CallsAppend(a[1..], b);
    } else {
      assert a + b == b;
    }
  }

  /** An effect log with exactly one executor call in it records that call alone. */
  lemma CallsAroundOne(before: seq<Effect>, call: Effect, after: seq<Effect>)
    requires NoCalls(before) && NoCalls(after) && call.ExecutorCalled?
    ensures Calls(before + [call] + after) == [call]
  {
    CallsAppend(before + [call], after);
    CallsAppend(before, [call]);
    CallsOfNone(before);
    CallsOfNone(after);
    assert Calls([call]) == [call] + Calls([]);
  }

  /** Whether an effect concerns the request timer. */
  predicate IsTimer(e: Effect)
  {
    e.TimerStopped? || e.TimerStarted?
  }

  /** Whether an effect hands the result to its consumers: a publication, or a send
      attempt that may have failed. */
  predicate IsDelivery(e: Effect)
  {
    e.Published? || e.Sent?
  }

  /** The effect log of an executing step: an optional warning, the executor call, the
      timer, the post-processors and the delivery, in that order. */
  function Layout(warn: seq<Effect>, call: Effect, timer: seq<Effect>, post: seq<Effect>, delivered: seq<Effect>): (e: seq<Effect>)
  {
    warn + [call] + timer + post + delivered
  }

  /** The kinds of the parts of an executing step's effect log. */
  predicate WellKinded(warn: seq<Effect>, call: Effect, timer: seq<Effect>, post: seq<Effect>, delivered: seq<Effect>)
  {
    && (forall i :: 0 <= i < |warn| ==> warn[i].OutOfOrderLogged?)
    && call.ExecutorCalled?
    && (forall i :: 0 <= i < |timer| ==> IsTimer(timer[i]))
    && (forall i :: 0 <= i < |post| ==> post[i].PostProcessed?)
    && (forall i :: 0 <= i < |delivered| ==> IsDelivery(delivered[i]))
  }

  /** Every effect after the executor call comes from the timer, the post-processors or
      the delivery. */
  lemma LayoutTail(warn: seq<Effect>, call: Effect, timer: seq<Effect>, post: seq<Effect>, delivered: seq<Effect>, i: int)
    requires WellKinded(warn, call, timer, post, delivered)
    requires |warn| < i < |Layout(warn, call, timer, post, delivered)|
    ensures var x := Layout(warn, call, timer, post, delivered)[i];
      IsTimer(x) || x.PostProcessed? || IsDelivery(x)
    ensures var x := Layout(warn, call, timer, post, delivered)[i];
      IsTimer(x) ==> x in timer
  {
  }

  /** The executing step's effect log records exactly one executor call. */
  lemma LayoutCalls(warn: seq<Effect>, call: Effect, timer: seq<Effect>, post: seq<Effect>, delivered: seq<Effect>)
    requires WellKinded(warn, call, timer, post, delivered)
    ensures Calls(Layout(warn, call, timer, post, delivered)) == [call]
  {
    var after := timer + post + delivered;
    assert Layout(warn, call, timer, post, delivered) == warn + [call] + after;
    assert NoCalls(after) by {
      forall i | 0 <= i < |after|
        ensures !after[i].ExecutorCalled?
      {
        LayoutTail(warn, call, timer, post, delivered, i + |warn| + 1);
      }
    }
    CallsAroundOne(warn, call, after);
  }

  /** What can be read off an executing step's effect log from the kinds of its parts. */
  lemma LayoutFacts(warn: seq<Effect>, call: Effect, timer: seq<Effect>, post: seq<Effect>, delivered: seq<Effect>)
    requires WellKinded(warn, call, timer, post, delivered)
    ensures var e := Layout(warn, call, timer, post, delivered);
      && Calls(e) == [call]
      && (forall i :: 0 <= i < |e| ==> (e[i].OutOfOrderLogged? <==> i < |warn|))
      && (forall x :: x in e && IsTimer(x) ==> x in timer)
      && (forall x :: x in post ==> x in e)
      && (forall x :: x in timer ==> x in e)
      && |delivered| <= |e|
      && e[|e| - |delivered|..] == delivered
  {
    var e := Layout(warn, call, timer, post, delivered);
    LayoutCalls(warn, call, timer, post, delivered);
    forall i | 0 <= i < |e|
      ensures e[i].OutOfOrderLogged? <==> i < |warn|
    {
      if i < |warn| {
        assert e[i] == warn[i];
      } else if i > |warn| {
        LayoutTail(warn, call, timer, post, delivered, i);
      }
    }
    forall x | x in e && IsTimer(x)
      ensures x in timer
    {
      var i :| 0 <= i < |e| && e[i] == x;
      if i > |warn| {
        LayoutTail(warn, call, timer, post, delivered, i);
      }
    }
    forall x | x in post
      ensures x in e
    {
      var j :| 0 <= j < |post| && post[j] == x;
      assert e[|warn| + 1 + |timer| + j] == x;
    }
    forall x | x in timer
      ensures x in e
    {
      var j :| 0 <= j < |timer| && timer[j] == x;
      assert e[|warn| + 1 + j] == x;
    }
    assert e == (warn + [call] + timer + post) + delivered;
  }

  /** No post-processor is invoked before the post-processing part of an executing
      step's log. */
  lemma LayoutFront(warn: seq<Effect>, call: Effect, timer: seq<Effect>, post: seq<Effect>, delivered: seq<Effect>)
    requires WellKinded(warn, call, timer, post, delivered)
    ensures PostCalls(warn + [call] + timer) == []
  {
    var front := warn + [call] + timer;
    forall i | 0 <= i < |front|
      ensures !front[i].PostProcessed?
    {
      if i < |warn| {
        assert front[i] == warn[i];
      } else if i > |warn| {
        assert front[i] == timer[i - |warn| - 1];
      }
    }
    PostCallsOfKind(front);
  }

  /** The post-processor invocations of an executing step are exactly its
      post-processing part, in order. */
  lemma LayoutPosts(warn: seq<Effect>, call: Effect, timer: seq<Effect>, post: seq<Effect>, delivered: seq<Effect>)
    requires WellKinded(warn, call, timer, post, delivered)
    ensures PostCalls(Layout(warn, call, timer, post, delivered)) == post
  {
    var front, back := warn + [call] + timer, post + delivered;
    assert Layout(warn, call, timer, post, delivered) == front + back;
    LayoutFront(warn, call, timer, post, delivered);
    PostCallsAppend(front, back);
    PostCallsAppend(post, delivered);
    PostCallsOfKind(post);
    PostCallsOfKind(delivered);
  }

  /** `effects` ends with `delivered`, and nothing before it hands the result on. */
  predicate DeliveredLast(effects: seq<Effect>, delivered: seq<Effect>)
  {
    && |delivered| <= |effects|
    && effects[|effects| - |delivered|..] == delivered
    && forall i :: 0 <= i < |effects| - |delivered| ==> !IsDelivery(effects[i])
  }

  /** Nothing before the delivery part of an executing step's log hands the result on. */
  lemma LayoutDeliveryLast(warn: seq<Effect>, call: Effect, timer: seq<Effect>, post: seq<Effect>, delivered: seq<Effect>)
    requires WellKinded(warn, call, timer, post, delivered)
    ensures DeliveredLast(Layout(warn, call, timer, post, delivered), delivered)
  {
    var e := Layout(warn, call, timer, post, delivered);
    assert e == (warn + [call] + timer + post) + delivered;
    forall i | 0 <= i < |e| - |delivered|
      ensures !IsDelivery(e[i])
    {
      if i < |warn| {
        assert e[i] == warn[i];
      } else if i == |warn| {
        assert e[i] == call;
      } else if i < |warn| + 1 + |timer| {
        assert e[i] == timer[i - |warn| - 1];
      } else {
        assert e[i] == post[i - |warn| - 1 - |timer|];
      }
    }
  }

  /** Where an effect falls in an executing step: the warning, the executor call, the
      timer stop, the timer restart, the post-processors, then the delivery. */
  function Phase(x: Effect): (p: nat)
  {
    match x
    case OutOfOrderLogged(_, _) => 0
    case ExecutorCalled(_, _, _, _) => 1
    case TimerStopped => 2
    case TimerStarted => 3
    case PostProcessed(_, _, _, _, _) => 4
    case Published(_, _) => 5
    case Sent(_, _) => 5
  }

  /** No effect in `effects` belongs to an earlier phase than one before it. */
  predicate Ordered(effects: seq<Effect>)
  {
    forall i, j :: 0 <= i < j < |effects| ==> Phase(effects[i]) <= Phase(effects[j])
  }

  /** Every effect in `effects` falls in a phase from `lo` to `hi`. */
  predicate Within(effects: seq<Effect>, lo: nat, hi: nat)
  {
    forall i :: 0 <= i < |effects| ==> lo <= Phase(effects[i]) <= hi
  }

  /** Two ordered logs whose phases meet at `mid` make an ordered log. */
  lemma OrderedAppend(a: seq<Effect>, b: seq<Effect>, lo: nat, mid: nat, hi: nat)
    requires lo <= mid <= hi
    requires Ordered(a) && Within(a, lo, mid)
    requires Ordered(b) && Within(b, mid, hi)
    ensures Ordered(a + b) && Within(a + b, lo, hi)
  {
    var e := a + b;
    forall i, j | 0 <= i < j < |e|
      ensures Phase(e[i]) <= Phase(e[j])
    {
      if j < |a| {
        assert e[i] == a[i] && e[j] == a[j];
      } else if i < |a| {
        assert e[i] == a[i] && e[j] == b[j - |a|];
      } else {
        assert e[i] == b[i - |a|] && e[j] == b[j - |a|];
      }
    }
    forall i | 0 <= i < |e|
      ensures lo <= Phase(e[i]) <= hi
    {
      if i < |a| {
        assert e[i] == a[i];
      } else {
        assert e[i] == b[i - |a|];
      }
    }
  }

  /** An executing step's log runs through the phases in order, provided its timer part
      does. */
  lemma LayoutOrdered(warn: seq<Effect>, call: Effect, timer: seq<Effect>, post: seq<Effect>, delivered: seq<Effect>)
    requires WellKinded(warn, call, timer, post, delivered)
    requires Ordered(timer)
    ensures Ordered(Layout(warn, call, timer, post, delivered))
  {
    OrderedAppend(warn, [call], 0, 0, 1);
    OrderedAppend(warn + [call], timer, 0, 1, 3);
    OrderedAppend(warn + [call] + timer, post, 0, 3, 4);
    OrderedAppend(warn + [call] + timer + post, delivered, 0, 4, 5);
  }

  /** Every post-processor invocation the filter keeps is in the log. */
  lemma {:induction false} PostCallsWithin(effects: seq<Effect>)
    ensures forall x :: x in PostCalls(effects) ==> x in effects
    decreases |effects|
  {
    if |effects| > 0 {
      PostCallsWithin(effects[1..]);
      assert effects == [effects[0]] + effects[1..];
    }
  }
}
