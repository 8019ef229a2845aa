/** Runs of the execution step over a sequence of commit notifications from the
    agreement layer, and the safety properties the commit gate keeps over them:
    every digest is executed at most once, executions take consecutive sequence
    numbers, and the request timer keeps tracking the backlog. */
module Traces {
  import opened Wrappers
  import opened Uint64
  import opened Messages
  import opened Effects
  import opened Replica

  /** One commit notification: a quorum-certified (view, sequence, digest) binding. */
  datatype Commit = Commit(view: Uint, sequence: Uint, digest: Digest)

  /** The state after a run, the error each step returned, and all effects in order. */
  datatype Trace = Trace(state: ReplicaState, outcomes: seq<Outcome<Error>>, effects: seq<Effect>)

  /** Apply the execution step to each commit in turn. */
  function Run(s: ReplicaState, env: Env, commits: seq<Commit>): (t: Trace)
    ensures |t.outcomes| == |commits|
    ensures t.state.requests == s.requests && t.state.id == s.id && t.state.view == s.view
    ensures t.state.pending <= s.pending
    ensures s.executions.Keys <= t.state.executions.Keys
    ensures PendingJournaled(s) ==> PendingJournaled(t.state)
    decreases |commits|
  {
    if |commits| == 0 then Trace(s, [], [])
    else
      var c := commits[0];
      var st := ExecuteCommitted(s, env, c.view, c.sequence, c.digest);
      var rest := Run(st.state, env, commits[1..]);
      Trace(rest.state, [st.result] + rest.outcomes, st.effects + rest.effects)
  }

  /** What a run needs to know of one execution step. */
  lemma StepFacts(s: ReplicaState, env: Env, c: Commit) returns (st: Step)
    ensures st == ExecuteCommitted(s, env, c.view, c.sequence, c.digest)
    ensures !Ready(s, c.sequence, c.digest) ==> st.state == s && Calls(st.effects) == []
    ensures Ready(s, c.sequence, c.digest) ==>
      var req := s.requests[c.digest];
      && Calls(st.effects) == [ExecutorCalled(c.digest, c.sequence, req.id, req.execute)]
      && c.digest in s.pending
      && st.state.pending == s.pending - {c.digest}
      && c.sequence == Add(s.lastExecuted, 1)
      && st.state.lastExecuted == c.sequence
      && TimerTracksPending(st.state)
    ensures AllCached(Calls(st.effects), st.state.executions)
  {
    st := ExecuteCommitted(s, env, c.view, c.sequence, c.digest);
  }

  /** The digests of the executor calls in `calls`. */
  function Digests(calls: seq<Effect>): (ds: set<Digest>)
    requires forall i :: 0 <= i < |calls| ==> calls[i].ExecutorCalled?
  {
    set i | 0 <= i < |calls| :: calls[i].digest
  }

  /** No two executor calls in `calls` are for the same digest. */
  predicate DistinctDigests(calls: seq<Effect>)
    requires forall i :: 0 <= i < |calls| ==> calls[i].ExecutorCalled?
  {
    forall i, j :: 0 <= i < j < |calls| ==> calls[i].digest != calls[j].digest
  }

  /** Putting a call for a fresh digest in front of distinct calls keeps them distinct
      and adds its digest to theirs. */
  lemma PrependCall(call: Effect, rest: seq<Effect>)
    requires call.ExecutorCalled? && forall i :: 0 <= i < |rest| ==> rest[i].ExecutorCalled?
    requires DistinctDigests(rest) && call.digest !in Digests(rest)
    ensures DistinctDigests([call] + rest)
    ensures Digests([call] + rest) == {call.digest} + Digests(rest)
  {
    var calls := [call] + rest;
    forall i, j | 0 <= i < j < |calls|
      ensures calls[i].digest != calls[j].digest
    {
      assert calls[j] == rest[j - 1];
      if i == 0 {
        assert rest[j - 1].digest in Digests(rest);
      } else {
        assert calls[i] == rest[i - 1];
      }
    }
    assert calls[0] == call;
    forall d | d in Digests(rest)
      ensures d in Digests(calls)
    {
      var k :| 0 <= k < |rest| && rest[k].digest == d;
      assert calls[k + 1] == rest[k];
    }
    forall d | d in Digests(calls)
      ensures d in {call.digest} + Digests(rest)
    {
      var k :| 0 <= k < |calls| && calls[k].digest == d;
      if k > 0 {
        assert calls[k] == rest[k - 1];
      }
    }
  }

  /** A call that takes its digest out of the pending set, followed by calls that account
      exactly for what left the pending set afterwards, accounts exactly for everything
      that left it. */
  lemma PrependExecuted(call: Effect, rest: seq<Effect>, before: set<Digest>, mid: set<Digest>, after: set<Digest>)
    requires call.ExecutorCalled? && forall i :: 0 <= i < |rest| ==> rest[i].ExecutorCalled?
    requires call.digest in before && mid == before - {call.digest} && after <= mid
    requires DistinctDigests(rest) && Digests(rest) == mid - after
    ensures DistinctDigests([call] + rest) && Digests([call] + rest) == before - after
  {
    PrependCall(call, rest);
  }

  /** Exactly-once: the executed digests are pairwise distinct, and they are precisely
      the digests that left the pending set during the run. */
  lemma {:induction false} ExactlyOnce(s: ReplicaState, env: Env, commits: seq<Commit>)
    ensures var t := Run(s, env, commits);
      DistinctDigests(Calls(t.effects)) && Digests(Calls(t.effects)) == s.pending - t.state.pending
    decreases |commits|
  {
    if |commits| > 0 {
      var c := commits[0];
      var st := StepFacts(s, env, c);
      var rest := Run(st.state, env, commits[1..]);
      ExactlyOnce(st.state, env, commits[1..]);
      CallsAppend(st.effects, rest.effects);
      assert Run(s, env, commits) == Trace(rest.state, [st.result] + rest.outcomes, st.effects + rest.effects);
      if Ready(s, c.sequence, c.digest) {
        var call := Calls(st.effects)[0];
        assert Calls(st.effects) + Calls(rest.effects) == [call] + Calls(rest.effects);
        PrependExecuted(call, Calls(rest.effects), s.pending, st.state.pending, rest.state.pending);
      } else {
        assert Calls(st.effects) + Calls(rest.effects) == Calls(rest.effects);
      }
    }
  }

  /** The executor calls in `calls` take the sequence numbers right after `last`, one
      by one. */
  predicate Consecutive(calls: seq<Effect>, last: Uint)
    requires forall i :: 0 <= i < |calls| ==> calls[i].ExecutorCalled?
  {
    forall i :: 0 <= i < |calls| ==> calls[i].sequence == Add(last, i + 1)
  }

  /** A call at the next sequence number in front of consecutive calls from there is
      consecutive from `last`, and ends one step further. */
  lemma PrependConsecutive(call: Effect, rest: seq<Effect>, last: Uint, final: Uint)
    requires call.ExecutorCalled? && forall i :: 0 <= i < |rest| ==> rest[i].ExecutorCalled?
    requires call.sequence == Add(last, 1) && Consecutive(rest, Add(last, 1))
    requires final == Add(Add(last, 1), |rest|)
    ensures Consecutive([call] + rest, last)
    ensures final == Add(last, |[call] + rest|)
  {
    var calls := [call] + rest;
    forall i | 0 < i < |calls|
      ensures calls[i].sequence == Add(last, i + 1)
    {
      assert calls[i] == rest[i - 1];
      AddAdd(last, 1, i);
    }
    AddAdd(last, 1, |rest|);
  }

  /** Gap-free order: the n-th execution of a run takes the n-th sequence number after
      the last executed one, and the counter ends as many steps ahead as there were
      executions. */
  lemma {:induction false} GapFree(s: ReplicaState, env: Env, commits: seq<Commit>)
    ensures var t := Run(s, env, commits);
      && Consecutive(Calls(t.effects), s.lastExecuted)
      && t.state.lastExecuted == Add(s.lastExecuted, |Calls(t.effects)|)
    decreases |commits|
  {
    if |commits| > 0 {
      var c := commits[0];
      var st := StepFacts(s, env, c);
      var rest := Run(st.state, env, commits[1..]);
      GapFree(st.state, env, commits[1..]);
      CallsAppend(st.effects, rest.effects);
      assert Run(s, env, commits) == Trace(rest.state, [st.result] + rest.outcomes, st.effects + rest.effects);
      if Ready(s, c.sequence, c.digest) {
        var call := Calls(st.effects)[0];
        assert Calls(st.effects) + Calls(rest.effects) == [call] + Calls(rest.effects);
        PrependConsecutive(call, Calls(rest.effects), s.lastExecuted, rest.state.lastExecuted);
      } else {
        assert Calls(st.effects) + Calls(rest.effects) == Calls(rest.effects);
      }
    }
  }

  /** The request timer keeps tracking the backlog over a run that starts with it doing
      so, and starts tracking it at the first execution otherwise. */
  lemma {:induction false} TimerCorrelation(s: ReplicaState, env: Env, commits: seq<Commit>)
    ensures var t := Run(s, env, commits);
      TimerTracksPending(s) || |Calls(t.effects)| > 0 ==> TimerTracksPending(t.state)
    decreases |commits|
  {
    if |commits| > 0 {
      var c := commits[0];
      var st := StepFacts(s, env, c);
      var rest := Run(st.state, env, commits[1..]);
      TimerCorrelation(st.state, env, commits[1..]);
      CallsAppend(st.effects, rest.effects);
    }
  }

  /** Every executor call in `calls` has a response in `cache`. */
  predicate AllCached(calls: seq<Effect>, cache: map<RequestID, ExecuteResponse>)
    requires forall i :: 0 <= i < |calls| ==> calls[i].ExecutorCalled?
  {
    forall i :: 0 <= i < |calls| ==> calls[i].requestID in cache
  }

  /** Cached calls stay cached when the cache grows and more cached calls follow. */
  lemma AppendCached(first: seq<Effect>, rest: seq<Effect>, early: map<RequestID, ExecuteResponse>, cache: map<RequestID, ExecuteResponse>)
    requires forall i :: 0 <= i < |first| ==> first[i].ExecutorCalled?
    requires forall i :: 0 <= i < |rest| ==> rest[i].ExecutorCalled?
    requires AllCached(first, early) && early.Keys <= cache.Keys && AllCached(rest, cache)
    ensures AllCached(first + rest, cache)
  {
    var calls := first + rest;
    forall i | 0 <= i < |calls|
      ensures calls[i].requestID in cache
    {
      if i < |first| {
        assert calls[i] == first[i];
      } else {
        assert calls[i] == rest[i - |first|];
      }
    }
  }

  /** Every request executed during a run has a cached response at its end. */
  lemma {:induction false} ExecutedAreCached(s: ReplicaState, env: Env, commits: seq<Commit>)
    ensures var t := Run(s, env, commits);
      AllCached(Calls(t.effects), t.state.executions)
    decreases |commits|
  {
    if |commits| > 0 {
      var c := commits[0];
      var st := StepFacts(s, env, c);
      var rest := Run(st.state, env, commits[1..]);
      ExecutedAreCached(st.state, env, commits[1..]);
      CallsAppend(st.effects, rest.effects);
      assert Run(s, env, commits) == Trace(rest.state, [st.result] + rest.outcomes, st.effects + rest.effects);
      AppendCached(Calls(st.effects), Calls(rest.effects), st.state.executions, rest.state.executions);
    }
  }

  /** A commit the gate drops leaves the rest of the run as it would have been. */
  lemma RunSkip(s: ReplicaState, env: Env, c: Commit, rest: seq<Commit>)
    requires c.digest in s.requests && !Ready(s, c.sequence, c.digest)
    ensures var t := Run(s, env, rest);
      Run(s, env, [c] + rest) == Trace(t.state, [Pass] + t.outcomes, t.effects)
  {
    assert ([c] + rest)[0] == c && ([c] + rest)[1..] == rest;
    assert ExecuteCommitted(s, env, c.view, c.sequence, c.digest) == Step(s, Pass, []);
  }

  /** A run of one commit the gate lets through calls the executor once for it. */
  lemma RunOne(s: ReplicaState, env: Env, c: Commit)
    requires Ready(s, c.sequence, c.digest)
    ensures var t := Run(s, env, [c]);
      && |Calls(t.effects)| == 1
      && Calls(t.effects)[0].digest == c.digest
      && t.state.pending == s.pending - {c.digest}
      && t.state.lastExecuted == c.sequence
  {
    var st := StepFacts(s, env, c);
    assert [c][1..] == [];
    assert Run(st.state, env, []) == Trace(st.state, [], []);
    assert st.effects + [] == st.effects;
  }

  /** A repeated commit of a digest that has been executed is a silent no-op, whatever
      view and sequence it carries. */
  lemma SecondCommitIsNoOp(s: ReplicaState, env: Env, c1: Commit, c2: Commit)
    requires Ready(s, c1.sequence, c1.digest)
    requires c2.digest == c1.digest
    ensures var st := ExecuteCommitted(s, env, c1.view, c1.sequence, c1.digest);
      ExecuteCommitted(st.state, env, c2.view, c2.sequence, c2.digest) == Step(st.state, Pass, [])
  {
  }

  /** A commit that arrives ahead of its turn is dropped, not buffered: once the gap is
      filled, only the earlier request has run and the later one is still pending,
      waiting for a commit of its own. */
  lemma GapIsNotBuffered(s: ReplicaState, env: Env, view: Uint, d1: Digest, d2: Digest)
    requires d1 != d2 && d1 in s.pending && d2 in s.pending && PendingJournaled(s)
    ensures var next := Inc(s.lastExecuted);
      var t := Run(s, env, [Commit(view, Inc(next), d2), Commit(view, next, d1)]);
      && |Calls(t.effects)| == 1
      && Calls(t.effects)[0].digest == d1
      && d2 in t.state.pending
      && t.state.lastExecuted == next
  {
    var next := Inc(s.lastExecuted);
    var c1, c2 := Commit(view, Inc(next), d2), Commit(view, next, d1);
    RunSkip(s, env, c1, [c2]);
    RunOne(s, env, c2);
    assert [c1] + [c2] == [Commit(view, Inc(next), d2), Commit(view, next, d1)];
  }
}
