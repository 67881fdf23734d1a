/**
 * Signals, the start of the process and the end of the request stream race with each other. Each of the three is
 * one section under the process lock.
 */
module Signals {
  import opened Prelude

  type Sig = string

  /**
   * `proc` is whether the process is known, `wantKill` whether the client is gone. `started` and `killed` are
   * what happened to the process, `delivered` and `accepted` the signals it got and those the client was told yes to.
   */
  datatype State = State(proc: bool, wantKill: bool, pending: seq<Sig>,
                         started: bool, killed: bool, delivered: seq<Sig>, accepted: seq<Sig>)

  function Init(): State { State(false, false, [], false, false, [], []) }

  /** A signal is None when the request does not parse or names no signal. */
  datatype Act = Signal(sig: Option<Sig>) | SetProc | KillProc

  /** A session starts one process at most. */
  predicate Can(s: State, a: Act) { a.SetProc? ==> !s.started }

  function Do(s: State, a: Act): State
    requires Can(s, a)
  {
    match a
    case Signal(None) => s
    case Signal(Some(sig)) =>
      var t := s.(accepted := s.accepted + [sig]);
      if s.proc then t.(delivered := s.delivered + [sig]) else t.(pending := s.pending + [sig])
    case SetProc =>
      if s.wantKill then s.(started := true, killed := true)
      else s.(started := true, proc := true, delivered := s.delivered + s.pending, pending := [])
    case KillProc => s.(wantKill := true, killed := s.killed || s.proc)
  }

  function Exec(s: State, run: seq<Act>): Option<State>
    decreases |run|
  {
    if run == [] then Some(s)
    else if Can(s, run[0]) then Exec(Do(s, run[0]), run[1..])
    else None
  }

  ghost predicate Inv(s: State) {
    && s.delivered + s.pending == s.accepted
    && (s.proc ==> s.pending == [] && s.started)
    && (!s.started ==> s.delivered == [])
    && (s.killed <==> s.started && s.wantKill)
    && (s.started && !s.proc ==> s.wantKill)
    && (!s.proc ==> s.delivered == [])
  }

  lemma StepKeepsInv(s: State, a: Act)
    requires Inv(s) && Can(s, a)
    ensures Inv(Do(s, a))
  {
    if a.Signal? && a.sig.Some? {
      Assoc(s.delivered, s.pending, [a.sig.value]);
      Empty(s.delivered + [a.sig.value]);
      Empty(s.delivered);
    } else if a.SetProc? {
      Empty(s.delivered + s.pending);
    }
  }

  lemma {:induction false} RunKeepsInv(s: State, run: seq<Act>)
    requires Inv(s) && Exec(s, run).Some?
    ensures Inv(Exec(s, run).value)
    decreases |run|
  {
    if run != [] {
      StepKeepsInv(s, run[0]);
      RunKeepsInv(Do(s, run[0]), run[1..]);
    }
  }

  function Names(run: seq<Act>): seq<Sig> {
    if run == [] then [] else
      var a := run[|run| - 1];
      Names(run[..|run| - 1]) + if a.Signal? && a.sig.Some? then [a.sig.value] else []
  }

  lemma {:induction false} AcceptedAreNames(s: State, run: seq<Act>)
    requires Exec(s, run).Some?
    ensures Exec(s, run).value.accepted == s.accepted + Names(run)
    decreases |run|
  {
    if run == [] {
      Empty(s.accepted);
    } else {
      var t := Do(s, run[0]);
      AcceptedAreNames(t, run[1..]);
      NamesCons(run);
      var first := if run[0].Signal? && run[0].sig.Some? then [run[0].sig.value] else [];
      Empty(s.accepted);
      assert t.accepted == s.accepted + first;
      Assoc(s.accepted, first, Names(run[1..]));
    }
  }

  lemma {:induction false} NamesCons(run: seq<Act>)
    requires run != []
    ensures Names(run) == (if run[0].Signal? && run[0].sig.Some? then [run[0].sig.value] else []) + Names(run[1..])
    decreases |run|
  {
    var first := if run[0].Signal? && run[0].sig.Some? then [run[0].sig.value] else [];
    if |run| == 1 {
      assert run[..0] == [] && run[1..] == [];
    } else {
      var init := run[..|run| - 1];
      NamesCons(init);
      assert init[1..] == run[1..][..|run[1..]| - 1];
      var last := if run[|run| - 1].Signal? && run[|run| - 1].sig.Some? then [run[|run| - 1].sig.value] else [];
      Assoc(first, Names(init[1..]), last);
    }
  }

  /** The process was started while the client was still there. */
  predicate StartedInTime(run: seq<Act>) { exists i :: 0 <= i < |run| && run[i].SetProc? && KillProc !in run[..i] }

  /** What the fields say about the run so far. */
  ghost predicate TellsRun(s: State, run: seq<Act>) {
    && (s.started <==> SetProc in run)
    && (s.wantKill <==> KillProc in run)
    && (s.proc <==> StartedInTime(run))
  }

  lemma {:induction false} ExecLast(s: State, run: seq<Act>, a: Act)
    requires Exec(s, run + [a]).Some?
    ensures Exec(s, run).Some? && Can(Exec(s, run).value, a)
    ensures Exec(s, run + [a]) == Some(Do(Exec(s, run).value, a))
    decreases |run|
  {
    if run == [] {
      assert run + [a] == [a] && [a][1..] == [];
    } else {
      assert (run + [a])[0] == run[0] && (run + [a])[1..] == run[1..] + [a];
      ExecLast(Do(s, run[0]), run[1..], a);
    }
  }

  lemma StartedStep(run: seq<Act>, a: Act)
    ensures StartedInTime(run + [a]) <==> StartedInTime(run) || (a.SetProc? && KillProc !in run)
  {
    var all := run + [a];
    assert forall i :: 0 <= i <= |run| ==> all[..i] == run[..i];
    assert run[..|run|] == run && all[|run|] == a;
    if StartedInTime(run) {
      var i :| 0 <= i < |run| && run[i].SetProc? && KillProc !in run[..i];
      assert all[i].SetProc? && KillProc !in all[..i];
    }
  }

  lemma {:induction false} RunTells(run: seq<Act>)
    requires Exec(Init(), run).Some?
    ensures TellsRun(Exec(Init(), run).value, run)
    decreases |run|
  {
    if run != [] {
      var init, a := run[..|run| - 1], run[|run| - 1];
      assert run == init + [a];
      ExecLast(Init(), init, a);
      RunTells(init);
      StartedStep(init, a);
    }
  }

  /**
   * In every interleaving the delivered signals followed by the pending ones are the accepted ones in order, so
   * each is delivered at most once, and all of them are if the process was started while the client was there. The
   * process is killed exactly if it was started and the client has gone, in whichever order.
   */
  lemma SignalsInOrder(run: seq<Act>)
    requires Exec(Init(), run).Some?
    ensures var s := Exec(Init(), run).value;
            && s.delivered + s.pending == s.accepted == Names(run)
            && s.delivered == (if StartedInTime(run) then Names(run) else [])
            && (s.started <==> SetProc in run)
            && (s.wantKill <==> KillProc in run)
            && (s.killed <==> SetProc in run && KillProc in run)
  {
    RunKeepsInv(Init(), run);
    RunTells(run);
    AcceptedAreNames(Init(), run);
    Empty(Names(run));
    Empty(Exec(Init(), run).value.delivered);
  }

  /** The session's side of the process. */
  class Process {
    var proc: bool
    var wantKill: bool
    var pendingSignals: seq<Sig>
    // What the operating system saw.
    var started: bool
    var killed: bool
    var delivered: seq<Sig>
    ghost var accepted: seq<Sig>

    ghost function View(): State
      reads this
    {
      State(proc, wantKill, pendingSignals, started, killed, delivered, accepted)
    }

    method HandleSignal(sig: Option<Sig>) returns (ok: bool)
      modifies this
      ensures View() == Do(old(View()), Signal(sig)) && ok == sig.Some?
    {
      if sig.None? { return false; }
      accepted := accepted + [sig.value];
      if proc {
        delivered := delivered + [sig.value];
      } else {
        pendingSignals := pendingSignals + [sig.value];
      }
      return true;
    }

    method SetProcess()
      requires !started
      modifies this
      ensures View() == Do(old(View()), SetProc)
    {
      started := true;
      if wantKill {
        killed := true;
        return;
      }
      proc := true;
      ghost var before := delivered;
      ghost var queue := pendingSignals;
      Empty(before);
      assert queue[..0] == [];
      for i := 0 to |pendingSignals|
        invariant delivered == before + queue[..i] && pendingSignals == queue
        invariant proc && started && wantKill == old(wantKill) && killed == old(killed) && accepted == old(accepted)
      {
        assert queue[..i + 1] == queue[..i] + [queue[i]];
        Assoc(before, queue[..i], [queue[i]]);
        delivered := delivered + [pendingSignals[i]];
      }
      assert queue[..|queue|] == queue;
      pendingSignals := [];
    }

    method KillProcess()
      modifies this
      ensures View() == Do(old(View()), KillProc)
    {
      wantKill := true;
      if proc { killed := true; }
    }
  }
}
