/** Passing Ctrl-C and `kill` on to the container: three atomics, a handler that may run between any two of main's steps,
    and handlers interrupted by handlers. */
module Signals {
  import opened Wrappers

  datatype Signal = Int | Term | Kill

  // One run of the handler, and the handlers that interrupt it: between reading the pid and claiming the first signal,
  // and between claiming and sending. Main does not move meanwhile.
  datatype Visit = Visit(signal: Signal, beforeClaim: seq<Visit>, beforeSend: seq<Visit>)

  // The atomics, what has been sent to the container, and what has arrived.
  datatype State = State(pid: nat, pending: Option<Signal>, forwarded: bool, sent: seq<Signal>, arrived: set<Signal>)

  const CLEAR := State(0, None, false, [], {})

  // Where handlers run during one run of the container: before its pid is known, before the pending signal is taken,
  // before that one is claimed, before it is sent, until the pid is cleared, and after.
  datatype Schedule = Schedule(
    early: seq<Visit>, published: seq<Visit>, taken: seq<Visit>, claimed: seq<Visit>,
    running: seq<Visit>, late: seq<Visit>)

  // ---- What the handler and main do ----

  function Handle(s: State, v: Visit): State
    decreases v
  {
    var began := s.(arrived := s.arrived + {v.signal});
    var a := HandleAll(began, v.beforeClaim);
    if s.pid == 0 then a.(pending := Some(v.signal))
    else
      var b := HandleAll(a.(forwarded := true), v.beforeSend);
      b.(sent := b.sent + [if a.forwarded then Kill else v.signal])
  }

  function HandleAll(s: State, vs: seq<Visit>): State
    decreases vs
  {
    if vs == [] then s else HandleAll(Handle(s, vs[0]), vs[1..])
  }

  // Up to and including the delivery of a signal that came early.
  function Drained(s: State, pid: nat, w: Schedule): State {
    var s1 := HandleAll(HandleAll(s, w.early).(pid := pid), w.published);
    var s2 := HandleAll(s1.(pending := None), w.taken);
    if s1.pending.Some? && !s2.forwarded then
      var s3 := HandleAll(s2.(forwarded := true), w.claimed);
      s3.(sent := s3.sent + [s1.pending.value])
    else HandleAll(s2, w.claimed)
  }

  function Ended(s: State, pid: nat, w: Schedule): State {
    HandleAll(Drained(s, pid, w), w.running).(pid := 0)
  }

  function Finished(s: State, pid: nat, w: Schedule): State {
    HandleAll(Ended(s, pid, w), w.late)
  }

  class Forwarding {
    var containerPid: nat
    var pendingSignal: Option<Signal>
    var forwarded: bool
    var sent: seq<Signal>
    ghost var arrived: set<Signal>

    ghost function Now(): State
      reads this
    {
      State(containerPid, pendingSignal, forwarded, sent, arrived)
    }

    constructor ()
      ensures Now() == CLEAR
    {
      containerPid, pendingSignal, forwarded, sent, arrived := 0, None, false, [], {};
    }

    method ForwardSignal(v: Visit)
      modifies this
      ensures Now() == Handle(old(Now()), v)
      decreases v, 0
    {
      arrived := arrived + {v.signal};
      var pid := containerPid;
      Interrupt(v.beforeClaim);
      if pid != 0 {
        var was := forwarded;
        forwarded := true;
        Interrupt(v.beforeSend);
        sent := sent + [if was then Kill else v.signal];
      } else {
        pendingSignal := Some(v.signal);
      }
    }

    method Interrupt(vs: seq<Visit>)
      modifies this
      ensures Now() == HandleAll(old(Now()), vs)
      decreases vs, 0
    {
      if vs != [] {
        ForwardSignal(vs[0]);
        Interrupt(vs[1..]);
      }
    }

    // The part of a container's run that touches the atomics.
    method Run(pid: nat, w: Schedule)
      requires pid > 0
      modifies this
      ensures Now() == Finished(old(Now()), pid, w)
    {
      Interrupt(w.early);
      containerPid := pid;
      Interrupt(w.published);
      var pending := pendingSignal;
      pendingSignal := None;
      Interrupt(w.taken);
      if pending.Some? && !forwarded {
        forwarded := true;
        Interrupt(w.claimed);
        sent := sent + [pending.value];
      } else {
        Interrupt(w.claimed);
      }
      Interrupt(w.running);
      containerPid := 0;
      Interrupt(w.late);
    }
  }

  // ---- What gets sent ----

  function Kills(n: nat): (r: seq<Signal>)
    ensures |r| == n && forall i :: 0 <= i < n ==> r[i] == Kill
  {
    seq(n, i => Kill)
  }

  // Real signals are the two the handler is installed for.
  predicate Real(v: Visit)
    decreases v
  {
    v.signal != Kill && AllReal(v.beforeClaim) && AllReal(v.beforeSend)
  }

  predicate AllReal(vs: seq<Visit>)
    decreases vs
  {
    vs == [] || (Real(vs[0]) && AllReal(vs[1..]))
  }

  predicate RealSchedule(w: Schedule) {
    AllReal(w.early) && AllReal(w.published) && AllReal(w.taken) && AllReal(w.claimed)
    && AllReal(w.running) && AllReal(w.late)
  }

  // With the first signal claimed already, handlers only ever send KILL.
  lemma {:induction false} ForwardedSendsKill(s: State, v: Visit) returns (n: nat)
    requires s.pid > 0 && s.forwarded
    ensures n > 0 && Handle(s, v) == s.(sent := s.sent + Kills(n), arrived := Handle(s, v).arrived)
    ensures s.arrived + {v.signal} <= Handle(s, v).arrived
    decreases v, 0
  {
    var began := s.(arrived := s.arrived + {v.signal});
    var k := ForwardedSendKills(began, v.beforeClaim);
    var a := HandleAll(began, v.beforeClaim);
    assert a.(forwarded := true) == a;
    var l := ForwardedSendKills(a, v.beforeSend);
    n := k + l + 1;
    assert s.sent + Kills(k) + Kills(l) + [Kill] == s.sent + Kills(n);
  }

  lemma {:induction false} ForwardedSendKills(s: State, vs: seq<Visit>) returns (n: nat)
    requires s.pid > 0 && s.forwarded
    ensures n >= |vs| && HandleAll(s, vs) == s.(sent := s.sent + Kills(n), arrived := HandleAll(s, vs).arrived)
    ensures (n > 0 ==> vs != []) && s.arrived <= HandleAll(s, vs).arrived
    decreases vs, 0
  {
    if vs == [] {
      n := 0;
      assert s.sent + Kills(0) == s.sent;
    } else {
      var k := ForwardedSendsKill(s, vs[0]);
      var l := ForwardedSendKills(Handle(s, vs[0]), vs[1..]);
      n := k + l;
      assert s.sent + Kills(k) + Kills(l) == s.sent + Kills(n);
    }
  }

  // Whether, the first claim being made during this visit, some handler runs between that claim and its sending.
  predicate Crossed(v: Visit)
    decreases v, 0
  {
    if v.beforeClaim != [] then CrossedFirst(v.beforeClaim) else v.beforeSend != []
  }

  predicate CrossedFirst(vs: seq<Visit>)
    decreases vs, 0
  {
    vs != [] && Crossed(vs[0])
  }

  // Some KILLs, the one real signal, and KILLs again.
  predicate OneReal(sent: seq<Signal>, arrived: set<Signal>, early: nat) {
    && early < |sent| && sent[early] != Kill && sent[early] in arrived
    && forall i :: 0 <= i < |sent| && i != early ==> sent[i] == Kill
  }

  predicate Untouched(s: State) {
    s.pid > 0 && !s.forwarded && s.sent == []
  }

  // The first visit of all sends exactly one real signal, and something before it exactly when it is crossed.
  lemma {:induction false} FirstVisit(s: State, v: Visit) returns (early: nat)
    requires Untouched(s) && Real(v)
    ensures var t := Handle(s, v);
      && t == s.(forwarded := true, sent := t.sent, arrived := t.arrived)
      && OneReal(t.sent, t.arrived, early) && s.arrived + {v.signal} <= t.arrived
    ensures early > 0 <==> Crossed(v)
    decreases v, 0
  {
    var began := s.(arrived := s.arrived + {v.signal});
    if v.beforeClaim == [] {
      early := ForwardedSendKills(began.(forwarded := true), v.beforeSend);
      assert Handle(s, v).sent == [] + Kills(early) + [v.signal];
    } else {
      early := FirstVisits(began, v.beforeClaim);
      var a := HandleAll(began, v.beforeClaim);
      assert a.(forwarded := true) == a;
      var l := ForwardedSendKills(a, v.beforeSend);
      assert Handle(s, v).sent == a.sent + Kills(l) + [Kill];
    }
  }

  lemma {:induction false} FirstVisits(s: State, vs: seq<Visit>) returns (early: nat)
    requires Untouched(s) && AllReal(vs) && vs != []
    ensures var t := HandleAll(s, vs);
      && t == s.(forwarded := true, sent := t.sent, arrived := t.arrived)
      && OneReal(t.sent, t.arrived, early) && s.arrived <= t.arrived
    ensures early > 0 <==> CrossedFirst(vs)
    decreases vs, 0
  {
    early := FirstVisit(s, vs[0]);
    var l := ForwardedSendKills(Handle(s, vs[0]), vs[1..]);
  }

  predicate PendingArrived(s: State) {
    s.pending.Some? ==> s.pending.value in s.arrived && s.pending.value != Kill
  }

  // Without a container pid nothing is sent or claimed; the last signal to finish is left pending.
  lemma {:induction false} NoPidSendsNothing(s: State, v: Visit)
    requires s.pid == 0
    ensures var t := Handle(s, v);
      t == s.(pending := Some(v.signal), arrived := t.arrived) && s.arrived + {v.signal} <= t.arrived
    decreases v, 0
  {
    NoPidSendNothing(s.(arrived := s.arrived + {v.signal}), v.beforeClaim);
  }

  lemma {:induction false} NoPidSendNothing(s: State, vs: seq<Visit>)
    requires s.pid == 0
    ensures var t := HandleAll(s, vs);
      && t == s.(pending := t.pending, arrived := t.arrived) && s.arrived <= t.arrived
      && (vs != [] ==> t.pending.Some?) && (vs == [] ==> t == s)
      && (PendingArrived(s) && AllReal(vs) ==> PendingArrived(t))
    decreases vs, 0
  {
    if vs != [] {
      NoPidSendsNothing(s, vs[0]);
      assert AllReal(vs) ==> Real(vs[0]);
      NoPidSendNothing(Handle(s, vs[0]), vs[1..]);
    }
  }

  // ---- One run ----

  // Where the first claim of a run falls, and whether a handler comes between it and its sending.
  predicate RunCrossed(w: Schedule) {
    if w.published != [] then CrossedFirst(w.published)
    else if w.taken != [] then CrossedFirst(w.taken)
    else if w.early != [] then w.claimed != []
    else if w.claimed != [] then CrossedFirst(w.claimed)
    else CrossedFirst(w.running)
  }

  predicate AnyArrival(w: Schedule) {
    w.early != [] || w.published != [] || w.taken != [] || w.claimed != [] || w.running != []
  }

  // For one run, wherever handlers run: once the early signal has been dealt with, no arrived signal has left the
  // container with none sent, FORWARDED says whether one was, exactly one of those sent is an INT or TERM that arrived
  // and the others are KILL, and it comes first unless a handler ran between the first claim and its sending.
  lemma DrainedSends(pid: nat, w: Schedule) returns (early: nat)
    requires pid > 0 && RealSchedule(w)
    ensures var s := Drained(CLEAR, pid, w);
      && s.pid == pid && (s.forwarded <==> s.sent != [])
      && (w.early != [] || w.published != [] || w.taken != [] || w.claimed != [] ==> s.sent != [])
      && (s.sent != [] ==> OneReal(s.sent, s.arrived, early) && (early > 0 <==> RunCrossed(w)))
      && (s.sent == [] ==> Untouched(s) && s == CLEAR.(pid := pid))
  {
    early := 0;
    hide Handle, Real, Crossed;
    NoPidSendNothing(CLEAR, w.early);
    var s0 := HandleAll(CLEAR, w.early).(pid := pid);
    var s1 := HandleAll(s0, w.published);
    if w.published != [] {
      early := FirstVisits(s0, w.published);
    }
    var t1 := s1.(pending := None);
    var s2 := HandleAll(t1, w.taken);
    if t1.forwarded {
      var l := ForwardedSendKills(t1, w.taken);
    } else if w.taken != [] {
      early := FirstVisits(t1, w.taken);
    }
    if s2.forwarded {
      var l := ForwardedSendKills(s2, w.claimed);
    } else if s1.pending.Some? {
      early := ForwardedSendKills(s2.(forwarded := true), w.claimed);
      assert Drained(CLEAR, pid, w).sent == [] + Kills(early) + [s1.pending.value];
    } else if w.claimed != [] {
      early := FirstVisits(s2, w.claimed);
    }
  }

  // The same for the run as a whole; and nothing is sent once the pid has been cleared.
  lemma RunSends(pid: nat, w: Schedule) returns (early: nat)
    requires pid > 0 && RealSchedule(w)
    ensures var s := Finished(CLEAR, pid, w);
      && s.sent == Ended(CLEAR, pid, w).sent && s.pid == 0
      && (s.forwarded <==> s.sent != [])
      && (s.sent != [] <==> AnyArrival(w))
      && (s.sent != [] ==> OneReal(s.sent, s.arrived, early) && (early == 0 <==> !RunCrossed(w)))
  {
    early := DrainedSends(pid, w);
    var s := Drained(CLEAR, pid, w);
    if s.forwarded {
      var l := ForwardedSendKills(s, w.running);
    } else if w.running != [] {
      early := FirstVisits(s, w.running);
    }
    NoPidSendNothing(Ended(CLEAR, pid, w), w.late);
  }

  // ---- How many get sent ----

  // Handler runs, those that interrupt others included.
  function Arrivals(v: Visit): nat
    decreases v
  {
    1 + ArrivalsIn(v.beforeClaim) + ArrivalsIn(v.beforeSend)
  }

  function ArrivalsIn(vs: seq<Visit>): nat
    decreases vs
  {
    if vs == [] then 0 else Arrivals(vs[0]) + ArrivalsIn(vs[1..])
  }

  lemma {:induction false} VisitSendsItsArrivals(s: State, v: Visit)
    requires s.pid > 0
    ensures var t := Handle(s, v);
      t.pid == s.pid && t.pending == s.pending && t.forwarded && |t.sent| == |s.sent| + Arrivals(v)
    decreases v, 0
  {
    var began := s.(arrived := s.arrived + {v.signal});
    VisitsSendTheirArrivals(began, v.beforeClaim);
    VisitsSendTheirArrivals(HandleAll(began, v.beforeClaim).(forwarded := true), v.beforeSend);
  }

  lemma {:induction false} VisitsSendTheirArrivals(s: State, vs: seq<Visit>)
    requires s.pid > 0
    ensures var t := HandleAll(s, vs);
      && t.pid == s.pid && t.pending == s.pending && |t.sent| == |s.sent| + ArrivalsIn(vs)
      && (t.forwarded <==> s.forwarded || vs != [])
    decreases vs, 0
  {
    if vs != [] {
      VisitSendsItsArrivals(s, vs[0]);
      VisitsSendTheirArrivals(Handle(s, vs[0]), vs[1..]);
    }
  }

  // Every signal that arrives while the container's pid is known is passed on as one, and of those that came before it
  // one in all, unless one that came later has been passed on first.
  lemma EverySignalIsPassedOn(pid: nat, w: Schedule)
    requires pid > 0
    ensures |Finished(CLEAR, pid, w).sent| ==
            ArrivalsIn(w.published) + ArrivalsIn(w.taken) + ArrivalsIn(w.claimed) + ArrivalsIn(w.running)
            + (if w.early != [] && w.published == [] && w.taken == [] then 1 else 0)
  {
    hide Handle;
    NoPidSendNothing(CLEAR, w.early);
    var s0 := HandleAll(CLEAR, w.early).(pid := pid);
    VisitsSendTheirArrivals(s0, w.published);
    var s1 := HandleAll(s0, w.published);
    VisitsSendTheirArrivals(s1.(pending := None), w.taken);
    var s2 := HandleAll(s1.(pending := None), w.taken);
    VisitsSendTheirArrivals(s2, w.claimed);
    VisitsSendTheirArrivals(s2.(forwarded := true), w.claimed);
    VisitsSendTheirArrivals(Drained(CLEAR, pid, w), w.running);
    NoPidSendNothing(Ended(CLEAR, pid, w), w.late);
  }

  // The first signal sent is an INT or TERM that arrived.
  predicate InOrder(sent: seq<Signal>) {
    sent != [] ==> sent[0] != Kill && forall i :: 0 < i < |sent| ==> sent[i] == Kill
  }

  // The container sees its first signal before any KILL exactly when no handler comes between the first claim and the
  // sending of what was claimed.
  lemma InOrderExactlyWhenNotCrossed(pid: nat, w: Schedule)
    requires pid > 0 && RealSchedule(w)
    ensures InOrder(Finished(CLEAR, pid, w).sent) <==> !RunCrossed(w)
  {
    var early := RunSends(pid, w);
  }

  // Ctrl-C before the container exists and again just as the first is being delivered: the KILL goes out first.
  lemma KillCanOvertake(pid: nat)
    requires pid > 0
    ensures var ctrlC := Visit(Int, [], []);
            Finished(CLEAR, pid, Schedule([ctrlC], [], [], [ctrlC], [], [])).sent == [Kill, Int]
  {
    var ctrlC := Visit(Int, [], []);
    var s := CLEAR.(pending := Some(Int), arrived := {Int});
    assert [ctrlC][1..] == [];
    assert HandleAll(CLEAR, [ctrlC]) == s by {
      assert Handle(CLEAR, ctrlC) == s;
      assert HandleAll(s, [ctrlC][1..]) == s;
    }
    var t := s.(pid := pid, pending := None, forwarded := true);
    assert Handle(t, ctrlC) == t.(sent := [Kill]);
    assert HandleAll(t, [ctrlC]) == t.(sent := [Kill]) by {
      assert HandleAll(t.(sent := [Kill]), [ctrlC][1..]) == t.(sent := [Kill]);
    }
  }
}
