/** The forwarding loop together with its helper and whoever drops it: where the loop's thread is, what stands between it
    and the helper, and whether the pipe that tells it to quit has been closed. */
module Shutdown {
  import Helper

  // There are 65536 ports, and none is mirrored both ways.
  const MOST_PORTS := 0x1_0000

  // Where the loop's thread is. Scanning counts the ports still to be mirrored, Serving the ready mirrors not looked at
  // yet; Asking waits for the helper's reply inside either.
  datatype Place =
    | Top
    | Scanning(outbound: nat, inbound: nat)
    | Polling
    | Serving(ready: nat)
    | Asking(after: Place)
    | Returned

  datatype System = System(place: Place, pair: Helper.Pair, closed: bool)

  // The thread moves on by itself, sends a request or takes the reply; the helper works, or dies, which Drop sees to if
  // nothing else does; and Drop closes the pipe.
  datatype Act =
    | Moves(to: Place)
    | Asks(port: nat)
    | Hears
    | Works(event: Helper.Event)
    | Dies
    | Closes

  // The loop begins once the helper's first reply has been taken.
  const BEGUN := System(Top, Helper.Pair(Helper.Idle, Helper.Reading, [], [], []), false)

  // What a request made here is for, and where the thread is when it is done with.
  function Request(p: Place): (r: (Helper.Byte, Place))
    requires CanAsk(p)
    ensures r.0 == if p.Scanning? then 'L' as int else 'C' as int
  {
    if p.Scanning? then (Helper.OP_LISTEN, Scanning(p.outbound - 1, p.inbound))
    else (Helper.OP_CONNECT, Serving(p.ready - 1))
  }

  predicate CanAsk(p: Place) {
    (p.Scanning? && p.outbound > 0) || (p.Serving? && p.ready > 0)
  }

  // What the thread does without the helper. With the pipe closed the poll finds it readable.
  predicate CanMove(p: Place, q: Place, closed: bool) {
    match p
    case Top => q.Polling? || (q.Scanning? && q.outbound + q.inbound <= MOST_PORTS)
    case Scanning(o, i) => o == 0 && if i > 0 then q == Scanning(0, i - 1) else q.Polling?
    case Polling => q.Returned? || (!closed && q.Serving?)
    case Serving(n) => if n == 0 then q.Top? else q == Serving(n - 1)
    case Asking(_) => false
    case Returned => false
  }

  predicate ByThread(act: Act) {
    act.Moves? || act.Asks? || act.Hears?
  }

  predicate Can(s: System, act: Act) {
    match act
    case Moves(q) => CanMove(s.place, q, s.closed)
    case Asks(port) => CanAsk(s.place) && port < 0x1_0000
    case Hears => s.place.Asking? && Helper.Enabled(s.pair, Helper.Hears)
    case Works(e) => (e.Reads? || e.Makes?) && Helper.Enabled(s.pair, e)
    case Dies => !s.pair.helper.Gone?
    case Closes => !s.closed
  }

  // A request that cannot be written is over at once.
  function Do(s: System, act: Act): System
    requires Can(s, act)
  {
    match act
    case Moves(q) => s.(place := q)
    case Asks(port) =>
      var (op, after) := Request(s.place);
      var pair := Helper.Next(s.pair, Helper.Asks(op, port));
      s.(pair := pair, place := if pair.run.Waiting? then Asking(after) else after)
    case Hears => s.(pair := Helper.Next(s.pair, Helper.Hears), place := s.place.after)
    case Works(e) => s.(pair := Helper.Next(s.pair, e))
    case Dies => s.(pair := Helper.Next(s.pair, Helper.Dies))
    case Closes => s.(closed := true)
  }

  // Everything in these acts can happen, one after the other.
  predicate Path(s: System, acts: seq<Act>)
    decreases |acts|
  {
    acts == [] || (Can(s, acts[0]) && Path(Do(s, acts[0]), acts[1..]))
  }

  function After(s: System, acts: seq<Act>): System
    requires Path(s, acts)
    decreases |acts|
  {
    if acts == [] then s else After(Do(s, acts[0]), acts[1..])
  }

  // ---- Wherever the loop may be ----

  predicate Sensible(p: Place) {
    match p
    case Scanning(o, i) => o + i <= MOST_PORTS
    case Asking(q) => (q.Scanning? || q.Serving?) && Sensible(q)
    case _ => true
  }

  // The thread waits inside a request exactly while one is under way.
  predicate Safe(s: System) {
    && Sensible(s.place) && Helper.Inv(s.pair)
    && (s.pair.run.Idle? || s.pair.run.Waiting?) && (s.pair.run.Waiting? <==> s.place.Asking?)
  }

  lemma ActKeepsSafe(s: System, act: Act)
    requires Safe(s) && Can(s, act)
    ensures Safe(Do(s, act))
    ensures s.closed ==> Do(s, act).closed
    ensures s.pair.helper.Gone? ==> Do(s, act).pair.helper.Gone?
  {
    hide Helper.Inv;
    match act {
      case Asks(port) => Helper.NextKeepsInv(s.pair, Helper.Asks(Request(s.place).0, port));
      case Hears => Helper.NextKeepsInv(s.pair, Helper.Hears);
      case Works(e) => Helper.NextKeepsInv(s.pair, e);
      case Dies => Helper.NextKeepsInv(s.pair, Helper.Dies);
      case _ =>
    }
  }

  lemma {:induction false} PathKeepsSafe(s: System, acts: seq<Act>)
    requires Safe(s) && Path(s, acts)
    ensures Safe(After(s, acts))
    ensures s.closed ==> After(s, acts).closed
    ensures s.pair.helper.Gone? ==> After(s, acts).pair.helper.Gone?
    decreases |acts|
  {
    if acts != [] {
      ActKeepsSafe(s, acts[0]);
      PathKeepsSafe(Do(s, acts[0]), acts[1..]);
    }
  }

  // ---- The end ----

  predicate Dropped(s: System) {
    s.pair.helper.Gone? && s.closed
  }

  // How many acts are left at most once it is dropped. A scan already under way counts what it has left, one that may
  // still be begun the most it could find.
  function Rank(p: Place): nat
    decreases p
  {
    match p
    case Returned => 0
    case Polling => 1
    case Scanning(o, i) => 2 + 2 * o + i
    case Top => 3 + 2 * MOST_PORTS
    case Serving(n) => 4 + 2 * MOST_PORTS + 2 * n
    case Asking(q) => 1 + Rank(q)
  }

  // Once the helper is dead and the pipe closed, whatever happens brings the thread closer to its end.
  lemma ActGetsCloser(s: System, act: Act)
    requires Safe(s) && Dropped(s) && Can(s, act)
    ensures ByThread(act) && Rank(Do(s, act).place) < Rank(s.place)
  {
  }

  // When the thread is at a standstill: it has returned, or it waits for a reply that a living helper has yet to make.
  // A closed pipe makes no difference to that; a dead helper does.
  lemma AtStandstillExactly(s: System)
    requires Safe(s)
    ensures (forall act :: ByThread(act) ==> !Can(s, act)) <==>
            s.place.Returned? || (s.place.Asking? && !s.pair.helper.Gone? && s.pair.toRun == [])
  {
    match s.place {
      case Top => assert Can(s, Moves(Polling));
      case Scanning(o, i) =>
        assert if o > 0 then Can(s, Asks(0)) else Can(s, Moves(if i > 0 then Scanning(0, i - 1) else Polling));
      case Polling => assert Can(s, Moves(Returned));
      case Serving(n) => assert if n > 0 then Can(s, Asks(0)) else Can(s, Moves(Top));
      case Asking(_) => assert Can(s, Hears) <==> s.pair.toRun != [] || s.pair.helper.Gone?;
      case Returned =>
    }
  }

  function Polls(s: System, acts: seq<Act>): nat
    requires Path(s, acts)
    decreases |acts|
  {
    if acts == [] then 0 else (if s.place.Polling? then 1 else 0) + Polls(Do(s, acts[0]), acts[1..])
  }

  // How often a scan is begun.
  function Scans(s: System, acts: seq<Act>): nat
    requires Path(s, acts)
    decreases |acts|
  {
    if acts == [] then 0
    else (if s.place.Top? && Do(s, acts[0]).place.Scanning? then 1 else 0) + Scans(Do(s, acts[0]), acts[1..])
  }

  // However far the loop had come, and in whatever order it was dropped: no more acts follow than the rank of the place
  // it was in, among them at most one more poll and one more scan begun, and when nothing can follow it has returned.
  lemma ShutdownTerminates(before: seq<Act>, acts: seq<Act>)
    requires Path(BEGUN, before) && Dies in before && Closes in before && Path(After(BEGUN, before), acts)
    ensures var s := After(BEGUN, before);
      && |acts| + Rank(After(s, acts).place) <= Rank(s.place)
      && Polls(s, acts) <= 1 && Scans(s, acts) <= 1
      && ((forall act :: !Can(After(s, acts), act)) <==> After(s, acts).place.Returned?)
  {
    hide Path, After, Polls, Scans, Can, Safe;
    assert Safe(BEGUN) by { BeginsSafe(); }
    PathKeepsSafe(BEGUN, before);
    BothDone(BEGUN, before);
    var s := After(BEGUN, before);
    RunsDown(s, acts);
    PathKeepsSafe(s, acts);
    EndsReturned(After(s, acts));
  }

  lemma {:induction false} BothDone(s: System, acts: seq<Act>)
    requires Safe(s) && Path(s, acts)
    ensures Dies in acts ==> After(s, acts).pair.helper.Gone?
    ensures Closes in acts ==> After(s, acts).closed
    decreases |acts|
  {
    hide Safe;
    if acts != [] {
      ActKeepsSafe(s, acts[0]);
      BothDone(Do(s, acts[0]), acts[1..]);
      PathKeepsSafe(Do(s, acts[0]), acts[1..]);
    }
  }

  lemma BeginsSafe()
    ensures Safe(BEGUN)
  {
  }

  lemma EndsReturned(s: System)
    requires Safe(s) && Dropped(s)
    ensures (forall act :: !Can(s, act)) <==> s.place.Returned?
  {
    hide Can;
    AtStandstillExactly(s);
    forall act | Can(s, act) ensures ByThread(act) {
      ActGetsCloser(s, act);
    }
  }

  lemma {:induction false} RunsDown(s: System, acts: seq<Act>)
    requires Safe(s) && Dropped(s) && Path(s, acts)
    ensures |acts| + Rank(After(s, acts).place) <= Rank(s.place)
    ensures Polls(s, acts) <= 1 && Scans(s, acts) <= 1
    ensures s.place.Returned? ==> Polls(s, acts) == 0
    ensures s.place.Returned? || s.place.Polling? || s.place.Scanning? || (s.place.Asking? && s.place.after.Scanning?) ==>
              Scans(s, acts) == 0
    decreases |acts|
  {
    if acts != [] {
      ActKeepsSafe(s, acts[0]);
      ActGetsCloser(s, acts[0]);
      RunsDown(Do(s, acts[0]), acts[1..]);
    }
  }

  // ---- Why the helper goes first ----

  // A thread that waits for a reply waits on for as long as the helper neither works nor dies, pipe closed or not.
  lemma {:induction false} ClosingWakesNoRequest(s: System, acts: seq<Act>)
    requires Safe(s) && s.place.Asking? && !s.pair.helper.Gone? && s.pair.toRun == [] && Path(s, acts)
    requires forall i :: 0 <= i < |acts| ==> !acts[i].Works? && !acts[i].Dies?
    ensures After(s, acts).place == s.place && After(s, acts).pair == s.pair
    decreases |acts|
  {
    if acts != [] {
      AtStandstillExactly(s);
      assert acts[0].Closes?;
      ClosingWakesNoRequest(Do(s, acts[0]), acts[1..]);
    }
  }

  // The loop does come to such a place, so closing the pipe and then waiting for the thread could take for ever.
  lemma CloseAloneIsNotEnough(port: nat) returns (acts: seq<Act>)
    requires port < 0x1_0000
    ensures Path(BEGUN, acts) && !After(BEGUN, acts).pair.helper.Gone? && After(BEGUN, acts).closed
    ensures forall act :: ByThread(act) ==> !Can(After(BEGUN, acts), act)
    ensures !After(BEGUN, acts).place.Returned?
  {
    hide Path, After;
    var s1 := Do(BEGUN, Moves(Scanning(1, 0)));
    var s2 := Do(s1, Asks(port));
    acts := OneMore(s2, Closes, []);
    acts := OneMore(s1, Asks(port), acts);
    acts := OneMore(BEGUN, Moves(Scanning(1, 0)), acts);
  }

  lemma OneMore(s: System, act: Act, rest: seq<Act>) returns (acts: seq<Act>)
    requires Can(s, act) && (rest == [] || Path(Do(s, act), rest))
    ensures acts == [act] + rest && Path(s, acts)
    ensures After(s, acts) == if rest == [] then Do(s, act) else After(Do(s, act), rest)
  {
    acts := [act] + rest;
    assert acts[1..] == rest;
  }

  // ---- That the loop does its work ----

  lemma {:induction false} OneMoreAtTheEnd(s: System, acts: seq<Act>, act: Act) returns (longer: seq<Act>)
    requires Path(s, acts) && Can(After(s, acts), act)
    ensures Path(s, longer) && After(s, longer) == Do(After(s, acts), act)
    ensures forall a :: a in longer ==> a in acts || a == act
    decreases |acts|
  {
    if acts == [] {
      longer := OneMore(s, act, []);
    } else {
      var rest := OneMoreAtTheEnd(Do(s, acts[0]), acts[1..], act);
      longer := [acts[0]] + rest;
      assert longer[1..] == rest;
    }
  }

  // Left alone, the loop comes to scans of any size and any number of ready mirrors, and asks the helper in both.
  lemma EveryPlaceIsReached(p: Place) returns (acts: seq<Act>)
    requires Sensible(p) && !p.Returned?
    requires p.Asking? && p.after.Scanning? ==> p.after.outbound + p.after.inbound < MOST_PORTS
    ensures Path(BEGUN, acts) && After(BEGUN, acts).place == p
    ensures Dies !in acts && Closes !in acts
  {
    hide Path, After;
    acts := Nothing();
    match p {
      case Top =>
      case Scanning(_, _) => acts := OneMoreAtTheEnd(BEGUN, acts, Moves(p));
      case Polling => acts := OneMoreAtTheEnd(BEGUN, acts, Moves(p));
      case Serving(_) =>
        acts := OneMoreAtTheEnd(BEGUN, acts, Moves(Polling));
        acts := OneMoreAtTheEnd(BEGUN, acts, Moves(p));
      case Asking(after) =>
        if after.Scanning? {
          acts := OneMoreAtTheEnd(BEGUN, acts, Moves(Scanning(after.outbound + 1, after.inbound)));
        } else {
          acts := OneMoreAtTheEnd(BEGUN, acts, Moves(Polling));
          acts := OneMoreAtTheEnd(BEGUN, acts, Moves(Serving(after.ready + 1)));
        }
        acts := OneMoreAtTheEnd(BEGUN, acts, Asks(0));
    }
  }

  lemma Nothing() returns (acts: seq<Act>)
    ensures acts == [] && Path(BEGUN, acts) && After(BEGUN, acts) == BEGUN
  {
    acts := [];
  }
}
