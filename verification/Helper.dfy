/** The run and its helper process: requests for sockets and replies over a message socket, with the helper free to die
    between any two steps. */
module Helper {
  type Byte = b: nat | b < 256

  const OP_LISTEN: Byte := 76   // 'L'
  const OP_CONNECT: Byte := 67  // 'C'

  // ---- Frames ----

  // A request is three bytes: the operation, and the port with its low byte first.
  function Encode(op: Byte, port: nat): (r: seq<Byte>)
    requires port < 0x1_0000
  {
    [op, port % 256, port / 256]
  }

  function Decode(frame: seq<Byte>): (r: (Byte, nat))
    requires |frame| == 3
    ensures r.1 < 0x1_0000
  {
    (frame[0], frame[1] as int + 256 * frame[2] as int)
  }

  lemma FramesUndo(op: Byte, port: nat, frame: seq<Byte>)
    requires port < 0x1_0000 && |frame| == 3
    ensures var sent := Encode(op, port);
            |sent| == 3 && sent[0] == op && sent[1] as int + 256 * sent[2] as int == port
    ensures Decode(Encode(op, port)) == (op, port)
    ensures Encode(Decode(frame).0, Decode(frame).1) == frame
  {
  }

  // ---- The two sides ----

  // A socket remembers what it was made for; Tun is the device a localnet helper passes with its first reply.
  datatype Socket = Made(op: Byte, port: nat) | Tun

  datatype RunState = Starting | Idle | Waiting(op: Byte, port: nat) | Refused

  datatype HelperState = Joining | Reading | Making(op: Byte, port: nat) | Gone

  // What one call of `request` returned.
  datatype Answer = Answer(op: Byte, port: nat, sockets: seq<Socket>)

  datatype Pair = Pair(
    run: RunState, helper: HelperState, toHelper: seq<seq<Byte>>, toRun: seq<seq<Socket>>, answers: seq<Answer>)

  const START := Pair(Starting, Joining, [], [], [])

  datatype Event =
    | Joins(localnet: bool)
    | Dies
    | Greets
    | Asks(op: Byte, port: nat)
    | Reads
    | Makes(count: nat)
    | Hears

  // How many sockets the helper can make for one request.
  function Most(op: Byte): nat {
    if op == OP_LISTEN then 2 else if op == OP_CONNECT then 1 else 0
  }

  predicate Enabled(s: Pair, e: Event) {
    match e
    case Joins(_) => s.helper.Joining?
    case Dies => !s.helper.Gone?
    case Greets => s.run.Starting? && (s.toRun != [] || s.helper.Gone?)
    case Asks(_, port) => s.run.Idle? && port < 0x1_0000
    case Reads => s.helper.Reading? && s.toHelper != [] && |s.toHelper[0]| == 3
    case Makes(count) => s.helper.Making? && count <= Most(s.helper.op)
    case Hears => s.run.Waiting? && (s.toRun != [] || s.helper.Gone?)
  }

  // A receive fails only when the other side is gone, and a message already sent is still delivered then.
  function Next(s: Pair, e: Event): Pair {
    if !Enabled(s, e) then s
    else
      match e
      case Joins(localnet) => s.(helper := Reading, toRun := s.toRun + [if localnet then [Tun] else []])
      case Dies => s.(helper := Gone)
      case Greets => if s.toRun != [] then s.(run := Idle, toRun := s.toRun[1..]) else s.(run := Refused)
      case Asks(op, port) =>
        if s.helper.Gone? then s.(answers := s.answers + [Answer(op, port, [])])
        else s.(run := Waiting(op, port), toHelper := s.toHelper + [Encode(op, port)])
      case Reads =>
        var (op, port) := Decode(s.toHelper[0]);
        s.(helper := Making(op, port), toHelper := s.toHelper[1..])
      case Makes(count) =>
        s.(helper := Reading, toRun := s.toRun + [seq(count, i => Made(s.helper.op, s.helper.port))])
      case Hears =>
        var (got, left) := if s.toRun != [] then (s.toRun[0], s.toRun[1..]) else ([], []);
        s.(run := Idle, toRun := left, answers := s.answers + [Answer(s.run.op, s.run.port, got)])
  }

  function RunFrom(s: Pair, events: seq<Event>): Pair {
    if events == [] then s else Next(RunFrom(s, events[..|events| - 1]), events[|events| - 1])
  }

  // ---- Lockstep ----

  predicate MadeFor(sockets: seq<Socket>, op: Byte, port: nat) {
    |sockets| <= Most(op) && forall i :: 0 <= i < |sockets| ==> sockets[i] == Made(op, port)
  }

  predicate AnswersFit(answers: seq<Answer>) {
    forall i :: 0 <= i < |answers| ==> MadeFor(answers[i].sockets, answers[i].op, answers[i].port)
  }

  // Messages and work on their way between the two sides.
  function Outstanding(s: Pair): nat {
    |s.toHelper| + (if s.helper.Making? then 1 else 0) + |s.toRun|
  }

  // Where the one request in flight can be.
  predicate InFlight(s: Pair, op: Byte, port: nat)
    requires port < 0x1_0000
  {
    match s.helper
    case Joining => false
    case Reading =>
      || (s.toHelper == [Encode(op, port)] && s.toRun == [])
      || (s.toHelper == [] && |s.toRun| == 1 && MadeFor(s.toRun[0], op, port))
    case Making(o, p) => o == op && p == port && s.toHelper == [] && s.toRun == []
    case Gone => s.toRun == [] || (|s.toRun| == 1 && s.toHelper == [] && MadeFor(s.toRun[0], op, port))
  }

  predicate Inv(s: Pair) {
    && AnswersFit(s.answers)
    && match s.run
       case Starting =>
         && s.toHelper == [] && s.answers == []
         && (if s.helper.Joining? then s.toRun == []
             else (s.helper.Reading? && |s.toRun| == 1) || (s.helper.Gone? && |s.toRun| <= 1))
       case Refused => s.helper.Gone? && s.toHelper == [] && s.toRun == [] && s.answers == []
       case Idle => s.toRun == [] && ((s.helper.Reading? && s.toHelper == []) || (s.helper.Gone? && |s.toHelper| <= 1))
       case Waiting(op, port) => port < 0x1_0000 && |s.toHelper| <= 1 && InFlight(s, op, port)
  }

  lemma NextKeepsInv(s: Pair, e: Event)
    requires Inv(s)
    ensures Inv(Next(s, e))
  {
    if e.Asks? && e.port < 0x1_0000 {
      FramesUndo(e.op, e.port, [0, 0, 0]);
    }
    if s.run.Waiting? {
      FramesUndo(s.run.op, s.run.port, [0, 0, 0]);
    }
  }

  // In every reachable state at most one request is under way, every answer holds sockets made for exactly the
  // operation and port asked for, and nothing is asked before the helper's first reply has been taken.
  lemma {:induction false} Lockstep(events: seq<Event>)
    ensures var s := RunFrom(START, events);
      && Inv(s)
      && Outstanding(s) <= 1
      && (forall i :: 0 <= i < |s.answers| ==>
            && |s.answers[i].sockets| <= (if s.answers[i].op == 'L' as int then 2
                                          else if s.answers[i].op == 'C' as int then 1 else 0)
            && forall k :: 0 <= k < |s.answers[i].sockets| ==>
                 s.answers[i].sockets[k] == Made(s.answers[i].op, s.answers[i].port))
      && (s.toHelper != [] || s.helper.Making? || s.answers != [] ==> s.run.Idle? || s.run.Waiting?)
      && (s.run.Idle? ==> s.toRun == [])
  {
    if events != [] {
      Lockstep(events[..|events| - 1]);
      NextKeepsInv(RunFrom(START, events[..|events| - 1]), events[|events| - 1]);
    }
  }

  // Whenever the helper dies, every request asked from then on comes back with no socket, and one still waiting gets
  // its own reply if that had been sent and nothing otherwise.
  lemma {:induction false} GoneMeansNothing(before: seq<Event>, events: seq<Event>)
    requires Dies in before
    ensures var s := RunFrom(START, before);
      var t := RunFrom(s, events);
      var waiting := if s.run.Waiting? then 1 else 0;
      && t.helper.Gone? && s.answers <= t.answers
      && (forall i :: |s.answers| + waiting <= i < |t.answers| ==> t.answers[i].sockets == [])
      && (s.run.Waiting? && |t.answers| > |s.answers| ==>
            t.answers[|s.answers|] == Answer(s.run.op, s.run.port, if s.toRun == [] then [] else s.toRun[0]))
  {
    Lockstep(before);
    DeadStaysDead(START, before);
    GoneRun(RunFrom(START, before), events);
  }

  lemma {:induction false} DeadStaysDead(s: Pair, events: seq<Event>)
    requires Dies in events
    ensures RunFrom(s, events).helper.Gone?
  {
    var (before, last) := (events[..|events| - 1], events[|events| - 1]);
    if last != Dies {
      DeadStaysDead(s, before);
    }
  }

  // The first answer after the helper has gone is the waiting request's; until then nothing moves.
  lemma {:induction false} GoneRun(s: Pair, events: seq<Event>)
    requires Inv(s) && s.helper.Gone?
    ensures var t := RunFrom(s, events);
      && Inv(t) && t.helper.Gone? && s.answers <= t.answers
      && (t.run.Waiting? ==> t == s)
      && (s.run.Waiting? && |t.answers| == |s.answers| ==> t == s)
      && (forall i :: |s.answers| + (if s.run.Waiting? then 1 else 0) <= i < |t.answers| ==> t.answers[i].sockets == [])
      && (s.run.Waiting? && |t.answers| > |s.answers| ==>
            t.answers[|s.answers|] == Answer(s.run.op, s.run.port, if s.toRun == [] then [] else s.toRun[0]))
  {
    if events != [] {
      GoneRun(s, events[..|events| - 1]);
      NextKeepsInv(RunFrom(s, events[..|events| - 1]), events[|events| - 1]);
    }
  }

  // While nobody dies, three more steps bring any request its answer.
  lemma RequestsAreAnswered(s: Pair, op: Byte, port: nat, count: nat)
    requires Inv(s) && s.run.Idle? && s.helper.Reading? && port < 0x1_0000 && count <= Most(op)
    ensures Next(Next(Next(Next(s, Asks(op, port)), Reads), Makes(count)), Hears)
            == s.(answers := s.answers + [Answer(op, port, seq(count, i => Made(op, port)))])
  {
    FramesUndo(op, port, [0, 0, 0]);
    var asked := Next(s, Asks(op, port));
    assert asked.toHelper == [Encode(op, port)];
    var read := Next(asked, Reads);
    assert read.toHelper == [];
    var made := Next(read, Makes(count));
    assert made.toRun == [seq(count, i => Made(op, port))];
  }
}
