/** The two-way loopback bridge: scanning both namespaces for listening ports and mirroring each side's on the other,
    while services come and go between any two steps. */
module Mirrors {
  type Port = nat

  datatype Family = V4 | V6

  // One mirrored port on one address family. An outbound mirror listens inside the container, an inbound one on the host.
  datatype Mirror = Mirror(port: Port, inbound: bool, family: Family)

  datatype Side = Host | Container

  // A service opening or closing a port on loopback.
  datatype Event = Opens(side: Side, port: Port) | Closes(side: Side, port: Port)

  // The services genuinely listening, on either side.
  datatype Services = Services(host: set<Port>, container: set<Port>)

  // Which of the two families a listen attempt gets a socket for, the port being free.
  datatype Luck = Luck(v4: bool, v6: bool)

  // The ports mirrors hold in one namespace: inbound mirrors listen on the host.
  function Held(mirrors: seq<Mirror>, side: Side): set<Port> {
    set m | m in mirrors && m.inbound == (side == Host) :: m.port
  }

  function On(services: Services, side: Side): set<Port> {
    if side == Host then services.host else services.container
  }

  // The kernel's rule: a port in one namespace has one owner, so a service cannot open a port a mirror holds.
  function React(services: Services, mirrors: seq<Mirror>, e: Event): Services {
    match e
    case Opens(Host, p) =>
      if p in Held(mirrors, Host) then services else services.(host := services.host + {p})
    case Opens(Container, p) =>
      if p in Held(mirrors, Container) then services else services.(container := services.container + {p})
    case Closes(Host, p) => services.(host := services.host - {p})
    case Closes(Container, p) => services.(container := services.container - {p})
  }

  function ReactAll(services: Services, mirrors: seq<Mirror>, events: seq<Event>): Services {
    if events == [] then services
    else React(ReactAll(services, mirrors, events[..|events| - 1]), mirrors, events[|events| - 1])
  }

  // A scan lists every listening port of a namespace, the loop's own mirrors included.
  function Scan(services: Services, mirrors: seq<Mirror>, side: Side): set<Port> {
    On(services, side) + Held(mirrors, side)
  }

  // No port is owned twice in one namespace.
  predicate OneOwner(services: Services, mirrors: seq<Mirror>) {
    services.host !! Held(mirrors, Host) && services.container !! Held(mirrors, Container)
  }

  // No port is mirrored both ways, and no (direction, port, family) has two mirrors.
  predicate Shape(mirrors: seq<Mirror>) {
    && Held(mirrors, Host) !! Held(mirrors, Container)
    && Distinct(mirrors)
  }

  predicate Distinct(mirrors: seq<Mirror>) {
    forall i, j :: 0 <= i < j < |mirrors| ==> mirrors[i] != mirrors[j]
  }

  // What the environment does to a side, told without naming the mirrors' own bookkeeping.
  lemma ReactInPlainTerms(services: Services, mirrors: seq<Mirror>, p: Port, q: Port)
    ensures q in React(services, mirrors, Opens(Host, p)).host <==>
            q in services.host || (q == p && !exists m :: m in mirrors && m.inbound && m.port == p)
    ensures q in React(services, mirrors, Opens(Container, p)).container <==>
            q in services.container || (q == p && !exists m :: m in mirrors && !m.inbound && m.port == p)
    ensures q in React(services, mirrors, Closes(Host, p)).host <==> q in services.host && q != p
    ensures q in React(services, mirrors, Closes(Container, p)).container <==> q in services.container && q != p
    ensures React(services, mirrors, Opens(Host, p)).container == services.container
            == React(services, mirrors, Closes(Host, p)).container
    ensures React(services, mirrors, Opens(Container, p)).host == services.host
            == React(services, mirrors, Closes(Container, p)).host
  {
  }

  // A scan is polluted by the loop's own mirrors, and taking them out of it leaves exactly the genuine listeners.
  lemma SubtractionIsExact(services: Services, mirrors: seq<Mirror>, side: Side)
    requires OneOwner(services, mirrors)
    ensures forall p :: p in Scan(services, mirrors, Host) <==>
              p in services.host || exists m :: m in mirrors && m.inbound && m.port == p
    ensures forall p :: p in Scan(services, mirrors, Container) <==>
              p in services.container || exists m :: m in mirrors && !m.inbound && m.port == p
    ensures Scan(services, mirrors, Host) - Held(mirrors, Host) == services.host
    ensures Scan(services, mirrors, Container) - Held(mirrors, Container) == services.container
    ensures Scan(services, mirrors, side) - Held(mirrors, side) == On(services, side)
  {
  }

  lemma {:induction false} ServicesKeepOneOwner(services: Services, mirrors: seq<Mirror>, events: seq<Event>)
    requires OneOwner(services, mirrors)
    ensures OneOwner(ReactAll(services, mirrors, events), mirrors)
  {
    if events != [] {
      ServicesKeepOneOwner(services, mirrors, events[..|events| - 1]);
    }
  }

  // ---- One scan's worth of changes ----

  // The sockets a listen attempt on a port yields: none when the port is taken, else one per family that works.
  function Listen(port: Port, inbound: bool, luck: Luck, free: bool): (r: seq<Mirror>)
    ensures forall m :: m in r ==> m.port == port && m.inbound == inbound
    ensures Distinct(r)
    ensures Mirror(port, inbound, V4) in r <==> free && luck.v4
    ensures Mirror(port, inbound, V6) in r <==> free && luck.v6
  {
    if !free then []
    else (if luck.v4 then [Mirror(port, inbound, V4)] else []) + (if luck.v6 then [Mirror(port, inbound, V6)] else [])
  }

  // Which side a mirror of this direction serves from, and which it listens on.
  function SideOf(inbound: bool): Side {
    if inbound then Host else Container
  }

  // Mirrors whose service is still there keep their place.
  function Kept(mirrors: seq<Mirror>, outbound: set<Port>, inbound: set<Port>): (r: seq<Mirror>)
    ensures forall m :: m in r <==> m in mirrors && m.port in (if m.inbound then inbound else outbound)
  {
    if mirrors == [] then []
    else
      var rest := Kept(mirrors[..|mirrors| - 1], outbound, inbound);
      var last := mirrors[|mirrors| - 1];
      if last.port in (if last.inbound then inbound else outbound) then rest + [last] else rest
  }

  lemma {:induction false} KeptStaysDistinct(mirrors: seq<Mirror>, outbound: set<Port>, inbound: set<Port>)
    requires Distinct(mirrors)
    ensures Distinct(Kept(mirrors, outbound, inbound))
  {
    if mirrors != [] {
      var shorter, last := mirrors[..|mirrors| - 1], mirrors[|mirrors| - 1];
      assert forall i :: 0 <= i < |shorter| ==> shorter[i] == mirrors[i] && shorter[i] != last;
      KeptStaysDistinct(shorter, outbound, inbound);
      var rest := Kept(shorter, outbound, inbound);
      assert forall i :: 0 <= i < |rest| ==> rest[i] in shorter;
      assert last !in rest;
      var r := Kept(mirrors, outbound, inbound);
      assert r == rest || r == rest + [last];
      forall i, j | 0 <= i < j < |r| ensures r[i] != r[j] {
        assert r[i] == rest[i] && rest[i] in rest;
        if j < |rest| {
          assert r[j] == rest[j];
        }
      }
    }
  }

  lemma {:induction false} KeptAll(mirrors: seq<Mirror>, outbound: set<Port>, inbound: set<Port>)
    requires forall m :: m in mirrors ==> m.port in (if m.inbound then inbound else outbound)
    ensures Kept(mirrors, outbound, inbound) == mirrors
  {
    if mirrors != [] {
      KeptAll(mirrors[..|mirrors| - 1], outbound, inbound);
    }
  }

  // What the mirrors were after one round of the loop, and when the two sides had been read in it.
  datatype Round = Round(mirrors: seq<Mirror>, hostAt: nat, containerAt: nat)

  // A service is listening on the side a mirror stands for, and none on the mirror's own.
  predicate Wanted(m: Mirror, host: set<Port>, container: set<Port>) {
    if m.inbound then m.port in container && m.port !in host else m.port in host && m.port !in container
  }

  // Every mirror stands for a service genuinely listening on the other side when that was read, and not on its own when
  // that was read: never for another mirror.
  predicate Sound(r: Round, past: seq<Services>) {
    && r.hostAt < r.containerAt < |past| && Shape(r.mirrors)
    && forall m :: m in r.mirrors ==> Wanted(m, past[r.hostAt].host, past[r.containerAt].container)
  }

  // A mirror that is still wanted lives through the round, and so do the connections made over it.
  predicate Steady(before: seq<Mirror>, r: Round, past: seq<Services>) {
    r.hostAt < |past| && r.containerAt < |past| &&
    forall m :: m in before && Wanted(m, past[r.hostAt].host, past[r.containerAt].container) ==> m in r.mirrors
  }

  // Which of a port's two mirrors there are: those whose family could be had, if no service held the port just then.
  predicate MadeAt(mirrors: seq<Mirror>, port: Port, inbound: bool, services: Services, luck: Luck) {
    var free := port !in (if inbound then services.host else services.container);
    && (Mirror(port, inbound, V4) in mirrors <==> free && luck.v4)
    && (Mirror(port, inbound, V6) in mirrors <==> free && luck.v6)
  }

  // The port was tried at some moment from this one on, and has the mirrors that could be had then.
  ghost predicate Made(mirrors: seq<Mirror>, port: Port, inbound: bool, from: nat, past: seq<Services>, luck: nat -> Luck) {
    exists k: nat :: from <= k < |past| && MadeAt(mirrors, port, inbound, past[k], luck(k + 1))
  }

  predicate HasMirror(mirrors: seq<Mirror>, port: Port, inbound: bool) {
    exists m :: m in mirrors && m.port == port && m.inbound == inbound
  }

  // Every wanted port that had no mirror was tried once both sides had been read, for both families; one that had a
  // mirror keeps just those it had.
  ghost predicate Thorough(before: seq<Mirror>, r: Round, past: seq<Services>, luck: nat -> Luck) {
    r.hostAt < |past| && r.containerAt < |past| &&
    forall m: Mirror :: Wanted(m, past[r.hostAt].host, past[r.containerAt].container) ==>
      if HasMirror(before, m.port, m.inbound) then m in r.mirrors <==> m in before
      else Made(r.mirrors, m.port, m.inbound, r.containerAt + 1, past, luck)
  }

  function Rounds(due: seq<bool>): nat {
    if due == [] then 0 else Rounds(due[..|due| - 1]) + if due[|due| - 1] then 1 else 0
  }

  class Bridge {
    // The world: who is really listening, and what happens at each point the bridge can be interrupted at.
    var services: Services
    const events: nat -> seq<Event>
    const luck: nat -> Luck
    var clock: nat
    // Every state the services have been in, one per interruption.
    ghost var past: seq<Services>

    var mirrors: seq<Mirror>

    constructor (services: Services, events: nat -> seq<Event>, luck: nat -> Luck)
      ensures Valid() && mirrors == [] && this.services == services && clock == 0 && past == []
      ensures this.events == events && this.luck == luck
    {
      this.services, this.events, this.luck := services, events, luck;
      clock, past, mirrors := 0, [], [];
    }

    ghost predicate Valid()
      reads this
    {
      OneOwner(services, mirrors) && Shape(mirrors) && |past| == clock
    }

    // Nothing starts or stops from now on.
    ghost predicate Quiet()
      reads this
    {
      forall t :: t >= clock ==> events(t) == []
    }

    // From now on a free port can be listened on.
    ghost predicate Lucky()
      reads this
    {
      forall t :: t >= clock ==> luck(t).v4 || luck(t).v6
    }

    // Anything may happen to the services here.
    method Interrupted()
      requires OneOwner(services, mirrors)
      modifies this`services, this`clock, this`past
      ensures OneOwner(services, mirrors) && clock == old(clock) + 1 && past == old(past) + [services]
      ensures services == ReactAll(old(services), mirrors, events(old(clock)))
      ensures events(old(clock)) == [] ==> services == old(services)
    {
      ServicesKeepOneOwner(services, mirrors, events(clock));
      services := ReactAll(services, mirrors, events(clock));
      clock := clock + 1;
      past := past + [services];
    }

    // Try to listen on one port, for both families.
    method AddMirror(p: Port, inbound: bool)
      requires Valid() && p !in Held(mirrors, Host) && p !in Held(mirrors, Container)
      modifies this
      ensures Valid() && past == old(past) + [services] && clock == old(clock) + 1
      ensures events(old(clock)) == [] ==> services == old(services)
      ensures old(mirrors) <= mirrors
      ensures forall m :: m in mirrors ==> m in old(mirrors) || (m.inbound == inbound && m.port == p)
      ensures Made(mirrors, p, inbound, |old(past)|, past, luck)
      ensures (luck(clock).v4 || luck(clock).v6) && p !in On(services, SideOf(inbound)) ==>
                p in Held(mirrors, SideOf(inbound))
    {
      hide Made, MadeAt;
      Interrupted();
      var made := Listen(p, inbound, luck(clock), p !in On(services, SideOf(inbound)));
      AddingKeepsShape(services, mirrors, made, p, inbound);
      HeldSplits(mirrors, made);
      NowMade(mirrors, made, p, inbound, |old(past)|, past, luck);
      mirrors := mirrors + made;
    }

    // Try to listen on each of these ports, in any order.
    method AddMirrors(ports: set<Port>, inbound: bool)
      requires Valid() && ports !! Held(mirrors, Host) && ports !! Held(mirrors, Container)
      modifies this
      ensures Valid() && old(past) <= past && old(clock) <= clock
      ensures old(mirrors) <= mirrors
      ensures forall m :: m in mirrors ==> m in old(mirrors) || (m.inbound == inbound && m.port in ports)
      ensures old(Quiet()) ==> Quiet() && services == old(services) && Still(past, |old(past)|, services)
      ensures old(Quiet()) && old(Lucky()) ==> Lucky()
      ensures old(Quiet()) && old(Lucky()) && ports !! On(services, SideOf(inbound)) ==>
                forall p :: p in ports ==> p in Held(mirrors, SideOf(inbound))
      ensures ports == {} ==> mirrors == old(mirrors)
      ensures forall p :: p in ports ==> Made(mirrors, p, inbound, |old(past)|, past, luck)
    {
      hide Made, MadeAt, Distinct;
      var todo := ports;
      while todo != {}
        invariant Valid() && old(past) <= past && old(clock) <= clock && todo <= ports
        invariant old(mirrors) <= mirrors
        invariant forall m :: m in mirrors ==> m in old(mirrors) || (m.inbound == inbound && m.port in ports - todo)
        invariant old(Quiet()) ==> services == old(services) && Still(past, |old(past)|, services)
        invariant old(Quiet()) && old(Lucky()) && ports !! On(services, SideOf(inbound)) ==>
                    forall p :: p in ports - todo ==> p in Held(mirrors, SideOf(inbound))
        invariant todo == ports ==> mirrors == old(mirrors)
        invariant forall p :: p in ports - todo ==> Made(mirrors, p, inbound, |old(past)|, past, luck)
      {
        var p :| p in todo;
        todo := todo - {p};
        ghost var (before, earlier) := (past, mirrors);
        assert p !in Held(mirrors, Host) && p !in Held(mirrors, Container);
        AddMirror(p, inbound);
        PrefixHolds(earlier, mirrors);
        MadeStays(earlier, mirrors, p, inbound, ports - todo - {p}, |old(past)|, before, past, luck);
        MadeSooner(mirrors, p, inbound, |before|, |old(past)|, past, luck);
      }
    }

    // Bring the mirrors in line with two scans, whatever those may say.
    method Reconcile(scannedHost: set<Port>, scannedContainer: set<Port>)
      requires Valid()
      modifies this
      ensures Valid() && old(past) <= past
      ensures var host, container := scannedHost - Held(old(mirrors), Host), scannedContainer - Held(old(mirrors), Container);
        && (forall m :: m in mirrors ==> Wanted(m, host, container))
        && (forall m :: m in old(mirrors) && Wanted(m, host, container) ==> m in mirrors)
        && (old(Quiet()) && old(Lucky()) && host == services.host && container == services.container ==>
              && Held(mirrors, Container) == host - container
              && Held(mirrors, Host) == container - host)
        && (Held(old(mirrors), Container) == host - container && Held(old(mirrors), Host) == container - host ==>
              mirrors == old(mirrors))
        && (forall m: Mirror :: Wanted(m, host, container) ==>
              if HasMirror(old(mirrors), m.port, m.inbound) then m in mirrors <==> m in old(mirrors)
              else Made(mirrors, m.port, m.inbound, |old(past)|, past, luck))
      ensures old(Quiet()) ==> Quiet() && services == old(services) && Still(past, |old(past)|, services)
      ensures old(Quiet()) && old(Lucky()) ==> Lucky()
    {
      hide Made, MadeAt, HasMirror, Distinct;
      var oursHost, oursContainer := Held(mirrors, Host), Held(mirrors, Container);
      var host, container := scannedHost - oursHost, scannedContainer - oursContainer;
      var outbound, inbound := host - container, container - host;
      KeepingKeepsShape(services, mirrors, outbound, inbound);
      if oursContainer == outbound && oursHost == inbound {
        AllWanted(mirrors, outbound, inbound);
      }
      mirrors := Kept(mirrors, outbound, inbound);
      ghost var kept := mirrors;
      AddMirrors(outbound - oursContainer, false);
      PrefixHolds(kept, mirrors);
      ghost var half := mirrors;
      ghost var halfway := past;
      AddMirrors(inbound - oursHost, true);
      PrefixHolds(half, mirrors);
      Reconciled(old(mirrors), kept, half, mirrors, host, container, |old(past)|, halfway, past, luck);
    }

    // One round of the loop. The ghost result says when each side was read.
    method Rescan() returns (ghost round: Round)
      requires Valid()
      modifies this
      ensures Valid() && old(past) <= past
      ensures round.mirrors == mirrors && |old(past)| <= round.hostAt
      ensures Sound(round, past) && Steady(old(mirrors), round, past) && Thorough(old(mirrors), round, past, luck)
      // With nothing moving and the same families to be had throughout, a port newly mirrored has just those.
      ensures forall l: Luck :: old(Quiet()) && (forall t :: t >= old(clock) ==> luck(t) == l) ==>
        forall m: Mirror :: Wanted(m, services.host, services.container) && !HasMirror(old(mirrors), m.port, m.inbound) ==>
          (m in mirrors <==> if m.family.V4? then l.v4 else l.v6)
      ensures old(Quiet()) ==> Quiet() && services == old(services)
      ensures old(Quiet()) && old(Lucky()) ==>
        && Lucky()
        && Held(mirrors, Container) == services.host - services.container
        && Held(mirrors, Host) == services.container - services.host
      ensures old(Quiet()) && Held(old(mirrors), Container) == services.host - services.container
                           && Held(old(mirrors), Host) == services.container - services.host ==>
        mirrors == old(mirrors)
    {
      hide Made, MadeAt, HasMirror, Distinct, Scan;
      Interrupted();
      var scannedHost := Scan(services, mirrors, Host);
      SubtractionIsExact(services, mirrors, Host);
      ghost var hostAt := |past| - 1;
      Interrupted();
      var scannedContainer := Scan(services, mirrors, Container);
      SubtractionIsExact(services, mirrors, Container);
      ghost var containerAt := |past| - 1;
      ghost var read := past;
      Reconcile(scannedHost, scannedContainer);
      round := Round(mirrors, hostAt, containerAt);
      assert past[hostAt] == read[hostAt] && past[containerAt] == read[containerAt];
      assert old(Quiet()) ==> Still(past, |old(past)|, services);
      forall l: Luck | old(Quiet()) && (forall t :: t >= old(clock) ==> luck(t) == l)
        ensures forall m: Mirror :: Wanted(m, services.host, services.container)
                                    && !HasMirror(old(mirrors), m.port, m.inbound) ==>
                  (m in mirrors <==> if m.family.V4? then l.v4 else l.v6)
      {
        StillMakes(old(mirrors), round, |old(past)|, past, services, luck, l);
      }
    }

    // With everything standing still the first round settles the mirrors, and no later one changes anything.
    method QuietRounds(count: nat) returns (after: seq<seq<Mirror>>)
      requires Valid() && Quiet() && Lucky()
      modifies this
      ensures Valid() && services == old(services) && |after| == count
      ensures forall i :: 0 <= i < count ==> after[i] == mirrors
      ensures count > 0 ==>
        && Held(mirrors, Container) == services.host - services.container
        && Held(mirrors, Host) == services.container - services.host
    {
      after := [];
      for n := 0 to count
        invariant Valid() && Quiet() && Lucky() && services == old(services) && |after| == n
        invariant forall i :: 0 <= i < n ==> after[i] == mirrors
        invariant n > 0 ==>
          && Held(mirrors, Container) == services.host - services.container
          && Held(mirrors, Host) == services.container - services.host
      {
        var round := Rescan();
        after := after + [mirrors];
      }
    }

    // The loop over a whole run: `due` says which waits end with a rescan. Connections are served without touching
    // the mirrors, so all that happens meanwhile is that services come and go.
    method ForwardLoop(due: seq<bool>) returns (ghost rounds: seq<Round>)
      requires Valid()
      modifies this
      ensures Valid() && old(past) <= past && |rounds| == Rounds(due)
      // In a whole run no round ever leaves a mirror of a mirror, a mirror no service stands behind, or two for one
      // port; and a mirror that is still wanted at the next round is still there.
      ensures forall i :: 0 <= i < |rounds| ==>
        && Sound(rounds[i], past) && |old(past)| <= rounds[i].hostAt
        && Steady(MirrorsAfter(old(mirrors), rounds[..i]), rounds[i], past)
        && Thorough(MirrorsAfter(old(mirrors), rounds[..i]), rounds[i], past, luck)
      ensures forall i :: 0 < i < |rounds| ==> rounds[i - 1].containerAt < rounds[i].hostAt
      ensures mirrors == MirrorsAfter(old(mirrors), rounds)
    {
      hide Sound, Steady, Thorough;
      rounds := [];
      for n := 0 to |due|
        invariant Valid() && old(past) <= past && |rounds| == Rounds(due[..n])
        invariant History(old(mirrors), rounds, |old(past)|, past, luck) && mirrors == MirrorsAfter(old(mirrors), rounds)
      {
        ghost var before := past;
        assert due[..n + 1][..n] == due[..n];
        if due[n] {
          ghost var round := Rescan();
          HistoryStays(old(mirrors), rounds, |old(past)|, before, past, luck);
          assert (rounds + [round])[..|rounds|] == rounds;
          rounds := rounds + [round];
          before := past;
        }
        Interrupted();
        HistoryStays(old(mirrors), rounds, |old(past)|, before, past, luck);
      }
      assert due[..|due|] == due;
      forall i | 0 <= i < |rounds|
        ensures Sound(rounds[i], past) && |old(past)| <= rounds[i].hostAt
        ensures Steady(MirrorsAfter(old(mirrors), rounds[..i]), rounds[i], past)
        ensures Thorough(MirrorsAfter(old(mirrors), rounds[..i]), rounds[i], past, luck)
        ensures i > 0 ==> rounds[i - 1].containerAt < rounds[i].hostAt
      {
        EveryRoundIsSound(old(mirrors), rounds, |old(past)|, past, luck, i);
      }
    }
  }

  // One round after another, the first starting from these mirrors and this point.
  ghost predicate History(first: seq<Mirror>, rounds: seq<Round>, from: nat, past: seq<Services>, luck: nat -> Luck) {
    rounds == [] ||
    var (before, last) := (rounds[..|rounds| - 1], rounds[|rounds| - 1]);
    && History(first, before, from, past, luck)
    && (if before == [] then from <= last.hostAt else before[|before| - 1].containerAt < last.hostAt)
    && Sound(last, past) && Steady(MirrorsAfter(first, before), last, past)
    && Thorough(MirrorsAfter(first, before), last, past, luck)
  }

  lemma {:induction false} HistoryStays(first: seq<Mirror>, rounds: seq<Round>, from: nat,
                                        past: seq<Services>, longer: seq<Services>, luck: nat -> Luck)
    requires History(first, rounds, from, past, luck) && past <= longer
    ensures History(first, rounds, from, longer, luck)
    ensures rounds != [] ==> rounds[|rounds| - 1].containerAt < |past|
  {
    if rounds != [] {
      HistoryStays(first, rounds[..|rounds| - 1], from, past, longer, luck);
      ThoroughStays(MirrorsAfter(first, rounds[..|rounds| - 1]), rounds[|rounds| - 1], past, longer, luck);
    }
  }

  // What the history says of each of its rounds.
  lemma {:induction false} EveryRoundIsSound(first: seq<Mirror>, rounds: seq<Round>, from: nat, past: seq<Services>,
                                             luck: nat -> Luck, i: nat)
    requires History(first, rounds, from, past, luck) && i < |rounds|
    ensures Sound(rounds[i], past) && from <= rounds[i].hostAt
    ensures Steady(MirrorsAfter(first, rounds[..i]), rounds[i], past)
    ensures Thorough(MirrorsAfter(first, rounds[..i]), rounds[i], past, luck)
    ensures i > 0 ==> rounds[i - 1].containerAt < rounds[i].hostAt
  {
    hide Sound, Steady, Thorough;
    var before := rounds[..|rounds| - 1];
    assert i < |before| ==> before[..i] == rounds[..i];
    if i < |before| {
      EveryRoundIsSound(first, before, from, past, luck, i);
    } else if before != [] {
      EveryRoundIsSound(first, before, from, past, luck, i - 1);
      RoundTakesTime(before[i - 1], past);
    }
  }

  lemma ThoroughStays(before: seq<Mirror>, r: Round, past: seq<Services>, longer: seq<Services>, luck: nat -> Luck)
    requires Thorough(before, r, past, luck) && past <= longer
    ensures Thorough(before, r, longer, luck)
  {
    hide HasMirror;
    forall m: Mirror | Wanted(m, past[r.hostAt].host, past[r.containerAt].container)
                       && !HasMirror(before, m.port, m.inbound)
      ensures Made(r.mirrors, m.port, m.inbound, r.containerAt + 1, longer, luck)
    {
      MadeLater(r.mirrors, r.mirrors, m.port, m.inbound, r.containerAt + 1, past, longer, luck);
    }
  }

  lemma RoundTakesTime(r: Round, past: seq<Services>)
    requires Sound(r, past)
    ensures r.hostAt < r.containerAt < |past|
  {
  }

  function MirrorsAfter(first: seq<Mirror>, rounds: seq<Round>): seq<Mirror> {
    if rounds == [] then first else rounds[|rounds| - 1].mirrors
  }

  // ---- Attempts ----

  lemma HasMirrorIsHeld(mirrors: seq<Mirror>, port: Port, inbound: bool)
    ensures HasMirror(mirrors, port, inbound) <==> port in Held(mirrors, SideOf(inbound))
  {
  }

  lemma NowMade(mirrors: seq<Mirror>, made: seq<Mirror>, port: Port, inbound: bool, from: nat, past: seq<Services>,
                luck: nat -> Luck)
    requires from < |past| && port !in Held(mirrors, SideOf(inbound))
    requires made == Listen(port, inbound, luck(|past|), port !in On(past[|past| - 1], SideOf(inbound)))
    ensures Made(mirrors + made, port, inbound, from, past, luck)
  {
    var k := |past| - 1;
    assert forall f :: Mirror(port, inbound, f) in mirrors ==> port in Held(mirrors, SideOf(inbound));
    assert MadeAt(mirrors + made, port, inbound, past[k], luck(k + 1));
  }

  lemma MadeStays(before: seq<Mirror>, after: seq<Mirror>, port: Port, inbound: bool, others: set<Port>, from: nat,
                  past: seq<Services>, longer: seq<Services>, luck: nat -> Luck)
    requires past <= longer && before <= after && port !in others
    requires forall m :: m in after ==> m in before || m.port == port
    requires forall p :: p in others ==> Made(before, p, inbound, from, past, luck)
    ensures forall p :: p in others ==> Made(after, p, inbound, from, longer, luck)
  {
    forall p | p in others ensures Made(after, p, inbound, from, longer, luck) {
      MadeLater(before, after, p, inbound, from, past, longer, luck);
    }
  }

  // Nothing moved from this moment on.
  predicate Still(past: seq<Services>, from: nat, services: Services) {
    forall k :: from <= k < |past| ==> past[k] == services
  }

  lemma StillMakes(before: seq<Mirror>, r: Round, from: nat, past: seq<Services>, services: Services, luck: nat -> Luck,
                   l: Luck)
    requires Thorough(before, r, past, luck) && Still(past, from, services) && from <= r.hostAt && from <= r.containerAt
    requires forall t :: t >= from ==> luck(t) == l
    ensures forall m: Mirror :: Wanted(m, services.host, services.container) && !HasMirror(before, m.port, m.inbound) ==>
              (m in r.mirrors <==> if m.family.V4? then l.v4 else l.v6)
  {
    hide HasMirror;
    forall m: Mirror | Wanted(m, services.host, services.container) && !HasMirror(before, m.port, m.inbound)
      ensures m in r.mirrors <==> if m.family.V4? then l.v4 else l.v6
    {
      var k: nat :| r.containerAt + 1 <= k < |past| && MadeAt(r.mirrors, m.port, m.inbound, past[k], luck(k + 1));
      assert m == Mirror(m.port, m.inbound, if m.family.V4? then V4 else V6);
    }
  }

  // What keeping and adding come to together.
  lemma Reconciled(before: seq<Mirror>, kept: seq<Mirror>, half: seq<Mirror>, after: seq<Mirror>, host: set<Port>,
                   container: set<Port>, from: nat, halfway: seq<Services>, past: seq<Services>, luck: nat -> Luck)
    requires kept == Kept(before, host - container, container - host)
    requires kept <= half <= after && from <= |halfway| && halfway <= past
    requires forall m :: m in half ==> m in kept || (!m.inbound && m.port in host - container - Held(before, Container))
    requires forall m :: m in after ==> m in half || (m.inbound && m.port in container - host - Held(before, Host))
    requires forall p :: p in host - container - Held(before, Container) ==> Made(half, p, false, from, halfway, luck)
    requires forall p :: p in container - host - Held(before, Host) ==> Made(after, p, true, |halfway|, past, luck)
    ensures forall m: Mirror :: Wanted(m, host, container) ==>
              if HasMirror(before, m.port, m.inbound) then m in after <==> m in before
              else Made(after, m.port, m.inbound, from, past, luck)
  {
    hide Made, HasMirror;
    forall m: Mirror | Wanted(m, host, container)
      ensures if HasMirror(before, m.port, m.inbound) then m in after <==> m in before
              else Made(after, m.port, m.inbound, from, past, luck)
    {
      HasMirrorIsHeld(before, m.port, m.inbound);
      if !HasMirror(before, m.port, m.inbound) {
        if m.inbound {
          MadeSooner(after, m.port, true, |halfway|, from, past, luck);
        } else {
          MadeLater(half, after, m.port, false, from, halfway, past, luck);
        }
      }
    }
  }

  lemma MadeLater(before: seq<Mirror>, after: seq<Mirror>, port: Port, inbound: bool, from: nat,
                  past: seq<Services>, longer: seq<Services>, luck: nat -> Luck)
    requires past <= longer && Made(before, port, inbound, from, past, luck)
    requires forall f :: Mirror(port, inbound, f) in after <==> Mirror(port, inbound, f) in before
    ensures Made(after, port, inbound, from, longer, luck)
  {
    var k: nat :| from <= k < |past| && MadeAt(before, port, inbound, past[k], luck(k + 1));
    assert MadeAt(after, port, inbound, longer[k], luck(k + 1));
  }

  lemma MadeSooner(mirrors: seq<Mirror>, port: Port, inbound: bool, from: nat, sooner: nat, past: seq<Services>,
                   luck: nat -> Luck)
    requires sooner <= from && Made(mirrors, port, inbound, from, past, luck)
    ensures Made(mirrors, port, inbound, sooner, past, luck)
  {
  }

  lemma PrefixHolds(before: seq<Mirror>, after: seq<Mirror>)
    requires before <= after
    ensures Held(before, Host) <= Held(after, Host) && Held(before, Container) <= Held(after, Container)
  {
    assert forall m :: m in before ==> m in after;
  }

  // New mirrors on a port no mirror holds, and no service on that side, keep both invariants.
  lemma AddingKeepsShape(services: Services, mirrors: seq<Mirror>, made: seq<Mirror>, p: Port, inbound: bool)
    requires OneOwner(services, mirrors) && Shape(mirrors)
    requires forall m :: m in made ==> m.port == p && m.inbound == inbound
    requires Distinct(made)
    requires p !in Held(mirrors, Host) && p !in Held(mirrors, Container)
    requires made != [] ==> p !in On(services, SideOf(inbound))
    ensures OneOwner(services, mirrors + made) && Shape(mirrors + made)
  {
    HeldSplits(mirrors, made);
    forall i, j | 0 <= i < j < |mirrors + made| ensures (mirrors + made)[i] != (mirrors + made)[j] {
      if i < |mirrors| <= j {
        assert mirrors[i] in mirrors && made[j - |mirrors|] in made;
        assert mirrors[i].port in Held(mirrors, SideOf(mirrors[i].inbound));
      }
    }
  }

  lemma HeldSplits(mirrors: seq<Mirror>, made: seq<Mirror>)
    ensures Held(mirrors + made, Host) == Held(mirrors, Host) + Held(made, Host)
    ensures Held(mirrors + made, Container) == Held(mirrors, Container) + Held(made, Container)
  {
  }

  lemma KeepingKeepsShape(services: Services, mirrors: seq<Mirror>, outbound: set<Port>, inbound: set<Port>)
    requires OneOwner(services, mirrors) && Shape(mirrors)
    ensures OneOwner(services, Kept(mirrors, outbound, inbound)) && Shape(Kept(mirrors, outbound, inbound))
    ensures Held(Kept(mirrors, outbound, inbound), Host) == Held(mirrors, Host) * inbound
    ensures Held(Kept(mirrors, outbound, inbound), Container) == Held(mirrors, Container) * outbound
  {
    KeptStaysDistinct(mirrors, outbound, inbound);
    var kept := Kept(mirrors, outbound, inbound);
    assert Held(kept, Host) <= Held(mirrors, Host) && Held(kept, Container) <= Held(mirrors, Container);
    forall p | p in Held(mirrors, Host) * inbound ensures p in Held(kept, Host) {
      var m :| m in mirrors && m.inbound && m.port == p;
      assert m in kept;
    }
    forall p | p in Held(mirrors, Container) * outbound ensures p in Held(kept, Container) {
      var m :| m in mirrors && !m.inbound && m.port == p;
      assert m in kept;
    }
  }

  lemma AllWanted(mirrors: seq<Mirror>, outbound: set<Port>, inbound: set<Port>)
    requires Held(mirrors, Container) <= outbound && Held(mirrors, Host) <= inbound
    ensures Kept(mirrors, outbound, inbound) == mirrors
  {
    forall m | m in mirrors ensures m.port in (if m.inbound then inbound else outbound) {
      assert m.port in Held(mirrors, SideOf(m.inbound));
    }
    KeptAll(mirrors, outbound, inbound);
  }
}
