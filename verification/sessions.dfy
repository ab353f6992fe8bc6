/** manager.c: the gateway's live sessions, one per device, each with a radio socket. */
module Sessions {
  import opened Bytes
  import opened SlotTable
  import KnownPeers

  const MAX_PEERS := KnownPeers.MAX_PEERS
  const EPERM: int := -1
  const EINVAL: int := -22
  const EUSERS: int := -87

  /** struct peer: a free one keeps its last address; only socket_fd says whether it is in use. */
  datatype Session = Session(mac: Mac, socketFd: int, ksock: int, kwatch: nat)

  predicate Live(p: Session) {
    p.socketFd != -1
  }

  function MacOf(p: Session): Mac {
    p.mac
  }

  function FdOf(p: Session): int {
    p.socketFd
  }

  const FREE_SESSION := Session(NO_MAC, -1, 0, 0)

  /** The daemon's state; `radioOpened` and `radioClosed` record the radio sockets and are never read by it. */
  datatype Gateway = Gateway(
    peers: seq<Session>, count: nat, known: KnownPeers.Table, radioOpened: multiset<int>, radioClosed: multiset<int>)

  /** What the surroundings answer: a radio socket, a socket to knotd, the connect request, a watch identifier. */
  datatype Answers = Answers(nsk: int, sock: int, connect: int, watch: nat)

  /** hal_comm_socket hands out at most pipe 5, and glib's watch identifiers are positive. */
  predicate AnswersOk(a: Answers) {
    a.nsk <= 5 && a.watch > 0
  }

  /** ksock is an int8_t. */
  function Int8(x: int): (y: int)
    ensures -128 <= y < 128
  {
    (x + 128) % 256 - 128
  }

  /** get_peer's scan: a live session of the device from i on. */
  function PeerAt(peers: seq<Session>, mac: Mac, i: nat): (k: nat)
    requires i <= |peers|
    ensures i <= k <= |peers|
    ensures k < |peers| ==> Live(peers[k]) && peers[k].mac == mac
    ensures forall j :: i <= j < k ==> !(Live(peers[j]) && peers[j].mac == mac)
    decreases |peers| - i
  {
    if i == |peers| || (Live(peers[i]) && peers[i].mac == mac) then i else PeerAt(peers, mac, i + 1)
  }

  /** get_peer_index's scan. */
  function FreeAt(peers: seq<Session>, i: nat): (k: nat)
    requires i <= |peers|
    ensures i <= k <= |peers|
    ensures k < |peers| ==> !Live(peers[k])
    ensures forall j :: i <= j < k ==> Live(peers[j])
    decreases |peers| - i
  {
    if i == |peers| || !Live(peers[i]) then i else FreeAt(peers, i + 1)
  }

  // --- events ---

  predicate Shape(g: Gateway) {
    |g.peers| == MAX_PEERS && |g.known.slots| == MAX_PEERS
  }

  function OpenSession(g: Gateway, at: nat, mac: Mac, a: Answers): (h: Gateway)
    requires Shape(g) && at < MAX_PEERS
    ensures Shape(h)
  {
    g.(peers := g.peers[at := Session(mac, a.nsk, Int8(a.sock), a.watch)],
       count := (g.count + 1) % 256,
       known := g.known.(slots := KnownPeers.Marked(g.known.slots, mac)),
       radioOpened := g.radioOpened + multiset{a.nsk})
  }

  function Presence(g: Gateway, mac: Mac, a: Answers): (r: (Gateway, int))
    requires Shape(g)
    ensures Shape(r.0)
  {
    if KnownPeers.Permission(g.known.slots, mac) < 0 then (g, EPERM)
    else if g.count >= MAX_PEERS then (g, EUSERS)
    else if PeerAt(g.peers, mac, 0) < MAX_PEERS then (g, a.connect)
    else
      var at := FreeAt(g.peers, 0);
      if at == MAX_PEERS then (g, EUSERS)
      else if a.nsk < 0 then (g, a.nsk)
      else if a.sock < 0
      then (g.(radioOpened := g.radioOpened + multiset{a.nsk}, radioClosed := g.radioClosed + multiset{a.nsk}), a.sock)
      else (OpenSession(g, at, mac, a), a.connect)
  }

  /** kwatch_io_destroy. */
  function Release(g: Gateway, i: nat): (h: Gateway)
    requires Shape(g) && i < MAX_PEERS
    ensures Shape(h)
  {
    g.(peers := g.peers[i := g.peers[i].(socketFd := -1, kwatch := 0)],
       count := (g.count + 255) % 256,
       radioClosed := g.radioClosed + multiset{g.peers[i].socketFd})
  }

  /** Removing the watch destroys it there and then. */
  function Disconnected(g: Gateway, mac: Mac): (r: (Gateway, int))
    requires Shape(g)
    ensures Shape(r.0)
  {
    var at := PeerAt(g.peers, mac, 0);
    if g.count == 0 || at == MAX_PEERS then (g, EINVAL) else (Release(g, at), 0)
  }

  /** knotd closes or fails the socket of slot i; it is only noticed while the watch is there. */
  function Hangup(g: Gateway, i: nat): (h: Gateway)
    requires Shape(g)
    ensures Shape(h)
  {
    if i < MAX_PEERS && g.peers[i].kwatch != 0 then Release(g, i) else g
  }

  datatype Event =
    | PresenceEvent(mac: Mac, answers: Answers)
    | DisconnectedEvent(gone: Mac)
    | HangupEvent(slot: nat)
    | Devices(call: KnownPeers.Call)

  predicate EventOk(e: Event) {
    e.PresenceEvent? ==> AnswersOk(e.answers)
  }

  function Step(g: Gateway, e: Event): (h: Gateway)
    requires Shape(g)
    ensures Shape(h)
  {
    match e
    case PresenceEvent(mac, a) => Presence(g, mac, a).0
    case DisconnectedEvent(mac) => Disconnected(g, mac).0
    case HangupEvent(i) => Hangup(g, i)
    case Devices(call) => g.(known := KnownPeers.Step(g.known, call).0)
  }

  function Run(g: Gateway, events: seq<Event>): (h: Gateway)
    requires Shape(g)
    ensures Shape(h)
    decreases |events|
  {
    if events == [] then g else Run(Step(g, events[0]), events[1..])
  }

  // --- what every reachable state satisfies ---

  ghost predicate Inv(g: Gateway) {
    && Shape(g)
    && g.count == Count(g.peers, Live)
    && Distinct(g.peers, Live, MacOf)
    && (forall i :: 0 <= i < MAX_PEERS ==> (Live(g.peers[i]) <==> g.peers[i].kwatch != 0))
    && g.radioOpened == g.radioClosed + Values(g.peers, Live, FdOf)
  }

  /** The devices with a session. */
  ghost function Devs(g: Gateway): (s: set<Mac>) {
    Keys(g.peers, Live, MacOf)
  }

  /** Once the count check has passed, get_peer_index finds a slot; and the count is the number of sessions. */
  lemma CountMeansRoom(g: Gateway)
    requires Inv(g)
    ensures FreeAt(g.peers, 0) < MAX_PEERS <==> g.count < MAX_PEERS
    ensures g.count == |Devs(g)| <= MAX_PEERS
  {
    RoomIff(g.peers, Live, FreeAt(g.peers, 0));
    CountIsCardinality(g.peers, Live, MacOf);
  }

  lemma {:induction false} LiveIsFound(g: Gateway, mac: Mac)
    requires Shape(g)
    ensures mac in Devs(g) <==> PeerAt(g.peers, mac, 0) < MAX_PEERS
  {
    var at := PeerAt(g.peers, mac, 0);
    if at < MAX_PEERS {
      assert Live(g.peers[at]) && MacOf(g.peers[at]) == mac;
    }
  }

  lemma OpenAccounted(g: Gateway, at: nat, x: Session)
    requires Inv(g) && at < MAX_PEERS && !Live(g.peers[at]) && Live(x)
    ensures g.radioOpened + multiset{x.socketFd} == g.radioClosed + Values(g.peers[at := x], Live, FdOf)
  {
    ValuesUpdate(g.peers, Live, FdOf, at, x);
    var v := Values(g.peers, Live, FdOf);
    assert Values(g.peers[at := x], Live, FdOf) == v + multiset{x.socketFd};
    assert (g.radioClosed + v) + multiset{x.socketFd} == g.radioClosed + (v + multiset{x.socketFd});
  }

  lemma ReleaseAccounted(g: Gateway, i: nat, x: Session)
    requires Inv(g) && i < MAX_PEERS && Live(g.peers[i]) && !Live(x)
    ensures g.radioOpened == g.radioClosed + multiset{g.peers[i].socketFd} + Values(g.peers[i := x], Live, FdOf)
  {
    ValuesUpdate(g.peers, Live, FdOf, i, x);
    var v, fd := Values(g.peers[i := x], Live, FdOf), multiset{g.peers[i].socketFd};
    assert Values(g.peers, Live, FdOf) == v + fd;
    assert g.radioClosed + (v + fd) == (g.radioClosed + fd) + v;
  }

  lemma {:induction false} OpenKeeps(g: Gateway, at: nat, mac: Mac, a: Answers)
    requires Inv(g) && AnswersOk(a) && a.nsk >= 0 && at < MAX_PEERS && !Live(g.peers[at])
    requires PeerAt(g.peers, mac, 0) == MAX_PEERS
    ensures Inv(OpenSession(g, at, mac, a)) && Devs(OpenSession(g, at, mac, a)) == Devs(g) + {mac}
  {
    var x := Session(mac, a.nsk, Int8(a.sock), a.watch);
    assert Live(x);
    CountUpdate(g.peers, Live, at, x);
    OpenAccounted(g, at, x);
    LiveIsFound(g, mac);
    DistinctAdd(g.peers, Live, MacOf, at, x);
    hide Count, Values, Distinct, Keys;
    KeysAdd(g.peers, Live, MacOf, at, x);
  }

  lemma ReleaseKeeps(g: Gateway, i: nat)
    requires Inv(g) && i < MAX_PEERS && Live(g.peers[i])
    ensures Inv(Release(g, i)) && Devs(Release(g, i)) == Devs(g) - {g.peers[i].mac}
  {
    var x := g.peers[i].(socketFd := -1, kwatch := 0);
    assert !Live(x);
    CountUpdate(g.peers, Live, i, x);
    ReleaseAccounted(g, i, x);
    DistinctRemove(g.peers, Live, MacOf, i, x);
    hide Count, Values, Distinct, Keys;
    KeysRemove(g.peers, Live, MacOf, i, x);
  }

  /**
    * A presence opens a session exactly for a device that is let in, has none, finds room, and whose two
    * sockets could be made; anything else leaves the sessions alone and says why.
    */
  lemma PresenceRefines(g: Gateway, mac: Mac, a: Answers)
    requires Inv(g) && AnswersOk(a)
    ensures var (h, r) := Presence(g, mac, a);
            var permitted := KnownPeers.Permission(g.known.slots, mac) == 0;
            var opens := permitted && |Devs(g)| < MAX_PEERS && mac !in Devs(g) && a.nsk >= 0 && a.sock >= 0;
            && Inv(h)
            && Devs(h) == (if opens then Devs(g) + {mac} else Devs(g))
            && r == (if !permitted then EPERM
                     else if |Devs(g)| == MAX_PEERS then EUSERS
                     else if mac in Devs(g) then a.connect
                     else if a.nsk < 0 then a.nsk
                     else if a.sock < 0 then a.sock
                     else a.connect)
  {
    CountMeansRoom(g);
    LiveIsFound(g, mac);
    if KnownPeers.Permission(g.known.slots, mac) == 0 && |Devs(g)| < MAX_PEERS && mac !in Devs(g)
       && a.nsk >= 0 && a.sock >= 0 {
      OpenKeeps(g, FreeAt(g.peers, 0), mac, a);
    }
  }

  /** A disconnect event ends exactly the session of the device it names. */
  lemma DisconnectedRefines(g: Gateway, mac: Mac)
    requires Inv(g)
    ensures var (h, r) := Disconnected(g, mac);
            && Inv(h) && Devs(h) == Devs(g) - {mac} && r == if mac in Devs(g) then 0 else EINVAL
  {
    CountMeansRoom(g);
    LiveIsFound(g, mac);
    var at := PeerAt(g.peers, mac, 0);
    if at < MAX_PEERS {
      assert Devs(g) != {};
      ReleaseKeeps(g, at);
    }
  }

  lemma HangupRefines(g: Gateway, i: nat)
    requires Inv(g)
    ensures var h := Hangup(g, i);
            Inv(h) && Devs(h) == if i < MAX_PEERS && Live(g.peers[i]) then Devs(g) - {g.peers[i].mac} else Devs(g)
  {
    if i < MAX_PEERS && Live(g.peers[i]) {
      ReleaseKeeps(g, i);
    }
  }

  /** The first slot without a session. */
  ghost predicate FirstFree(peers: seq<Session>, i: nat) {
    i < |peers| && peers[i].socketFd == -1 && forall j :: 0 <= j < i ==> peers[j].socketFd != -1
  }

  /**
    * A session that is opened takes the first free slot with the device's own sockets and watch, and its
    * device goes online; no other slot changes. If none is opened no slot and no known device changes, and
    * a radio socket made in vain is closed.
    */
  lemma PresenceRecords(g: Gateway, mac: Mac, a: Answers) returns (i: nat)
    requires Inv(g) && AnswersOk(a)
    ensures var h := Presence(g, mac, a).0;
            var wanted := KnownPeers.Permission(g.known.slots, mac) == 0 && |Devs(g)| < MAX_PEERS && mac !in Devs(g);
            if wanted && a.nsk >= 0 && a.sock >= 0
            then
              && FirstFree(g.peers, i) && h.peers == g.peers[i := Session(mac, a.nsk, Int8(a.sock), a.watch)]
              && h.known == g.known.(slots := KnownPeers.Marked(g.known.slots, mac))
              && h.radioOpened == g.radioOpened + multiset{a.nsk} && h.radioClosed == g.radioClosed
            else
              && h.peers == g.peers && h.known == g.known
              && var inVain := if wanted && a.nsk >= 0 then multiset{a.nsk} else multiset{};
                 h.radioOpened == g.radioOpened + inVain && h.radioClosed == g.radioClosed + inVain
  {
    i := FreeAt(g.peers, 0);
    CountMeansRoom(g);
    LiveIsFound(g, mac);
  }

  /** Ending a session frees its slot and its watch, closes its radio socket, and touches no other slot. */
  ghost predicate Ended(g: Gateway, h: Gateway, i: nat)
    requires Shape(g) && i < MAX_PEERS
  {
    && h.peers == g.peers[i := g.peers[i].(socketFd := -1, kwatch := 0)] && h.known == g.known
    && h.radioClosed == g.radioClosed + multiset{g.peers[i].socketFd} && h.radioOpened == g.radioOpened
  }

  lemma DisconnectedRecords(g: Gateway, mac: Mac) returns (i: nat)
    requires Inv(g)
    ensures var h := Disconnected(g, mac).0;
            if mac in Devs(g) then i < MAX_PEERS && Live(g.peers[i]) && g.peers[i].mac == mac && Ended(g, h, i)
            else h == g
  {
    i := PeerAt(g.peers, mac, 0);
    CountMeansRoom(g);
    LiveIsFound(g, mac);
    if mac in Devs(g) {
      assert Devs(g) != {};
    }
  }

  lemma HangupRecords(g: Gateway, i: nat)
    requires Inv(g)
    ensures if i < MAX_PEERS && Live(g.peers[i]) then Ended(g, Hangup(g, i), i) else Hangup(g, i) == g
  {
  }

  lemma StepKeeps(g: Gateway, e: Event)
    requires Inv(g) && EventOk(e)
    ensures Inv(Step(g, e))
  {
    match e
    case PresenceEvent(mac, a) => PresenceRefines(g, mac, a);
    case DisconnectedEvent(mac) => DisconnectedRefines(g, mac);
    case HangupEvent(i) => HangupRefines(g, i);
    case Devices(call) =>
  }

  lemma {:induction false} RunKeeps(g: Gateway, events: seq<Event>)
    requires Inv(g) && forall i :: 0 <= i < |events| ==> EventOk(events[i])
    ensures Inv(Run(g, events))
    decreases |events|
  {
    if events != [] {
      assert EventOk(events[0]);
      StepKeeps(g, events[0]);
      RunKeeps(Step(g, events[0]), events[1..]);
    }
  }

  function Initial(known: KnownPeers.Table): (g: Gateway)
    requires |known.slots| == MAX_PEERS
    ensures Shape(g)
  {
    Gateway([FREE_SESSION, FREE_SESSION, FREE_SESSION, FREE_SESSION, FREE_SESSION], 0, known, multiset{}, multiset{})
  }

  lemma InitialInv(known: KnownPeers.Table)
    requires |known.slots| == MAX_PEERS
    ensures Inv(Initial(known))
  {
    var g := Initial(known);
    CountFree(g.peers, Live);
    NoValues(g.peers);
  }

  lemma {:induction false} NoValues(peers: seq<Session>)
    requires forall i :: 0 <= i < |peers| ==> !Live(peers[i])
    ensures Values(peers, Live, FdOf) == multiset{}
  {
    if peers != [] {
      NoValues(peers[..|peers| - 1]);
    }
  }

  /**
    * Under any interleaving of presences, disconnects, hang-ups and changes to the known devices: the
    * client count is the number of sessions, no device has two, a slot is found whenever the count check
    * passes, and every radio socket opened is either that of a session or closed, exactly once.
    */
  lemma {:induction false} SessionsHold(known: KnownPeers.Table, events: seq<Event>)
    requires |known.slots| == MAX_PEERS && forall i :: 0 <= i < |events| ==> EventOk(events[i])
    ensures var g := Run(Initial(known), events);
            && g.count == |Devs(g)| <= MAX_PEERS
            && (forall i, j :: 0 <= i < j < MAX_PEERS && Live(g.peers[i]) && Live(g.peers[j]) ==>
                  g.peers[i].mac != g.peers[j].mac)
            && (g.count < MAX_PEERS ==> FreeAt(g.peers, 0) < MAX_PEERS)
            && g.radioOpened == g.radioClosed + Values(g.peers, Live, FdOf)
  {
    InitialInv(known);
    RunKeeps(Initial(known), events);
    var g := Run(Initial(known), events);
    CountMeansRoom(g);
    forall i, j | 0 <= i < j < MAX_PEERS && Live(g.peers[i]) && Live(g.peers[j])
      ensures g.peers[i].mac != g.peers[j].mac
    {
      assert MacOf(g.peers[i]) != MacOf(g.peers[j]);
    }
  }

  // --- the daemon's tables, changed in place ---

  class Manager {
    const peers: array<Session>
    var countClients: nat
    const adapter: KnownPeers.Adapter
    ghost var radioOpened: multiset<int>
    ghost var radioClosed: multiset<int>

    ghost function State(): (g: Gateway)
      reads this, peers, adapter, adapter.known
    {
      Gateway(peers[..], countClients, adapter.Contents(), radioOpened, radioClosed)
    }

    ghost predicate Valid()
      reads this, peers, adapter, adapter.known
    {
      Shape(State())
    }

    constructor (adapter: KnownPeers.Adapter)
      requires adapter.known.Length == MAX_PEERS
      ensures fresh(peers) && this.adapter == adapter && Valid() && State() == Initial(adapter.Contents())
    {
      peers := new Session[MAX_PEERS](_ => FREE_SESSION);
      countClients := 0;
      this.adapter := adapter;
      radioOpened := multiset{};
      radioClosed := multiset{};
    }

    method GetPeer(mac: Mac) returns (r: int)
      requires Valid()
      ensures var at := PeerAt(peers[..], mac, 0); r == if at < MAX_PEERS then at else EINVAL
    {
      var i := 0;
      while i < MAX_PEERS
        invariant 0 <= i <= MAX_PEERS && PeerAt(peers[..], mac, i) == PeerAt(peers[..], mac, 0)
      {
        if peers[i].socketFd != -1 && peers[i].mac == mac {
          return i;
        }
        i := i + 1;
      }
      return EINVAL;
    }

    method GetPeerIndex() returns (r: int)
      requires Valid()
      ensures var at := FreeAt(peers[..], 0); r == if at < MAX_PEERS then at else EUSERS
    {
      var i := 0;
      while i < MAX_PEERS
        invariant 0 <= i <= MAX_PEERS && FreeAt(peers[..], i) == FreeAt(peers[..], 0)
      {
        if peers[i].socketFd == -1 {
          return i;
        }
        i := i + 1;
      }
      return EUSERS;
    }

    method EvtPresence(mac: Mac, a: Answers) returns (r: int)
      requires Valid()
      modifies this, peers, adapter.known
      ensures Valid() && (State(), r) == Presence(old(State()), mac, a)
    {
      var permission := adapter.CheckPermission(mac);
      if permission < 0 {
        return EPERM;
      }
      if countClients >= MAX_PEERS {
        return EUSERS;
      }
      var position := GetPeer(mac);
      if position < 0 {
        position := GetPeerIndex();
        if position < 0 {
          return position;
        }
        if a.nsk < 0 {
          return a.nsk;
        }
        radioOpened := radioOpened + multiset{a.nsk};
        if a.sock < 0 {
          radioClosed := radioClosed + multiset{a.nsk};
          return a.sock;
        }
        peers[position] := Session(mac, a.nsk, Int8(a.sock), a.watch);
        countClients := (countClients + 1) % 256;
        adapter.MarkOnline(mac);
      }
      return a.connect;
    }

    method KwatchIoDestroy(i: nat)
      requires Valid() && i < MAX_PEERS
      modifies this, peers
      ensures Valid() && State() == Release(old(State()), i)
    {
      radioClosed := radioClosed + multiset{peers[i].socketFd};
      peers[i] := peers[i].(socketFd := -1);
      peers[i] := peers[i].(kwatch := 0);
      countClients := (countClients + 255) % 256;
    }

    method EvtDisconnected(mac: Mac) returns (r: int)
      requires Valid()
      modifies this, peers
      ensures Valid() && (State(), r) == Disconnected(old(State()), mac)
    {
      if countClients == 0 {
        return EINVAL;
      }
      var position := GetPeer(mac);
      if position < 0 {
        return position;
      }
      KwatchIoDestroy(position);
      return 0;
    }
  }
}
