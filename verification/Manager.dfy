/**
  The link server as a state machine over values: the two copies of the relation
  "client wants device", the device records, and every operation that edits them.

  A shell command is answered by the outside world, `Env.world`, a function of how many
  commands have run before it; quantifying over worlds quantifies over every behaviour of
  the commands.  The log records commands and status changes; no operation reads it.
 */
module Manager {
  import opened Collections

  type Name = string
  type Addr = int

  // ---------- Data ----------

  datatype Status = DOWN | UP | CONNECTING | DISCONNECTING

  datatype Errno = ENODEV | EALREADY | EINVAL | ENOTSUP | OTHER

  /** A C return code: 0, or -1 with errno set. */
  datatype Rc = Ok | Err(errno: Errno)

  datatype Command = LinkUp | LinkDown | LinkForceDown

  /** What system() reported: -1 with an arbitrary errno, or an exit status. */
  datatype Reply = Failed(errno: Errno) | Exit(code: nat)

  datatype Event =
    | Ran(cmd: Command, name: Name, reply: Reply)
    | Moved(name: Name, from: Status, to: Status)

  datatype Env = Env(
    retries: int,
    clientTimeout: int,
    connectTimeout: int,
    disconnectTimeout: int,
    world: (nat, Command) -> Reply)

  datatype Device = Device(status: Status, since: int, retries: int)

  /** The four families of linked lists: g_devices, each device's clients, g_clients, each
      client's devices. */
  datatype Links = Links(
    devs: seq<Name>,
    users: map<Name, seq<Addr>>,
    clis: seq<Addr>,
    wants: map<Addr, seq<Name>>)

  datatype State = State(
    links: Links,
    dev: map<Name, Device>,
    heard: map<Addr, int>,
    ran: nat,
    log: seq<Event>)

  /** Before the configuration is read. */
  function Blank(): State {
    State(Links([], map[], [], map[]), map[], map[], 0, [])
  }

  predicate Known(s: State, n: Name) {
    n in s.dev && n in s.links.users
  }

  predicate Present(s: State, a: Addr) {
    a in s.heard && a in s.links.wants
  }

  /** Both states have the same devices and the same clients, in the same order. */
  predicate SameShape(s: State, t: State) {
    && t.links.devs == s.links.devs && t.links.clis == s.links.clis
    && t.links.users.Keys == s.links.users.Keys && t.links.wants.Keys == s.links.wants.Keys
    && t.dev.Keys == s.dev.Keys && t.heard == s.heard
  }

  // ---------- Edits of the lists ----------

  function AddTo<T(==)>(s: seq<T>, x: T): seq<T> {
    if x in s then s else s + [x]
  }

  function AddUser(l: Links, a: Addr, n: Name): Links
    requires n in l.users
  {
    l.(users := l.users[n := AddTo(l.users[n], a)])
  }

  function AddWant(l: Links, a: Addr, n: Name): Links
    requires a in l.wants
  {
    l.(wants := l.wants[a := AddTo(l.wants[a], n)])
  }

  function DropUser(l: Links, a: Addr, n: Name): Links
    requires n in l.users
  {
    l.(users := l.users[n := Without(l.users[n], a)])
  }

  function DropWant(l: Links, a: Addr, n: Name): Links
    requires a in l.wants
  {
    l.(wants := l.wants[a := Without(l.wants[a], n)])
  }

  /** remove_all_clients_from_device: one side only. */
  function ClearUsers(l: Links, n: Name): Links {
    l.(users := l.users[n := []])
  }

  /** remove_device_from_all_clients: the other side only. */
  function ClearWants(l: Links, n: Name): Links {
    l.(wants := map a | a in l.wants :: Without(l.wants[a], n))
  }

  function Wipe(l: Links, n: Name): Links {
    ClearWants(ClearUsers(l, n), n)
  }

  function AddClient(l: Links, a: Addr): Links {
    l.(clis := l.clis + [a], wants := l.wants[a := []])
  }

  function DropClient(l: Links, a: Addr): Links {
    l.(clis := Without(l.clis, a), wants := l.wants - {a})
  }

  // ---------- Edits of the device records ----------

  function SetRetries(s: State, n: Name, k: int): State
    requires n in s.dev
  {
    s.(dev := s.dev[n := s.dev[n].(retries := k)])
  }

  function Stamp(s: State, n: Name, now: int): State
    requires n in s.dev
  {
    s.(dev := s.dev[n := s.dev[n].(since := now)])
  }

  function Move(s: State, n: Name, to: Status): State
    requires n in s.dev
  {
    s.(dev := s.dev[n := s.dev[n].(status := to)],
       log := s.log + [Moved(n, s.dev[n].status, to)])
  }

  // ---------- Shell commands ----------

  function Exec(s: State, e: Env, n: Name, cmd: Command): (State, Reply) {
    var r := e.world(s.ran, cmd);
    (s.(ran := s.ran + 1, log := s.log + [Ran(cmd, n, r)]), r)
  }

  /** link_up and link_down: only exit status 0 stamps connect_time. */
  function ExecLink(s: State, e: Env, now: int, n: Name, cmd: Command): (State, Reply)
    requires n in s.dev
  {
    var (s1, r) := Exec(s, e, n, cmd);
    (if r == Exit(0) then Stamp(s1, n, now) else s1, r)
  }

  /** link_force_down: only exit status 0 empties the lists. */
  function ForceDown(s: State, e: Env, n: Name): (State, Reply) {
    var (s1, r) := Exec(s, e, n, LinkForceDown);
    (if r == Exit(0) then s1.(links := Wipe(s1.links, n)) else s1, r)
  }

  // ---------- alter_device_status ----------

  function ToDown(s: State, e: Env, n: Name): (r: (State, Rc))
    requires Known(s, n)
    ensures SameShape(s, r.0)
  {
    if s.dev[n].status == DISCONNECTING then (Move(s, n, DOWN), Ok)
    else
      var (s1, r) := ForceDown(s, e, n);
      if r.Failed? then (s1, Err(r.errno)) else (Move(s1, n, DOWN), Ok)
  }

  /** The fall-through tail of the CONNECTING case: count the attempt, then run link_up. */
  function Attempt(s: State, e: Env, now: int, n: Name): (r: (State, Rc))
    requires Known(s, n)
    ensures SameShape(s, r.0)
  {
    var left := s.dev[n].retries;
    var s1 := SetRetries(s, n, left - 1);
    if left < 0 then ToDown(s1, e, n)
    else
      var (s2, r) := ExecLink(s1, e, now, n, LinkUp);
      if r.Failed? then (s2, Err(r.errno))
      else (Move(Stamp(s2, n, now), n, CONNECTING), Ok)
  }

  function ToConnecting(s: State, e: Env, now: int, n: Name): (r: (State, Rc))
    requires Known(s, n)
    ensures SameShape(s, r.0)
  {
    match s.dev[n].status
    case UP => (s, Err(EINVAL))
    case CONNECTING => Attempt(s, e, now, n)
    case DOWN => Attempt(SetRetries(s, n, e.retries), e, now, n)
    case DISCONNECTING =>
      var (s1, r) := ForceDown(s, e, n);
      if r.Failed? then (s1, Err(r.errno))
      else Attempt(SetRetries(s1, n, e.retries), e, now, n)
  }

  function ToDisconnecting(s: State, e: Env, now: int, n: Name): (r: (State, Rc))
    requires Known(s, n)
    ensures SameShape(s, r.0)
  {
    match s.dev[n].status
    case DOWN => (s, Err(EINVAL))
    case UP =>
      var (s1, r) := ExecLink(s, e, now, n, LinkDown);
      if r.Failed? then (s1, Err(r.errno)) else (Move(s1, n, DISCONNECTING), Ok)
    case CONNECTING =>
      var (s1, r) := ForceDown(s, e, n);
      if r.Failed? then (s1, Err(r.errno)) else (Move(s1, n, DISCONNECTING), Ok)
    case DISCONNECTING =>
      var (s1, r) := ForceDown(s, e, n);
      if r.Failed? then (s1, Err(r.errno)) else (Move(s1, n, DOWN), Ok)
  }

  function ToUp(s: State, now: int, n: Name): (r: (State, Rc))
    requires Known(s, n)
    ensures SameShape(s, r.0)
  {
    if s.dev[n].status == CONNECTING then (Move(Stamp(s, n, now), n, UP), Ok)
    else (s, Err(EINVAL))
  }

  function Alter(s: State, e: Env, now: int, n: Name, to: Status): (r: (State, Rc))
    requires Known(s, n)
    ensures SameShape(s, r.0)
  {
    match to
    case CONNECTING => ToConnecting(s, e, now, n)
    case DISCONNECTING => ToDisconnecting(s, e, now, n)
    case UP => ToUp(s, now, n)
    case DOWN => ToDown(s, e, n)
  }

  // ---------- Connecting and disconnecting a client ----------

  function Connect(s: State, e: Env, now: int, a: Addr, n: Name): (r: (State, Rc))
    requires Known(s, n) && Present(s, a)
    ensures SameShape(s, r.0)
  {
    var (s1, rc) :=
      if s.links.users[n] == [] then Alter(SetRetries(s, n, e.retries), e, now, n, CONNECTING)
      else (s, Ok);
    if rc.Err? then (s1, rc)
    else (s1.(links := AddWant(AddUser(s1.links, a, n), a, n)), Ok)
  }

  function Disconnect(s: State, e: Env, now: int, a: Addr, n: Name): (r: (State, Rc))
    requires Known(s, n) && Present(s, a)
    ensures SameShape(s, r.0)
  {
    var s1 := s.(links := DropUser(s.links, a, n));
    var (s2, rc) :=
      if a in s.links.users[n] && s1.links.users[n] == []
      then Alter(s1, e, now, n, DISCONNECTING)
      else (s1, Ok);
    if rc.Err? then (s2, rc) else (s2.(links := DropWant(s2.links, a, n)), Ok)
  }

  // ---------- The sweeps ----------

  /** remove_client_from_all_devices over the devices `ds`: ENODEV is ignored. */
  function RemoveFromAll(s: State, e: Env, now: int, a: Addr, ds: seq<Name>): (r: (State, Rc))
    requires Present(s, a) && forall n :: n in ds ==> Known(s, n)
    ensures SameShape(s, r.0)
    decreases |ds|
  {
    if ds == [] then (s, Ok)
    else
      assert Known(s, ds[0]) && forall n :: n in ds[1..] ==> Known(s, n);
      var (s1, rc) := Disconnect(s, e, now, a, ds[0]);
      if rc.Err? && rc.errno != ENODEV then (s1, rc)
      else RemoveFromAll(s1, e, now, a, ds[1..])
  }

  predicate Silent(s: State, e: Env, now: int, a: Addr)
    requires a in s.heard
  {
    now > s.heard[a] + e.clientTimeout
  }

  function Forget(s: State, a: Addr): State {
    s.(links := DropClient(s.links, a), heard := s.heard - {a})
  }

  /** timeout_old_clients over the clients `cs` still to visit. */
  function AgeClients(s: State, e: Env, now: int, cs: seq<Addr>): (r: (State, Rc))
    requires NoDup(cs) && forall a :: a in cs ==> Present(s, a)
    requires forall n :: n in s.links.devs ==> Known(s, n)
    ensures r.0.links.devs == s.links.devs && r.0.dev.Keys == s.dev.Keys
    ensures r.0.links.users.Keys == s.links.users.Keys
    decreases |cs|
  {
    if cs == [] then (s, Ok)
    else
      assert Present(s, cs[0]) && forall a :: a in cs[1..] ==> Present(s, a) && a != cs[0];
      if !Silent(s, e, now, cs[0]) then AgeClients(s, e, now, cs[1..])
      else
        var (s1, rc) := RemoveFromAll(s, e, now, cs[0], s.links.devs);
        if rc.Err? then (s1, rc) else AgeClients(Forget(s1, cs[0]), e, now, cs[1..])
  }

  predicate DeviceOverdue(d: Device, e: Env, now: int) {
    || (d.status == CONNECTING && d.since + e.connectTimeout < now)
    || (d.status == DISCONNECTING && d.since + e.disconnectTimeout < now)
  }

  predicate Overdue(s: State, e: Env, now: int, n: Name)
    requires n in s.dev
  {
    DeviceOverdue(s.dev[n], e, now)
  }

  /** timeout_old_devices over the devices `ds` still to visit. */
  function SweepDevices(s: State, e: Env, now: int, ds: seq<Name>): (r: (State, Rc))
    requires forall n :: n in ds ==> Known(s, n)
    ensures SameShape(s, r.0)
    decreases |ds|
  {
    if ds == [] then (s, Ok)
    else
      assert Known(s, ds[0]) && forall n :: n in ds[1..] ==> Known(s, n);
      if !Overdue(s, e, now, ds[0]) then SweepDevices(s, e, now, ds[1..])
      else
        var (s1, rc) := Alter(s, e, now, ds[0], s.dev[ds[0]].status);
        if rc.Err? then (s1, rc) else SweepDevices(s1, e, now, ds[1..])
  }

  // ---------- Messages ----------

  const CLIENT_PREFIX := "CLIENT "
  const CLIENT_PING := "CLIENT PING"
  const CLIENT_DEVICES := "CLIENT DEVICES"
  const CLIENT_UP := "CLIENT UP "
  const CLIENT_DOWN := "CLIENT DOWN "
  const CLIENT_FORCE_DOWN := "CLIENT FORCE_DOWN "
  const CLIENT_STATUS := "CLIENT STATUS "
  const CLIENT_CLIENT_STATUS := "CLIENT CLIENT_STATUS"
  const NOTIFY_PREFIX := "NOTIFY "
  const NOTIFY_ISUP := "NOTIFY ISUP "
  const NOTIFY_ISDOWN := "NOTIFY ISDOWN "

  datatype Request =
    | Ping
    | ListDevices
    | BringUp(name: Name)
    | TakeDown(name: Name)
    | ForceOff(name: Name)
    | AskStatus(name: Name)
    | AskClientStatus
    | IsUp(name: Name)
    | IsDown(name: Name)
    | BadClient
    | BadPeer
    | BadPrefix

  /** The strncmp cascades of process_command, process_client and process_peer. */
  function ParseRequest(text: string): Request {
    if CLIENT_PREFIX <= text then
      if CLIENT_PING <= text then Ping
      else if CLIENT_DEVICES <= text then ListDevices
      else if CLIENT_UP <= text then BringUp(text[|CLIENT_UP|..])
      else if CLIENT_DOWN <= text then TakeDown(text[|CLIENT_DOWN|..])
      else if CLIENT_FORCE_DOWN <= text then ForceOff(text[|CLIENT_FORCE_DOWN|..])
      else if CLIENT_STATUS <= text then AskStatus(text[|CLIENT_STATUS|..])
      else if CLIENT_CLIENT_STATUS <= text then AskClientStatus
      else BadClient
    else if NOTIFY_PREFIX <= text then
      if NOTIFY_ISUP <= text then IsUp(text[|NOTIFY_ISUP|..])
      else if NOTIFY_ISDOWN <= text then IsDown(text[|NOTIFY_ISDOWN|..])
      else BadPeer
    else BadPrefix
  }

  predicate FromClient(q: Request) {
    !q.IsUp? && !q.IsDown? && !q.BadPeer? && !q.BadPrefix?
  }

  /** The client is created if it is new, and its last_heard_from is brought up to date. */
  function Hear(s: State, now: int, a: Addr): State {
    s.(links := if a in s.links.wants then s.links else AddClient(s.links, a),
       heard := s.heard[a := now])
  }

  /** process_client after the sender has been heard. */
  function Serve(s: State, e: Env, now: int, a: Addr, q: Request): (r: (State, Rc))
    requires Present(s, a) && FromClient(q)
    requires s.dev.Keys == s.links.users.Keys
    requires forall n :: n in s.links.wants[a] ==> n in s.dev
    ensures SameShape(s, r.0)
  {
    match q
    case Ping | ListDevices | AskClientStatus => (s, Ok)
    case BringUp(n) => if n in s.dev then Connect(s, e, now, a, n) else (s, Err(ENODEV))
    case TakeDown(n) =>
      if n in s.links.wants[a] then Disconnect(s, e, now, a, n) else (s, Err(ENODEV))
    case ForceOff(n) =>
      if n !in s.dev then (s, Err(ENODEV))
      else
        var (s1, rc) := Alter(s, e, now, n, DOWN);
        if rc.Err? then (s1, rc) else (s1.(links := ClearUsers(s1.links, n)), Ok)
    case AskStatus(n) => (s, if n in s.dev then Ok else Err(ENODEV))
    case BadClient => (s, Err(ENOTSUP))
  }

  /** process_peer: the return code of an ISUP is always 0. */
  function Notice(s: State, e: Env, now: int, q: Request): (r: (State, Rc))
    requires q.IsUp? || q.IsDown? || q.BadPeer?
    requires s.dev.Keys == s.links.users.Keys
    ensures SameShape(s, r.0)
  {
    match q
    case IsUp(n) => if n in s.dev then (Alter(s, e, now, n, UP).0, Ok) else (s, Err(ENODEV))
    case IsDown(n) => if n in s.dev then Alter(s, e, now, n, DOWN) else (s, Err(ENODEV))
    case BadPeer => (s, Err(ENOTSUP))
  }

  // ---------- Invariants the operations need, the main loop, and runs ----------

  /** What holds of the lists between any two statements of the server. */
  ghost predicate Consistent(l: Links) {
    && NoDup(l.devs) && NoDup(l.clis)
    && (forall n :: n in l.devs <==> n in l.users)
    && (forall a :: a in l.clis <==> a in l.wants)
    && (forall n :: n in l.users ==> NoDup(l.users[n]))
    && (forall a :: a in l.wants ==> NoDup(l.wants[a]))
    && (forall n, a :: n in l.users && a in l.users[n] ==> a in l.wants)
    && (forall a, n :: a in l.wants && n in l.wants[a] ==> n in l.users)
  }

  ghost predicate WellFormed(s: State) {
    Consistent(s.links) && s.dev.Keys == s.links.users.Keys && s.heard.Keys == s.links.wants.Keys
  }

  /** A received message: its sender's address and port, and the text. */
  datatype Datagram = Datagram(from: Addr, port: int, text: string)

  /** One pass of the main loop: the clock, and the message that select reported, if any. */
  datatype Input = Input(now: int, datagram: Option<Datagram>)
}
