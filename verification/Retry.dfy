/** How long a device that does not come up keeps trying. */
module Retry {
  import opened Collections
  import opened Manager
  import opened Safety
  import opened MainLoop
  import opened WellBehaved
  import opened Filtering
  import opened Ageing
  import opened Relation
  import opened Timing
  import opened Trace

  // ---------- One device under device sweeps ----------

  /** None of the link_ups numbered from `from` to `to - 1` returns -1. */
  ghost predicate Calm(e: Env, from: nat, to: nat) {
    WellBehavedEnv(e) && forall k :: from <= k < to ==> e.world(k, LinkUp).Exit?
  }

  /** What a sweep makes of one device when no command returns -1. */
  function DeviceTick(d: Device, e: Env, now: int): Device {
    if !DeviceOverdue(d, e, now) then d
    else if d.status == DISCONNECTING then d.(status := DOWN)
    else if d.retries >= 0 then Device(CONNECTING, now, d.retries - 1)
    else d.(status := DOWN, retries := d.retries - 1)
  }

  /** Whether that sweep runs link_up. */
  predicate TicksUp(d: Device, e: Env, now: int) {
    d.status == CONNECTING && DeviceOverdue(d, e, now) && d.retries >= 0
  }

  function DeviceRun(d: Device, e: Env, ts: seq<int>): Device
    decreases |ts|
  {
    if ts == [] then d else DeviceRun(DeviceTick(d, e, ts[0]), e, ts[1..])
  }

  function DeviceUps(d: Device, e: Env, ts: seq<int>): nat
    decreases |ts|
  {
    if ts == [] then 0
    else (if TicksUp(d, e, ts[0]) then 1 else 0) + DeviceUps(DeviceTick(d, e, ts[0]), e, ts[1..])
  }

  /** In how many of the sweeps the device is overdue. */
  function DeviceOverdues(d: Device, e: Env, ts: seq<int>): nat
    decreases |ts|
  {
    if ts == [] then 0
    else (if DeviceOverdue(d, e, ts[0]) then 1 else 0) + DeviceOverdues(DeviceTick(d, e, ts[0]), e, ts[1..])
  }

  function Times(n: int, x: int): int {
    n * x
  }

  lemma TimesStep(n: int, x: int)
    requires n >= 0 && x >= 0
    ensures Times(n + 1, x) == Times(n, x) + x && Times(n, x) >= 0 && Times(0, x) == 0
  {
  }

  lemma DeviceRunStep(d: Device, e: Env, ts: seq<int>, j: nat)
    requires 1 <= j <= |ts|
    ensures DeviceRun(d, e, ts[..j]) == DeviceRun(DeviceTick(d, e, ts[0]), e, ts[1..][..j - 1])
    ensures DeviceUps(d, e, ts[..j])
         == (if TicksUp(d, e, ts[0]) then 1 else 0) + DeviceUps(DeviceTick(d, e, ts[0]), e, ts[1..][..j - 1])
    ensures DeviceOverdues(d, e, ts[..j])
         == (if DeviceOverdue(d, e, ts[0]) then 1 else 0)
            + DeviceOverdues(DeviceTick(d, e, ts[0]), e, ts[1..][..j - 1])
  {
    assert ts[..j][1..] == ts[1..][..j - 1];
  }

  /** A device that has been CONNECTING since `d.since` with q attempts left goes DOWN at the
      (q + 2)-nd overdue sweep, sweep number `k`, after q + 1 more attempts, and within bounds. */
  lemma {:induction false} DeviceExhausts(d: Device, e: Env, G: int, ts: seq<int>) returns (k: nat)
    requires d.status == CONNECTING && d.retries >= -1 && e.connectTimeout >= 0 && G >= 1
    requires ts != [] && Spaced(ts, G) && ts[0] <= d.since + e.connectTimeout + G
    requires ts[|ts| - 1] >= d.since + Times(d.retries + 2, e.connectTimeout + G)
    ensures k < |ts|
    ensures d.since + Times(d.retries + 2, e.connectTimeout + 1) <= ts[k]
    ensures ts[k] <= d.since + Times(d.retries + 2, e.connectTimeout + G)
    ensures forall j :: 0 <= j <= k ==> DeviceRun(d, e, ts[..j]).status == CONNECTING
    ensures DeviceRun(d, e, ts[..k + 1]).status == DOWN
    ensures DeviceUps(d, e, ts[..k + 1]) == d.retries + 1
    ensures DeviceOverdues(d, e, ts[..k + 1]) == d.retries + 2 && DeviceOverdue(DeviceRun(d, e, ts[..k]), e, ts[k])
    decreases |ts|
  {
    hide Times;
    var now := ts[0];
    var f := DeviceTick(d, e, now);
    TimesStep(d.retries + 1, e.connectTimeout + G);
    TimesStep(d.retries + 1, e.connectTimeout + 1);
    if d.retries >= 0 { TimesStep(d.retries, e.connectTimeout + G); }
    if DeviceOverdue(d, e, now) && d.retries < 0 {
      k := 0;
      DeviceRunStep(d, e, ts, 1);
    } else {
      assert f.status == CONNECTING && |ts| > 1;
      var later := ts[1..];
      var k' := DeviceExhausts(f, e, G, later);
      k := k' + 1;
      forall j | 0 <= j <= k ensures DeviceRun(d, e, ts[..j]).status == CONNECTING {
        if j > 0 {
          DeviceRunStep(d, e, ts, j);
          assert DeviceRun(f, e, later[..j - 1]).status == CONNECTING;
        }
      }
      DeviceRunStep(d, e, ts, k + 1);
      DeviceRunStep(d, e, ts, k);
    }
  }

  // ---------- How often link_up runs ----------

  /** How often the log runs link_up on `n`. */
  function Ups(log: seq<Event>, n: Name): nat {
    if log == [] then 0
    else
      var last := log[|log| - 1];
      Ups(log[..|log| - 1], n) + if last.Ran? && last.cmd == LinkUp && last.name == n then 1 else 0
  }

  lemma UpsAppend(log: seq<Event>, ev: Event, n: Name)
    ensures Ups(log + [ev], n) == Ups(log, n) + if ev.Ran? && ev.cmd == LinkUp && ev.name == n then 1 else 0
  {
    assert (log + [ev])[..|log|] == log;
  }

  lemma UpsTwo(log: seq<Event>, first: Event, second: Event, n: Name)
    requires second.Moved?
    ensures Ups(log + [first] + [second], n)
         == Ups(log, n) + if first.Ran? && first.cmd == LinkUp && first.name == n then 1 else 0
  {
    UpsAppend(log, first, n);
    UpsAppend(log + [first], second, n);
  }

  lemma ToDownUps(s: State, e: Env, m: Name, n: Name)
    requires Known(s, m)
    ensures Ups(ToDown(s, e, m).0.log, n) == Ups(s.log, n)
  {
    hide Ups, Wipe;
    var ran := Ran(LinkForceDown, m, e.world(s.ran, LinkForceDown));
    UpsAppend(s.log, Moved(m, s.dev[m].status, DOWN), n);
    UpsAppend(s.log, ran, n);
    UpsTwo(s.log, ran, Moved(m, s.dev[m].status, DOWN), n);
  }

  /** An attempt runs link_up once, whatever it returns, unless the attempts have run out. */
  lemma AttemptUps(s: State, e: Env, now: int, m: Name, n: Name)
    requires Known(s, m)
    ensures Ups(Attempt(s, e, now, m).0.log, n) == Ups(s.log, n) + if m == n && s.dev[m].retries >= 0 then 1 else 0
  {
    hide Ups, ToDown;
    var ran := Ran(LinkUp, m, e.world(s.ran, LinkUp));
    ToDownUps(SetRetries(s, m, s.dev[m].retries - 1), e, m, n);
    UpsAppend(s.log, ran, n);
    UpsTwo(s.log, ran, Moved(m, s.dev[m].status, CONNECTING), n);
  }

  /** Only a change of `n` to CONNECTING runs link_up on `n`. */
  lemma AlterUps(s: State, e: Env, now: int, m: Name, to: Status, n: Name)
    requires Known(s, m) && (m != n || to != CONNECTING)
    ensures Ups(Alter(s, e, now, m, to).0.log, n) == Ups(s.log, n)
  {
    hide Ups, ToDown, Attempt;
    var st := s.dev[m].status;
    if to == DOWN {
      ToDownUps(s, e, m, n);
    } else if to == UP {
      UpsAppend(s.log, Moved(m, st, UP), n);
    } else if to == DISCONNECTING {
      DisconnectingUps(s, e, now, m, n);
    } else {
      UpsAppend(s.log, Ran(LinkForceDown, m, e.world(s.ran, LinkForceDown)), n);
      var s1 := if st == DISCONNECTING then ForceDown(s, e, m).0 else s;
      AttemptUps(s, e, now, m, n);
      AttemptUps(SetRetries(s1, m, e.retries), e, now, m, n);
    }
  }

  lemma DisconnectingUps(s: State, e: Env, now: int, m: Name, n: Name)
    requires Known(s, m)
    ensures Ups(ToDisconnecting(s, e, now, m).0.log, n) == Ups(s.log, n)
  {
    hide Ups, Wipe;
    var st := s.dev[m].status;
    var cmd := if st == UP then LinkDown else LinkForceDown;
    var ran := Ran(cmd, m, e.world(s.ran, cmd));
    UpsAppend(s.log, ran, n);
    UpsTwo(s.log, ran, Moved(m, st, if st == DISCONNECTING then DOWN else DISCONNECTING), n);
  }

  lemma DisconnectUps(s: State, e: Env, now: int, a: Addr, m: Name, n: Name)
    requires Known(s, m) && Present(s, a)
    ensures Ups(Disconnect(s, e, now, a, m).0.log, n) == Ups(s.log, n)
  {
    hide Ups, Alter;
    AlterUps(s.(links := DropUser(s.links, a, m)), e, now, m, DISCONNECTING, n);
  }

  lemma {:induction false} RemoveFromAllUps(s: State, e: Env, now: int, a: Addr, ds: seq<Name>, n: Name)
    requires Present(s, a) && forall m :: m in ds ==> Known(s, m)
    ensures Ups(RemoveFromAll(s, e, now, a, ds).0.log, n) == Ups(s.log, n)
    decreases |ds|
  {
    hide Ups, Disconnect;
    if ds == [] {
    } else {
      assert Known(s, ds[0]) && forall m :: m in ds[1..] ==> Known(s, m);
      DisconnectUps(s, e, now, a, ds[0], n);
      var (s1, rc) := Disconnect(s, e, now, a, ds[0]);
      if rc.Ok? || rc.errno == ENODEV {
        RemoveFromAllUps(s1, e, now, a, ds[1..], n);
      }
    }
  }

  /** Ageing clients brings nothing up, whatever the commands do. */
  lemma {:induction false} AgeClientsUps(s: State, e: Env, now: int, cs: seq<Addr>, n: Name)
    requires NoDup(cs) && forall a :: a in cs ==> Present(s, a)
    requires forall m :: m in s.links.devs ==> Known(s, m)
    ensures Ups(AgeClients(s, e, now, cs).0.log, n) == Ups(s.log, n)
    decreases |cs|
  {
    hide Ups, RemoveFromAll;
    if cs == [] {
    } else {
      assert Present(s, cs[0]) && forall a :: a in cs[1..] ==> Present(s, a) && a != cs[0];
      if Silent(s, e, now, cs[0]) {
        RemoveFromAllUps(s, e, now, cs[0], s.links.devs, n);
        var (s1, rc) := RemoveFromAll(s, e, now, cs[0], s.links.devs);
        if rc.Ok? {
          AgeClientsUps(Forget(s1, cs[0]), e, now, cs[1..], n);
        }
      } else {
        AgeClientsUps(s, e, now, cs[1..], n);
      }
    }
  }

  // ---------- The number of commands grows ----------

  lemma AlterRan(s: State, e: Env, now: int, n: Name, to: Status)
    requires Known(s, n)
    ensures Alter(s, e, now, n, to).0.ran >= s.ran
  {
    hide Wipe;
  }

  function AtLeast(r: nat): State -> bool {
    (s: State) => s.ran >= r
  }

  lemma RanClosed(r: nat, e: Env, times: set<int>)
    ensures Closed(AtLeast(r), e, times) && ClosedUp(AtLeast(r), e, times)
  {
    forall s: State, now, n, to | s.ran >= r && Known(s, n) ensures Alter(s, e, now, n, to).0.ran >= r {
      AlterRan(s, e, now, n, to);
    }
  }

  lemma SweepRan(s: State, e: Env, now: int, ds: seq<Name>)
    requires forall n :: n in ds ==> Known(s, n)
    ensures SweepDevices(s, e, now, ds).0.ran >= s.ran
  {
    RanClosed(s.ran, e, {now});
    SweepDevicesClosed(AtLeast(s.ran), {now}, s, e, now, ds);
  }

  lemma BeforeSweepRan(s: State, e: Env, i: Input)
    requires Safe(s)
    ensures var t := Answered(s, e, i);
      && NoDup(t.links.clis) && (forall a :: a in t.links.clis ==> Present(t, a))
      && (forall n :: n in t.links.devs ==> Known(t, n))
      && t.ran >= s.ran && AgeClients(t, e, i.now, t.links.clis).0.ran >= s.ran
  {
    RanClosed(s.ran, e, {i.now});
    hide Closed, ClosedUp, Receive, AgeClients;
    var t := Answered(s, e, i);
    if i.datagram.Some? {
      ReceiveClosed(AtLeast(s.ran), {i.now}, s, e, i.now, i.datagram.value);
    }
    NoDups(t);
    AgeClientsClosed(AtLeast(s.ran), {i.now}, t, e, i.now, t.links.clis);
  }

  lemma RunRan(s: State, e: Env, inputs: seq<Input>)
    requires Safe(s)
    ensures Run(s, e, inputs).ran >= s.ran
  {
    var times := set i | i in inputs :: i.now;
    RanClosed(s.ran, e, times);
    hide Closed, ClosedUp, Run;
    RunClosed(AtLeast(s.ran), times, s, e, inputs);
  }

  // ---------- Sweeps in which no link_up returns -1 ----------

  lemma AttemptLog(s: State, e: Env, now: int, n: Name)
    requires Calm(e, s.ran, s.ran + 1) && Known(s, n) && s.dev[n].retries >= 0
    ensures var (t, rc) := Attempt(s, e, now, n);
      && rc.Ok? && t.dev == s.dev[n := Device(CONNECTING, now, s.dev[n].retries - 1)]
      && t.log == s.log + [Ran(LinkUp, n, e.world(s.ran, LinkUp))] + [Moved(n, s.dev[n].status, CONNECTING)]
  {
    assert e.world(s.ran, LinkUp).Exit?;
  }

  lemma GiveUpLog(s: State, e: Env, now: int, n: Name)
    requires WellBehavedEnv(e) && Known(s, n)
    requires s.dev[n].status == DISCONNECTING || (s.dev[n].status == CONNECTING && s.dev[n].retries < 0)
    ensures var ((t, rc), d) := (Alter(s, e, now, n, s.dev[n].status), s.dev[n]);
      && rc.Ok?
      && t.dev == s.dev[n := if d.status == CONNECTING then d.(status := DOWN, retries := d.retries - 1)
                             else d.(status := DOWN)]
      && t.log == s.log + [Ran(LinkForceDown, n, Exit(0))] + [Moved(n, d.status, DOWN)]
  {
    assert e.world(s.ran, LinkForceDown) == Exit(0);
  }

  lemma OverdueCalm(s: State, e: Env, now: int, n: Name, m: Name)
    requires Calm(e, s.ran, s.ran + 1) && Known(s, n) && Overdue(s, e, now, n)
    ensures var (t, rc) := Alter(s, e, now, n, s.dev[n].status);
      && rc.Ok? && t.dev == s.dev[n := DeviceTick(s.dev[n], e, now)]
      && Ups(t.log, m) == Ups(s.log, m) + if m == n && TicksUp(s.dev[n], e, now) then 1 else 0
  {
    hide Ups, Wipe, ToDown;
    var d := s.dev[n];
    if d.status == CONNECTING && d.retries >= 0 {
      AttemptLog(s, e, now, n);
      UpsTwo(s.log, Ran(LinkUp, n, e.world(s.ran, LinkUp)), Moved(n, d.status, CONNECTING), m);
    } else {
      GiveUpLog(s, e, now, n);
      UpsTwo(s.log, Ran(LinkForceDown, n, Exit(0)), Moved(n, d.status, DOWN), m);
    }
  }

  lemma {:induction false} SweepCalm(s: State, e: Env, now: int, ds: seq<Name>, m: Name, to: nat)
    requires Calm(e, s.ran, to) && Good(s, e) && (forall n :: n in ds ==> n in s.dev) && NoDup(ds) && m in s.dev
    requires forall n :: n in ds ==> Known(s, n)
    requires SweepDevices(s, e, now, ds).0.ran <= to
    ensures var (t, rc) := SweepDevices(s, e, now, ds);
      && rc.Ok? && Good(t, e)
      && t.dev[m] == (if m in ds then DeviceTick(s.dev[m], e, now) else s.dev[m])
      && Ups(t.log, m) == Ups(s.log, m) + if m in ds && TicksUp(s.dev[m], e, now) then 1 else 0
    decreases |ds|
  {
    hide Consistent, Linked, Mirror, UsersMatch, Counted, WellBehavedEnv, Ups;
    if ds == [] {
    } else {
      assert ds[0] in ds && forall n :: n in ds <==> n == ds[0] || n in ds[1..];
      assert forall n :: n in ds[1..] ==> Known(s, n);
      if Overdue(s, e, now, ds[0]) {
        var (s1, rc) := Alter(s, e, now, ds[0], s.dev[ds[0]].status);
        OverdueEffect(s, e, now, ds[0]);
        if rc.Ok? { SweepRan(s1, e, now, ds[1..]); }
        OverdueCalm(s, e, now, ds[0], m);
        OverdueGood(s, e, now, ds[0]);
        SweepCalm(s1, e, now, ds[1..], m, to);
      } else {
        SweepCalm(s, e, now, ds[1..], m, to);
      }
    }
  }

  // ---------- A device that is left alone by all but the device sweeps ----------

  /** The request neither takes `b` off the device, nor forces it down, nor reports on it; further
      users may come and go. */
  predicate Leaves(q: Request, from: Addr, n: Name, b: Addr) {
    && q != IsUp(n) && q != IsDown(n) && q != ForceOff(n)
    && !(q == TakeDown(n) && from == b)
  }

  lemma ConnectLeaves(s: State, e: Env, now: int, a: Addr, m: Name, n: Name)
    requires WellBehavedEnv(e) && Good(s, e) && m in s.dev && n in s.dev && a in s.heard && s.links.users[n] != []
    ensures var t := Connect(s, e, now, a, m).0; t.dev[n] == s.dev[n] && Ups(t.log, n) == Ups(s.log, n)
  {
    hide Ups, Alter, Consistent, Linked, Mirror, UsersMatch, Counted, WellBehavedEnv;
    if m != n && s.links.users[m] == [] {
      var s0 := SetRetries(s, m, e.retries);
      AlterStatus(s0, e, now, m, CONNECTING);
      AlterUps(s0, e, now, m, CONNECTING, n);
    }
  }

  lemma DisconnectLeaves(s: State, e: Env, now: int, a: Addr, m: Name, n: Name, b: Addr)
    requires WellBehavedEnv(e) && Good(s, e) && m in s.dev && Pair(s, b, n) && a in s.heard && !(a == b && m == n)
    ensures var t := Disconnect(s, e, now, a, m).0; t.dev[n] == s.dev[n] && Ups(t.log, n) == Ups(s.log, n)
  {
    DisconnectUps(s, e, now, a, m, n);
    DisconnectEffect(s, e, now, a, m);
    assert m == n ==> b in Without(s.links.users[n], a);
  }

  /** A request that leaves the device alone changes neither its record nor its users' claim. */
  lemma ServeLeaves(s: State, e: Env, now: int, a: Addr, q: Request, n: Name, b: Addr)
    requires WellBehavedEnv(e) && Good(s, e) && a in s.heard && FromClient(q) && Pair(s, b, n) && Leaves(q, a, n, b)
    ensures var t := Serve(s, e, now, a, q).0; t.dev[n] == s.dev[n] && Ups(t.log, n) == Ups(s.log, n)
  {
    hide Ups, Alter, Connect, Disconnect, Consistent, Linked, Mirror, UsersMatch, Counted, WellBehavedEnv;
    match q
    case BringUp(m) => if m in s.dev { ConnectLeaves(s, e, now, a, m, n); }
    case TakeDown(m) =>
      WantsPair(s, e, a, m);
      if m in s.links.wants[a] { DisconnectLeaves(s, e, now, a, m, n, b); }
    case ForceOff(m) =>
      if m in s.dev {
        AlterStatus(s, e, now, m, DOWN);
        AlterUps(s, e, now, m, DOWN, n);
      }
    case _ =>
  }

  lemma NoticeLeaves(s: State, e: Env, now: int, q: Request, n: Name)
    requires Safe(s) && n in s.dev && !FromClient(q) && !q.BadPrefix? && q != IsUp(n) && q != IsDown(n)
    ensures var t := Notice(s, e, now, q).0; t.dev[n] == s.dev[n] && Ups(t.log, n) == Ups(s.log, n)
  {
    hide Ups, Alter, Consistent, Linked;
    match q
    case IsUp(m) =>
      if m in s.dev {
        AlterStatus(s, e, now, m, UP);
        AlterUps(s, e, now, m, UP, n);
      }
    case IsDown(m) =>
      if m in s.dev {
        AlterStatus(s, e, now, m, DOWN);
        AlterUps(s, e, now, m, DOWN, n);
      }
    case BadPeer =>
  }

  /** The message of a pass leaves the device alone, and its user `b` is not silent by then. */
  ghost predicate Undisturbed(s: State, e: Env, i: Input, n: Name, b: Addr)
    requires Safe(s)
  {
    && (i.datagram.Some? ==> Leaves(ParseRequest(i.datagram.value.text), i.datagram.value.from, n, b))
    && var t := Answered(s, e, i);
       b in t.heard && !Silent(t, e, i.now, b)
  }

  lemma AnsweredLeaves(s: State, e: Env, i: Input, n: Name, b: Addr)
    requires WellBehavedEnv(e) && Good(s, e) && Pair(s, b, n) && Undisturbed(s, e, i, n, b)
    ensures var t := Answered(s, e, i);
      Good(t, e) && Pair(t, b, n) && t.dev[n] == s.dev[n] && Ups(t.log, n) == Ups(s.log, n)
  {
    hide Ups, ParseRequest, Serve, Notice, Consistent, Linked, Mirror, UsersMatch, Counted, WellBehavedEnv;
    if i.datagram.Some? {
      var (d, q) := (i.datagram.value, ParseRequest(i.datagram.value.text));
      ReceiveGood(s, e, i.now, d);
      if FromClient(q) {
        HearGood(s, e, i.now, d.from);
        ServeLeaves(Hear(s, i.now, d.from), e, i.now, d.from, q, n, b);
      } else if !q.BadPrefix? {
        NoticeLeaves(s, e, i.now, q, n);
      }
    }
  }

  /** So does the ageing of other clients. */
  lemma AgeingLeaves(s: State, e: Env, now: int, n: Name, b: Addr)
    requires WellBehavedEnv(e) && Good(s, e) && Pair(s, b, n) && b in s.heard && !Silent(s, e, now, b)
    ensures var t := AgeClients(s, e, now, s.links.clis).0;
      && Good(t, e) && Pair(t, b, n) && t.dev[n] == s.dev[n] && Ups(t.log, n) == Ups(s.log, n)
      && t.links.devs == s.links.devs
  {
    NoDups(s);
    AgeClientsUps(s, e, now, s.links.clis, n);
    AgeingGood(s, e, now);
    hide Ups, AgeClients, Consistent, Linked, Mirror, UsersMatch, Counted, WellBehavedEnv;
    var t := AgeClients(s, e, now, s.links.clis).0;
    assert EmptiedAt(s, t, n) && b !in SilentOnes(s, e, now);
    assert b in Minus(s.links.users[n], SilentOnes(s, e, now));
  }

  // ---------- The attempts, whatever link_up returns ----------

  lemma OverdueOther(s: State, e: Env, now: int, m: Name, n: Name)
    requires Known(s, m) && n in s.dev && m != n
    ensures var t := Alter(s, e, now, m, s.dev[m].status).0; t.dev[n] == s.dev[n] && Ups(t.log, n) == Ups(s.log, n)
  {
    hide Ups, Alter;
    AlterStatus(s, e, now, m, s.dev[m].status);
    AlterUps(s, e, now, m, s.dev[m].status, n);
  }

  lemma {:induction false} SweepOthers(s: State, e: Env, now: int, ds: seq<Name>, n: Name)
    requires WellBehavedEnv(e) && Good(s, e) && (forall m :: m in ds ==> m in s.dev) && n in s.dev && n !in ds
    ensures var t := SweepDevices(s, e, now, ds).0; t.dev[n] == s.dev[n] && Ups(t.log, n) == Ups(s.log, n)
    decreases |ds|
  {
    hide Consistent, Linked, Mirror, UsersMatch, Counted, WellBehavedEnv, Ups, Alter, DeviceOverdue;
    if ds == [] {
    } else {
      assert ds[0] in ds && forall m :: m in ds[1..] ==> m in ds;
      if Overdue(s, e, now, ds[0]) {
        OverdueOther(s, e, now, ds[0], n);
        OverdueGood(s, e, now, ds[0]);
        var (s1, rc) := Alter(s, e, now, ds[0], s.dev[ds[0]].status);
        if rc.Ok? { SweepOthers(s1, e, now, ds[1..], n); }
      } else {
        SweepOthers(s, e, now, ds[1..], n);
      }
    }
  }

  /** Between `s` and `t` the device made as many attempts as its counter went down by, or it had
      none left and went DOWN. */
  ghost predicate Attempted(s: State, t: State, n: Name)
    requires n in s.dev && n in t.dev
  {
    var (d, f) := (s.dev[n], t.dev[n]);
    if f.status == CONNECTING then Ups(t.log, n) == Ups(s.log, n) + (d.retries - f.retries)
    else f.status == DOWN && Ups(t.log, n) == Ups(s.log, n) + d.retries + 1
  }

  lemma OverdueAttempted(s: State, e: Env, now: int, n: Name)
    requires WellBehavedEnv(e) && Good(s, e) && n in s.dev && Overdue(s, e, now, n) && s.dev[n].status == CONNECTING
    ensures var t := Alter(s, e, now, n, CONNECTING).0; n in t.dev && Attempted(s, t, n)
  {
    hide Ups, Consistent, Linked, Mirror, UsersMatch;
    assert -1 <= s.dev[n].retries;
    AttemptUps(s, e, now, n, n);
    OverdueEffect(s, e, now, n);
  }

  lemma {:induction false} SweepAttempted(s: State, e: Env, now: int, ds: seq<Name>, n: Name)
    requires WellBehavedEnv(e) && Good(s, e) && (forall m :: m in ds ==> m in s.dev) && NoDup(ds)
    requires n in s.dev && s.dev[n].status == CONNECTING
    ensures Attempted(s, SweepDevices(s, e, now, ds).0, n)
    decreases |ds|
  {
    hide Consistent, Linked, Mirror, UsersMatch, Counted, WellBehavedEnv, Ups, Alter, DeviceOverdue;
    if ds == [] {
    } else {
      assert ds[0] in ds && forall m :: m in ds[1..] ==> m in ds && m != ds[0];
      if Overdue(s, e, now, ds[0]) {
        OverdueGood(s, e, now, ds[0]);
        var (s1, rc) := Alter(s, e, now, ds[0], s.dev[ds[0]].status);
        if ds[0] == n {
          OverdueAttempted(s, e, now, n);
          if rc.Ok? { SweepOthers(s1, e, now, ds[1..], n); }
        } else {
          OverdueOther(s, e, now, ds[0], n);
          if rc.Ok? { SweepAttempted(s1, e, now, ds[1..], n); }
        }
      } else {
        SweepAttempted(s, e, now, ds[1..], n);
      }
    }
  }

  lemma SweepAllAttempted(s: State, e: Env, now: int, n: Name, b: Addr)
    requires WellBehavedEnv(e) && Good(s, e) && Pair(s, b, n) && n in s.dev && s.dev[n].status == CONNECTING
    ensures forall m :: m in s.links.devs ==> Known(s, m)
    ensures var t := SweepDevices(s, e, now, s.links.devs).0;
      Good(t, e) && Attempted(s, t, n) && (t.dev[n].status == CONNECTING ==> Pair(t, b, n))
  {
    NoDups(s);
    hide Consistent, Linked, Mirror, UsersMatch, Counted, WellBehavedEnv, Ups, SweepDevices, Attempted;
    SweepAttempted(s, e, now, s.links.devs, n);
    SweepAllGood(s, e, now);
    SweepPairs(s, e, now);
  }

  /** One pass that leaves the device alone. */
  lemma PassAttempted(s: State, e: Env, i: Input, n: Name, b: Addr)
    requires WellBehavedEnv(e) && Good(s, e) && Pair(s, b, n) && n in s.dev && s.dev[n].status == CONNECTING
    requires Undisturbed(s, e, i, n, b)
    ensures var t := Pass(s, e, i);
      && Good(t, e) && n in t.dev && Attempted(s, t, n)
      && (if t.dev[n].status == CONNECTING then Pair(t, b, n) else t.dev[n].status == DOWN)
  {
    hide Consistent, Linked, Mirror, UsersMatch, Counted, WellBehavedEnv, Ups, Answered, AgeClients, SweepDevices;
    AnsweredLeaves(s, e, i, n, b);
    var s1 := Answered(s, e, i);
    AgeingLeaves(s1, e, i.now, n, b);
    NoDups(s1);
    SweepAllAttempted(AgeClients(s1, e, i.now, s1.links.clis).0, e, i.now, n, b);
  }

  /** The passes leave the device alone for as long as it is CONNECTING. */
  ghost predicate Calmly(s: State, e: Env, inputs: seq<Input>, n: Name, b: Addr)
    requires Safe(s) && n in s.dev
    decreases |inputs|
  {
    inputs == [] || s.dev[n].status != CONNECTING
    || (Undisturbed(s, e, inputs[0], n, b) && Calmly(Pass(s, e, inputs[0]), e, inputs[1..], n, b))
  }

  lemma RunPrefix(s: State, e: Env, inputs: seq<Input>, j: nat)
    requires Safe(s) && 1 <= j <= |inputs|
    ensures Run(s, e, inputs[..j]) == Run(Pass(s, e, inputs[0]), e, inputs[1..][..j - 1])
  {
    assert inputs[..j][1..] == inputs[1..][..j - 1];
  }

  lemma AttemptedSelf(s: State, n: Name)
    requires n in s.dev && s.dev[n].status == CONNECTING
    ensures Attempted(s, s, n)
  {
  }

  lemma AttemptedThen(s: State, t: State, u: State, n: Name)
    requires n in s.dev && n in t.dev && n in u.dev && t.dev[n].status == CONNECTING
    requires Attempted(s, t, n) && Attempted(t, u, n)
    ensures Attempted(s, u, n)
  {
  }

  /** Behind the first `j` passes the device is CONNECTING, or DOWN, after as many attempts as its
      counter tells. */
  ghost predicate TryingAt(s: State, e: Env, inputs: seq<Input>, n: Name, st: Status, j: nat)
    requires Safe(s) && n in s.dev && j <= |inputs|
  {
    var t := Run(s, e, inputs[..j]);
    Attempted(s, t, n) && t.dev[n].status == st
  }

  lemma TryingStep(s: State, e: Env, inputs: seq<Input>, n: Name, st: Status, j: nat)
    requires Safe(s) && n in s.dev && 1 <= j <= |inputs|
    requires var t := Pass(s, e, inputs[0]);
      Attempted(s, t, n) && t.dev[n].status == CONNECTING && TryingAt(t, e, inputs[1..], n, st, j - 1)
    ensures TryingAt(s, e, inputs, n, st, j)
  {
    hide Consistent, Linked, Pass, Run, Attempted;
    RunPrefix(s, e, inputs, j);
    AttemptedThen(s, Pass(s, e, inputs[0]), Run(s, e, inputs[..j]), n);
  }

  lemma TryingFirst(s: State, e: Env, inputs: seq<Input>, n: Name)
    requires Safe(s) && n in s.dev && s.dev[n].status == CONNECTING
    ensures TryingAt(s, e, inputs, n, CONNECTING, 0)
    ensures inputs != [] ==>
              var t := Pass(s, e, inputs[0]);
              Attempted(s, t, n) ==> TryingAt(s, e, inputs, n, t.dev[n].status, 1)
  {
    hide Consistent, Linked, Pass, Attempted;
    AttemptedSelf(s, n);
    assert inputs[..0] == [] && Run(s, e, []) == s;
    if inputs != [] {
      RunPrefix(s, e, inputs, 1);
      assert inputs[1..][..0] == [];
      var t := Pass(s, e, inputs[0]);
      assert Run(t, e, []) == t;
    }
  }

  /** A CONNECTING device that is left alone: it is CONNECTING until the pass `k`, with one attempt
      for each step of its counter, and DOWN behind it, after as many attempts as were left; or it
      is CONNECTING to the end.  link_up may return anything. */
  lemma {:induction false} RunAttempted(s: State, e: Env, inputs: seq<Input>, n: Name, b: Addr) returns (k: nat)
    requires WellBehavedEnv(e) && Good(s, e) && Pair(s, b, n) && n in s.dev && s.dev[n].status == CONNECTING
    requires Calmly(s, e, inputs, n, b)
    ensures k <= |inputs|
    ensures forall j :: 0 <= j <= k ==> TryingAt(s, e, inputs, n, CONNECTING, j)
    ensures k < |inputs| ==> TryingAt(s, e, inputs, n, DOWN, k + 1)
    decreases |inputs|
  {
    hide Consistent, Linked, Mirror, UsersMatch, Counted, WellBehavedEnv, Pass, Undisturbed, Attempted, TryingAt;
    TryingFirst(s, e, inputs, n);
    if inputs == [] {
      k := 0;
    } else {
      var t := Pass(s, e, inputs[0]);
      PassAttempted(s, e, inputs[0], n, b);
      if t.dev[n].status == CONNECTING {
        var k' := RunAttempted(t, e, inputs[1..], n, b);
        k := k' + 1;
        forall j | 1 <= j <= k ensures TryingAt(s, e, inputs, n, CONNECTING, j) {
          TryingStep(s, e, inputs, n, CONNECTING, j);
        }
        if k < |inputs| {
          TryingStep(s, e, inputs, n, DOWN, k + 1);
        }
      } else {
        k := 0;
      }
    }
  }

  /** A caller can see to it: passes within client_timeout of the time `T` at which `b` was heard,
      with messages that leave the device alone. */
  lemma {:induction false} CalmlyWithin(s: State, e: Env, inputs: seq<Input>, n: Name, b: Addr, T: int)
    requires WellBehavedEnv(e) && Good(s, e) && n in s.dev && b in s.heard && s.heard[b] >= T
    requires forall i :: i in inputs ==>
               && T <= i.now <= T + e.clientTimeout
               && (i.datagram.Some? ==> Leaves(ParseRequest(i.datagram.value.text), i.datagram.value.from, n, b))
    ensures Calmly(s, e, inputs, n, b)
    decreases |inputs|
  {
    hide Consistent, Linked, Mirror, UsersMatch, Counted, WellBehavedEnv, ParseRequest, Leaves, Receive, Tick;
    if inputs == [] {
    } else {
      var i := inputs[0];
      assert i in inputs && forall j :: j in inputs[1..] ==> j in inputs;
      if i.datagram.Some? {
        ReceiveGood(s, e, i.now, i.datagram.value);
      }
      TickGood(Answered(s, e, i), e, i.now);
      CalmlyWithin(Pass(s, e, i), e, inputs[1..], n, b, T);
    }
  }

  // ---------- From the first UP ----------

  /** A client's UP on a device without users runs link_up once.  If that returns -1 the UP fails
      and the device keeps its status; else the device is CONNECTING, with g_retries - 1 on its
      counter and the client as its user. */
  lemma ConnectStarts(s: State, e: Env, now: int, a: Addr, n: Name)
    requires WellBehavedEnv(e) && Good(s, e) && n in s.dev && a in s.heard && s.links.users[n] == []
    ensures var (t, rc) := Connect(s, e, now, a, n);
      && Good(t, e) && Ups(t.log, n) == Ups(s.log, n) + 1
      && (rc.Ok? <==> StartReply(s, e, n).Exit?)
      && (if rc.Ok? then t.dev[n] == Device(CONNECTING, now, e.retries - 1) && Pair(t, a, n)
          else t.dev[n] == s.dev[n].(retries := e.retries - 1))
  {
    ConnectGood(s, e, now, a, n);
    assert Matched(s.dev[n].status, s.links.users[n]);
    StartUps(s, e, now, n);
    WipeMirror(s.links, n);
    StartEffect(s, e, now, n);
    hide Ups, Alter, Consistent, Linked, Mirror, UsersMatch, Counted, WellBehavedEnv;
  }

  lemma StartUps(s: State, e: Env, now: int, n: Name)
    requires WellBehavedEnv(e) && Known(s, n) && (s.dev[n].status == DOWN || s.dev[n].status == DISCONNECTING)
    ensures var t := Alter(SetRetries(s, n, e.retries), e, now, n, CONNECTING).0; Ups(t.log, n) == Ups(s.log, n) + 1
  {
    hide Ups, Attempt;
    var s0 := SetRetries(s, n, e.retries);
    assert e.world(s.ran, LinkForceDown) == Exit(0);
    UpsAppend(s.log, Ran(LinkForceDown, n, Exit(0)), n);
    var s1 := if s.dev[n].status == DISCONNECTING then ForceDown(s0, e, n).0 else s0;
    AttemptUps(SetRetries(s1, n, e.retries), e, now, n, n);
  }

  lemma ReceiveUp(s: State, e: Env, now: int, d: Datagram, n: Name)
    requires Safe(s) && n in s.dev && ParseRequest(d.text) == BringUp(n)
    ensures var h := Hear(s, now, d.from);
      && Safe(h) && Receive(s, e, now, d) == Connect(h, e, now, d.from, n)
      && h.dev == s.dev && h.links.users == s.links.users && h.log == s.log && h.ran == s.ran
      && d.from in h.heard
  {
    hide ParseRequest, Consistent, Linked, Connect;
    HearKeeps(s, now, d.from);
  }

  /** On any well-behaved run: a device whose first user's UP was accepted and that is then left
      alone has link_up attempted, from that UP on, once for each step of its counter, and exactly
      g_retries + 1 times when it goes DOWN, in the pass `k`.  What link_up returns does not matter,
      and neither does what happens to other devices and other clients. */
  lemma RetryCount(names: seq<Name>, e: Env, inputs: seq<Input>, t0: int, d: Datagram, n: Name, rest: seq<Input>)
    returns (k: nat)
    requires WellBehavedEnv(e) && n in names && ParseRequest(d.text) == BringUp(n)
    ensures var s := Run(Boot(names), e, inputs);
      var (s0, rc) := Receive(s, e, t0, d);
      s.links.users[n] == [] ==>
        && Ups(s0.log, n) == Ups(s.log, n) + 1
        && (rc.Err? ==> s0.dev[n].status == s.dev[n].status)
        && (rc.Ok? && Calmly(s0, e, rest, n, d.from) ==>
             && k <= |rest|
             && (forall j :: 0 <= j <= k ==>
                   var t := Run(s0, e, rest[..j]);
                   t.dev[n].status == CONNECTING && Ups(t.log, n) == Ups(s.log, n) + e.retries - t.dev[n].retries)
             && (k < |rest| ==>
                   var t := Run(s0, e, rest[..k + 1]);
                   t.dev[n].status == DOWN && Ups(t.log, n) == Ups(s.log, n) + e.retries + 1))
  {
    hide Consistent, Linked, Mirror, UsersMatch, Counted, WellBehavedEnv, Ups, Run, Boot, ParseRequest, Receive,
         Connect, Hear, Calmly;
    var s := Run(Boot(names), e, inputs);
    RunGood(names, e, inputs);
    var (s0, rc) := Receive(s, e, t0, d);
    k := 0;
    if s.links.users[n] == [] {
      HearGood(s, e, t0, d.from);
      ReceiveUp(s, e, t0, d, n);
      ConnectStarts(Hear(s, t0, d.from), e, t0, d.from, n);
      if rc.Ok? && Calmly(s0, e, rest, n, d.from) {
        k := RunAttempted(s0, e, rest, n, d.from);
        forall j | 0 <= j <= k
          ensures var t := Run(s0, e, rest[..j]);
            t.dev[n].status == CONNECTING && Ups(t.log, n) == Ups(s.log, n) + e.retries - t.dev[n].retries
        {
          assert TryingAt(s0, e, rest, n, CONNECTING, j);
        }
      }
    }
  }

  // ---------- When ----------

  /** The times of the passes. */
  function Clock(inputs: seq<Input>): (ts: seq<int>)
    ensures |ts| == |inputs| && forall j :: 0 <= j < |ts| ==> ts[j] == inputs[j].now
  {
    seq(|inputs|, j requires 0 <= j < |inputs| => inputs[j].now)
  }

  /** In how many of the passes the device is overdue. */
  function OverduePasses(s: State, e: Env, inputs: seq<Input>, n: Name): nat
    requires Safe(s) && n in s.dev
    decreases |inputs|
  {
    if inputs == [] then 0
    else
      (if Overdue(s, e, inputs[0].now, n) then 1 else 0) + OverduePasses(Pass(s, e, inputs[0]), e, inputs[1..], n)
  }

  /** When no link_up returns -1, no sweep ends early, and a pass that leaves the device alone does to
      it what one sweep does. */
  lemma PassCalm(s: State, e: Env, i: Input, n: Name, b: Addr, to: nat)
    requires Good(s, e) && Pair(s, b, n) && n in s.dev && Undisturbed(s, e, i, n, b)
    requires Calm(e, s.ran, to) && Pass(s, e, i).ran <= to
    ensures Pass(s, e, i).dev[n] == DeviceTick(s.dev[n], e, i.now)
  {
    hide Consistent, Linked, Mirror, UsersMatch, Counted, WellBehavedEnv, Ups, Answered, AgeClients, SweepDevices;
    BeforeSweepRan(s, e, i);
    AnsweredLeaves(s, e, i, n, b);
    var s1 := Answered(s, e, i);
    AgeingLeaves(s1, e, i.now, n, b);
    var s2 := AgeClients(s1, e, i.now, s1.links.clis).0;
    NoDups(s2);
    assert Known(s2, n);
    SweepCalm(s2, e, i.now, s2.links.devs, n, to);
  }

  lemma {:induction false} RunCalm(s: State, e: Env, inputs: seq<Input>, n: Name, b: Addr, to: nat)
    requires Good(s, e) && Pair(s, b, n) && n in s.dev && s.dev[n].status == CONNECTING
    requires Calm(e, s.ran, to) && Run(s, e, inputs).ran <= to && Calmly(s, e, inputs, n, b)
    requires forall j :: 0 <= j < |inputs| ==> DeviceRun(s.dev[n], e, Clock(inputs)[..j]).status == CONNECTING
    ensures Run(s, e, inputs).dev[n] == DeviceRun(s.dev[n], e, Clock(inputs))
    ensures OverduePasses(s, e, inputs, n) == DeviceOverdues(s.dev[n], e, Clock(inputs))
    decreases |inputs|
  {
    hide Consistent, Linked, Mirror, UsersMatch, Counted, WellBehavedEnv, Pass, Undisturbed, Attempted, DeviceTick,
         DeviceOverdue;
    if inputs == [] {
    } else {
      var (t, more, ts) := (Pass(s, e, inputs[0]), inputs[1..], Clock(inputs));
      assert Clock(more) == ts[1..];
      RunRan(t, e, more);
      PassRan(s, e, inputs[0]);
      PassCalm(s, e, inputs[0], n, b, to);
      PassAttempted(s, e, inputs[0], n, b);
      if more == [] {
        assert Run(t, e, []) == t;
      } else {
        assert ts[..1][0] == ts[0] && ts[..1][1..] == [] && DeviceRun(t.dev[n], e, []) == t.dev[n];
        assert DeviceRun(s.dev[n], e, ts[..1]).status == CONNECTING;
        forall j | 0 <= j < |more| ensures DeviceRun(t.dev[n], e, Clock(more)[..j]).status == CONNECTING {
          assert ts[..j + 1][1..] == Clock(more)[..j];
          assert DeviceRun(s.dev[n], e, ts[..j + 1]).status == CONNECTING;
        }
        RunCalm(t, e, more, n, b, to);
      }
    }
  }

  lemma PassRan(s: State, e: Env, i: Input)
    requires Safe(s)
    ensures Pass(s, e, i).ran >= s.ran
  {
    hide Consistent, Linked, Pass;
    RunRan(s, e, [i]);
    assert [i][1..] == [] && Run(Pass(s, e, i), e, []) == Pass(s, e, i);
  }

  /** A run has run at least the commands of each of its beginnings. */
  lemma {:induction false} PrefixRan(s: State, e: Env, inputs: seq<Input>, j: nat)
    requires Safe(s) && j <= |inputs|
    ensures Run(s, e, inputs[..j]).ran <= Run(s, e, inputs).ran
    decreases |inputs|
  {
    hide Consistent, Linked, Pass;
    if j == 0 {
      assert inputs[..0] == [] && Run(s, e, []) == s;
      RunRan(s, e, inputs);
    } else {
      RunPrefix(s, e, inputs, j);
      PrefixRan(Pass(s, e, inputs[0]), e, inputs[1..], j - 1);
    }
  }

  lemma {:induction false} CalmlyPrefix(s: State, e: Env, inputs: seq<Input>, n: Name, b: Addr, j: nat)
    requires Safe(s) && n in s.dev && Calmly(s, e, inputs, n, b) && j <= |inputs|
    ensures Calmly(s, e, inputs[..j], n, b)
    decreases |inputs|
  {
    hide Consistent, Linked, Pass, Undisturbed;
    if j == 0 || s.dev[n].status != CONNECTING {
    } else {
      assert inputs[..j][1..] == inputs[1..][..j - 1];
      CalmlyPrefix(Pass(s, e, inputs[0]), e, inputs[1..], n, b, j - 1);
    }
  }

  lemma SameFirst(st: seq<Status>, m: nat, k: nat)
    requires m < |st| && (forall j :: 0 <= j <= m ==> st[j] == CONNECTING) && (m + 1 < |st| ==> st[m + 1] == DOWN)
    requires k + 1 < |st| && (forall j :: 0 <= j <= k ==> st[j] == CONNECTING) && st[k + 1] == DOWN
    ensures m == k
  {
  }

  /** The attempts of a device that is CONNECTING until the pass `k` and DOWN behind it. */
  lemma AttemptsUntil(s: State, e: Env, rest: seq<Input>, n: Name, b: Addr, k: nat)
    requires WellBehavedEnv(e) && Good(s, e) && Pair(s, b, n) && n in s.dev && Calmly(s, e, rest, n, b) && k < |rest|
    requires s.dev[n].status == CONNECTING
    requires forall j :: 0 <= j <= k ==> Run(s, e, rest[..j]).dev[n].status == CONNECTING
    requires Run(s, e, rest[..k + 1]).dev[n].status == DOWN
    ensures Ups(Run(s, e, rest[..k + 1]).log, n) == Ups(s.log, n) + s.dev[n].retries + 1
  {
    hide Consistent, Linked, Mirror, UsersMatch, Counted, WellBehavedEnv, Ups, Run, Calmly;
    var m := RunAttempted(s, e, rest, n, b);
    var st := seq(|rest| + 1, j requires 0 <= j <= |rest| => Run(s, e, rest[..j]).dev[n].status);
    forall j | 0 <= j <= m ensures st[j] == CONNECTING {
      assert TryingAt(s, e, rest, n, CONNECTING, j);
    }
    SameFirst(st, m, k);
  }

  /** Each beginning of the run does to the device what as many sweeps do. */
  lemma PrefixCalm(s: State, e: Env, rest: seq<Input>, n: Name, b: Addr, j: nat)
    requires Good(s, e) && Pair(s, b, n) && n in s.dev && s.dev[n].status == CONNECTING && j <= |rest|
    requires Calm(e, s.ran, Run(s, e, rest).ran) && Calmly(s, e, rest, n, b)
    requires forall i :: 0 <= i < j ==> DeviceRun(s.dev[n], e, Clock(rest)[..i]).status == CONNECTING
    ensures Run(s, e, rest[..j]).dev[n] == DeviceRun(s.dev[n], e, Clock(rest)[..j])
    ensures OverduePasses(s, e, rest[..j], n) == DeviceOverdues(s.dev[n], e, Clock(rest)[..j])
  {
    hide Consistent, Linked, Mirror, UsersMatch, Counted, Run, DeviceRun, Calmly, DeviceOverdues, OverduePasses;
    CalmlyPrefix(s, e, rest, n, b, j);
    PrefixRan(s, e, rest, j);
    assert Clock(rest[..j]) == Clock(rest)[..j];
    assert forall i :: 0 <= i < j ==> Clock(rest)[..j][..i] == Clock(rest)[..i];
    RunCalm(s, e, rest[..j], n, b, Run(s, e, rest).ran);
  }

  /** If moreover none of the link_ups that run meanwhile returns -1, and the passes are at most `G`
      apart, the device is CONNECTING until the pass `k`, the (g_retries + 1)-th in which it is
      overdue, and DOWN behind it, and that pass lies between the stated times after the UP at t0. */
  lemma RetryBound(s: State, e: Env, t0: int, a: Addr, n: Name, G: int, rest: seq<Input>) returns (k: nat)
    requires WellBehavedEnv(e) && Good(s, e) && n in s.dev && a in s.heard && s.links.users[n] == []
    requires e.connectTimeout >= 0 && G >= 1 && rest != []
    requires t0 <= rest[0].now <= t0 + G && Spaced(Clock(rest), G)
    requires rest[|rest| - 1].now >= t0 + (e.retries + 1) * (e.connectTimeout + G)
    ensures var (s0, rc) := Connect(s, e, t0, a, n);
      && Safe(s0) && n in s0.dev
      && (rc.Ok? && Calm(e, s0.ran, Run(s0, e, rest).ran) && Calmly(s0, e, rest, n, a) ==>
           && k < |rest|
           && t0 + (e.retries + 1) * (e.connectTimeout + 1) <= rest[k].now
           && rest[k].now <= t0 + (e.retries + 1) * (e.connectTimeout + G)
           && (forall j :: 0 <= j <= k ==> Run(s0, e, rest[..j]).dev[n].status == CONNECTING)
           && Run(s0, e, rest[..k + 1]).dev[n].status == DOWN
           && Overdue(Run(s0, e, rest[..k]), e, rest[k].now, n)
           && OverduePasses(s0, e, rest[..k + 1], n) == e.retries + 1
           && Ups(Run(s0, e, rest[..k + 1]).log, n) == Ups(s.log, n) + e.retries + 1)
  {
    hide Consistent, Linked, Mirror, UsersMatch, Counted, Ups, Connect, Run, DeviceRun, DeviceUps, Calmly,
         DeviceOverdue, DeviceOverdues, OverduePasses;
    ConnectStarts(s, e, t0, a, n);
    var (s0, rc) := Connect(s, e, t0, a, n);
    k := 0;
    if rc.Ok? && Calm(e, s0.ran, Run(s0, e, rest).ran) && Calmly(s0, e, rest, n, a) {
      hide Calm, WellBehavedEnv;
      assert s0.dev[n].retries + 2 == e.retries + 1;
      assert Times(e.retries + 1, e.connectTimeout + G) == (e.retries + 1) * (e.connectTimeout + G);
      assert Times(e.retries + 1, e.connectTimeout + 1) == (e.retries + 1) * (e.connectTimeout + 1);
      hide Times;
      k := DeviceExhausts(s0.dev[n], e, G, Clock(rest));
      forall j | 0 <= j <= k + 1
        ensures Run(s0, e, rest[..j]).dev[n] == DeviceRun(s0.dev[n], e, Clock(rest)[..j])
      {
        PrefixCalm(s0, e, rest, n, a, j);
      }
      PrefixCalm(s0, e, rest, n, a, k + 1);
      AttemptsUntil(s0, e, rest, n, a, k);
    }
  }
}
