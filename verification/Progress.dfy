/** How many shell commands a server can still run when no more messages come. */
module Progress {
  import opened Collections
  import opened Manager
  import opened Safety
  import opened MainLoop
  import opened WellBehaved
  import opened Counters
  import opened Filtering
  import opened Ageing
  import opened Relation
  import opened Timing
  import opened Retry

  /** An upper bound on what one device can still cause: actions of device sweeps (`k` is 0 and `u`
      is 1), or all commands, also those of the ageing of its clients (`k` is 1 and `u` is 2). */
  function Units(d: Device, k: int, u: int): int {
    match d.status
    case DOWN => 0
    case DISCONNECTING => 1
    case CONNECTING => d.retries + 2 + k
    case UP => u
  }

  function Work(dev: map<Name, Device>, ds: seq<Name>, k: int, u: int): int
    requires forall n :: n in ds ==> n in dev
  {
    if ds == [] then 0
    else
      assert ds[0] in ds;
      Units(dev[ds[0]], k, u) + Work(dev, ds[1..], k, u)
  }

  lemma {:induction false} WorkSame(d: map<Name, Device>, f: map<Name, Device>, ds: seq<Name>, k: int, u: int)
    requires forall n :: n in ds ==> n in d && n in f && f[n] == d[n]
    ensures Work(f, ds, k, u) == Work(d, ds, k, u)
  {
    if ds == [] {
    } else {
      assert ds[0] in ds && forall n :: n in ds[1..] ==> n in ds;
      WorkSame(d, f, ds[1..], k, u);
    }
  }

  lemma {:induction false} WorkUpdate(d: map<Name, Device>, f: map<Name, Device>, ds: seq<Name>, n: Name,
                                      k: int, u: int)
    requires n in ds && NoDup(ds) && forall m :: m in ds ==> m in d && m in f && (m != n ==> f[m] == d[m])
    ensures Work(f, ds, k, u) == Work(d, ds, k, u) - Units(d[n], k, u) + Units(f[n], k, u)
  {
    assert ds[0] in ds && forall m :: m in ds[1..] ==> m in ds && m != ds[0];
    if ds[0] == n {
      WorkSame(d, f, ds[1..], k, u);
    } else {
      WorkUpdate(d, f, ds[1..], n, k, u);
    }
  }

  lemma {:induction false} WorkBound(dev: map<Name, Device>, ds: seq<Name>, k: int, u: int, r: int)
    requires r >= 0 && 0 <= k <= 1 && 0 <= u <= k + 1
    requires forall n :: n in ds ==> n in dev && (dev[n].status == CONNECTING ==> -1 <= dev[n].retries < r)
    ensures 0 <= Work(dev, ds, k, u) <= Times(|ds|, r + 1 + k)
  {
    hide Times;
    if ds == [] {
      TimesStep(0, r + 1 + k);
    } else {
      assert ds[0] in ds && forall n :: n in ds[1..] ==> n in ds;
      WorkBound(dev, ds[1..], k, u, r);
      TimesStep(|ds| - 1, r + 1 + k);
      assert 0 <= Units(dev[ds[0]], k, u) <= r + 1 + k;
    }
  }

  lemma WorkRange(s: State, e: Env, k: int, u: int)
    requires Sound(s, e) && e.retries >= 0 && 0 <= k <= 1 && 0 <= u <= k + 1
    ensures forall n :: n in s.links.devs ==> n in s.dev
    ensures 0 <= Work(s.dev, s.links.devs, k, u) <= Times(|s.links.devs|, e.retries + 1 + k)
  {
    NoDups(s);
    hide Times, Consistent, Linked;
    assert forall n :: n in s.links.devs ==> Known(s, n);
    WorkBound(s.dev, s.links.devs, k, u, e.retries);
  }

  /** The work left in a state, plus the commands run so far. */
  function Budget(s: State, k: int, u: int): int
    requires forall n :: n in s.links.devs ==> n in s.dev
  {
    Work(s.dev, s.links.devs, k, u) + s.ran
  }

  // ---------- Every command uses up a unit of work ----------

  lemma DisconnectRan(s: State, e: Env, now: int, a: Addr, n: Name)
    requires WellBehavedEnv(e) && Good(s, e) && n in s.dev && a in s.heard
    ensures var t := Disconnect(s, e, now, a, n).0;
      t.ran == s.ran + if s.links.users[n] != [] && t.links.users[n] == [] then 1 else 0
  {
    assert Matched(s.dev[n].status, s.links.users[n]);
    DisconnectUsers(s, e, now, a, n);
    var s1 := s.(links := DropUser(s.links, a, n));
    if a in s.links.users[n] && s1.links.users[n] == [] {
      hide Consistent, Linked, Mirror, UsersMatch, Counted;
      assert e.world(s.ran, LinkForceDown) == Exit(0) && e.world(s.ran, LinkDown).Exit?;
      assert Alter(s1, e, now, n, DISCONNECTING).0.ran == s.ran + 1;
    }
  }

  lemma DisconnectSpends(s: State, e: Env, now: int, a: Addr, n: Name)
    requires WellBehavedEnv(e) && Good(s, e) && n in s.dev && a in s.heard
    ensures (forall m :: m in s.links.devs ==> m in s.dev)
    ensures Budget(Disconnect(s, e, now, a, n).0, 1, 2) <= Budget(s, 1, 2)
  {
    NoDups(s);
    assert Known(s, n);
    hide Consistent, Linked, Mirror, UsersMatch, Counted, WellBehavedEnv, Disconnect, Work, Units, Matched;
    LeavesLess(s, e, now, a, n);
    DisconnectRan(s, e, now, a, n);
    WorkUpdate(s.dev, Disconnect(s, e, now, a, n).0.dev, s.links.devs, n, 1, 2);
  }

  lemma LeavesLess(s: State, e: Env, now: int, a: Addr, n: Name)
    requires WellBehavedEnv(e) && Good(s, e) && n in s.dev && a in s.heard
    ensures var t := Disconnect(s, e, now, a, n).0;
      && t.dev == s.dev[n := t.dev[n]]
      && Units(t.dev[n], 1, 2) + (if s.links.users[n] != [] && t.links.users[n] == [] then 1 else 0)
         <= Units(s.dev[n], 1, 2)
  {
    hide Good, WellBehavedEnv, LeavingTime, Disconnect, Units;
    GoodDevice(s, e, n);
    DisconnectEffect(s, e, now, a, n);
    var t := Disconnect(s, e, now, a, n).0;
    UnitsLeft(s.dev[n], t.dev[n], s.links.users[n] != [] && t.links.users[n] == []);
  }

  lemma GoodDevice(s: State, e: Env, n: Name)
    requires Good(s, e) && n in s.dev
    ensures Known(s, n) && Matched(s.dev[n].status, s.links.users[n])
    ensures s.dev[n].status == CONNECTING ==> s.dev[n].retries >= -1
  {
  }

  lemma UnitsLeft(d: Device, f: Device, left: bool)
    requires d.status == CONNECTING ==> d.retries >= -1
    requires if left then (d.status == UP || d.status == CONNECTING) && f.status == DISCONNECTING else f == d
    ensures Units(f, 1, 2) + (if left then 1 else 0) <= Units(d, 1, 2)
  {
  }

  lemma {:induction false} RemoveFromAllSpends(s: State, e: Env, now: int, a: Addr, ds: seq<Name>)
    requires WellBehavedEnv(e) && Good(s, e) && a in s.heard && forall n :: n in ds ==> n in s.dev
    requires forall n :: n in s.links.devs ==> n in s.dev
    ensures Budget(RemoveFromAll(s, e, now, a, ds).0, 1, 2) <= Budget(s, 1, 2)
    decreases |ds|
  {
    hide Consistent, Linked, Mirror, UsersMatch, Counted, WellBehavedEnv, Work, Disconnect;
    if ds == [] {
    } else {
      assert ds[0] in ds && forall n :: n in ds[1..] ==> n in ds;
      RemoveOneGood(s, e, now, a, ds[0]);
      DisconnectSpends(s, e, now, a, ds[0]);
      RemoveFromAllSpends(Disconnect(s, e, now, a, ds[0]).0, e, now, a, ds[1..]);
    }
  }

  lemma {:induction false} AgeClientsSpends(s: State, e: Env, now: int, cs: seq<Addr>)
    requires WellBehavedEnv(e) && Good(s, e) && NoDup(cs) && forall a :: a in cs ==> a in s.heard
    requires forall n :: n in s.links.devs ==> n in s.dev
    ensures Budget(AgeClients(s, e, now, cs).0, 1, 2) <= Budget(s, 1, 2)
    decreases |cs|
  {
    NoDups(s);
    hide Consistent, Linked, Mirror, UsersMatch, Counted, WellBehavedEnv, Work, EmptiedAt;
    if cs == [] {
    } else {
      assert cs[0] in cs && forall a :: a in cs[1..] ==> a in cs && a != cs[0];
      if Silent(s, e, now, cs[0]) {
        AgedGood(s, e, now, cs[0]);
        RemoveFromAllSpends(s, e, now, cs[0], s.links.devs);
        AgeClientsSpends(Aged(s, e, now, cs[0]), e, now, cs[1..]);
      } else {
        AgeClientsSpends(s, e, now, cs[1..]);
      }
    }
  }

  /** What one action on an overdue device does to its record, whatever link_up returns. */
  lemma OverdueStep(s: State, e: Env, now: int, n: Name)
    requires Forceful(e) && Known(s, n) && Overdue(s, e, now, n)
    ensures var (t, d) := (Alter(s, e, now, n, s.dev[n].status).0, s.dev[n]);
      && t.ran == s.ran + 1 && t.dev == s.dev[n := t.dev[n]]
      && (if d.status == CONNECTING && d.retries >= 0
          then t.dev[n].status == CONNECTING && t.dev[n].retries == d.retries - 1
          else t.dev[n].status == DOWN)
  {
    hide Wipe;
    assert e.world(s.ran, LinkForceDown) == Exit(0);
  }

  /** Every action on an overdue device runs exactly one command and uses up at least a unit of
      work, even when link_up returns -1 and the sweep is abandoned; with k = 0 exactly one. */
  lemma OverdueSpends(s: State, e: Env, now: int, n: Name, k: int, u: int)
    requires Forceful(e) && Sound(s, e) && n in s.dev && Overdue(s, e, now, n) && 0 <= k <= 1
    ensures forall m :: m in s.links.devs ==> m in s.dev
    ensures var t := Alter(s, e, now, n, s.dev[n].status).0;
      && t.ran == s.ran + 1 && Budget(t, k, u) <= Budget(s, k, u) && (k == 0 ==> Budget(t, k, u) == Budget(s, k, u))
      && Sound(t, e)
  {
    NoDups(s);
    assert Known(s, n);
    assert s.dev[n].status == CONNECTING ==> s.dev[n].retries >= -1;
    AlterKeeps(s, e, now, n, s.dev[n].status);
    AlterCounted(s, e, now, n, s.dev[n].status);
    hide Consistent, Linked, Counted, Alter;
    OverdueStep(s, e, now, n);
    WorkUpdate(s.dev, Alter(s, e, now, n, s.dev[n].status).0.dev, s.links.devs, n, k, u);
  }

  lemma {:induction false} SweepSpends(s: State, e: Env, now: int, ds: seq<Name>, k: int, u: int)
    requires Forceful(e) && Sound(s, e) && (forall n :: n in ds ==> Known(s, n)) && 0 <= k <= 1
    requires forall n :: n in s.links.devs ==> n in s.dev
    ensures Budget(SweepDevices(s, e, now, ds).0, k, u) <= Budget(s, k, u)
    decreases |ds|
  {
    hide Consistent, Linked, Counted, Work, Alter, DeviceOverdue, Forceful;
    if ds == [] {
    } else {
      assert Known(s, ds[0]) && forall n :: n in ds[1..] ==> Known(s, n);
      if Overdue(s, e, now, ds[0]) {
        OverdueSpends(s, e, now, ds[0], k, u);
        var (s1, rc) := Alter(s, e, now, ds[0], s.dev[ds[0]].status);
        if rc.Ok? { SweepSpends(s1, e, now, ds[1..], k, u); }
      } else {
        SweepSpends(s, e, now, ds[1..], k, u);
      }
    }
  }

  lemma TickSpends(s: State, e: Env, now: int)
    requires WellBehavedEnv(e) && Good(s, e)
    ensures forall n :: n in s.links.devs ==> n in s.dev
    ensures Budget(Tick(s, e, now), 1, 2) <= Budget(s, 1, 2)
  {
    NoDups(s);
    AgeingGood(s, e, now);
    hide Consistent, Linked, Mirror, UsersMatch, Counted, WellBehavedEnv, Work, EmptiedAt, SilentOnes;
    AgeClientsSpends(s, e, now, s.links.clis);
    var s1 := AgeClients(s, e, now, s.links.clis).0;
    NoDups(s1);
    SweepSpends(s1, e, now, s1.links.devs, 1, 2);
  }

  lemma {:induction false} SilenceSpends(s: State, e: Env, ts: seq<int>)
    requires WellBehavedEnv(e) && Good(s, e)
    ensures forall n :: n in s.links.devs ==> n in s.dev
    ensures Good(Run(s, e, Silence(ts)), e) && Budget(Run(s, e, Silence(ts)), 1, 2) <= Budget(s, 1, 2)
    decreases |ts|
  {
    NoDups(s);
    assert forall n :: n in s.links.devs ==> Known(s, n);
    hide Consistent, Linked, Mirror, UsersMatch, Counted, WellBehavedEnv, Work, Tick;
    if ts == [] {
    } else {
      TickGood(s, e, ts[0]);
      TickSpends(s, e, ts[0]);
      assert Silence(ts)[1..] == Silence(ts[1..]);
      SilenceSpends(Tick(s, e, ts[0]), e, ts[1..]);
    }
  }

  lemma SilenceBoundFrom(s: State, e: Env, ts: seq<int>)
    requires WellBehavedEnv(e) && Good(s, e)
    ensures Run(s, e, Silence(ts)).ran <= s.ran + (e.retries + 2) * |s.links.devs|
  {
    hide Consistent, Linked, Mirror, UsersMatch, Counted, Work, Run;
    SilenceSpends(s, e, ts);
    WorkRange(s, e, 1, 2);
    WorkRange(Run(s, e, Silence(ts)), e, 1, 2);
  }

  /** However long a well-behaved server is left without messages, and however often link_up
      returns -1 meanwhile, it runs at most (g_retries + 2) commands for each device. */
  lemma SilenceBound(names: seq<Name>, e: Env, inputs: seq<Input>, ts: seq<int>)
    requires WellBehavedEnv(e)
    ensures var s := Run(Boot(names), e, inputs);
      Run(s, e, Silence(ts)).ran <= s.ran + (e.retries + 2) * |s.links.devs|
  {
    RunGood(names, e, inputs);
    SilenceBoundFrom(Run(Boot(names), e, inputs), e, ts);
  }

  // ---------- The actions of the device sweeps alone ----------

  lemma {:induction false} WorkLess(d: map<Name, Device>, f: map<Name, Device>, ds: seq<Name>, k: int, u: int)
    requires forall n :: n in ds ==> n in d && n in f && Units(f[n], k, u) <= Units(d[n], k, u)
    ensures Work(f, ds, k, u) <= Work(d, ds, k, u)
  {
    hide Units;
    if ds == [] {
    } else {
      assert ds[0] in ds && forall n :: n in ds[1..] ==> n in ds;
      WorkLess(d, f, ds[1..], k, u);
    }
  }

  /** A client's departure leaves the device sweeps no more to do than there was, whatever link_down
      returns. */
  lemma DisconnectLess(s: State, e: Env, now: int, a: Addr, n: Name, ds: seq<Name>)
    requires Forceful(e) && Counted(s, e) && Known(s, n) && Present(s, a) && forall m :: m in ds ==> Known(s, m)
    ensures forall m :: m in ds ==> Known(s, m) && m in Disconnect(s, e, now, a, n).0.dev
    ensures Work(Disconnect(s, e, now, a, n).0.dev, ds, 0, 1) <= Work(s.dev, ds, 0, 1)
  {
    var t := Disconnect(s, e, now, a, n).0;
    DisconnectUnits(s, e, now, a, n);
    forall m | m in ds ensures m in s.dev && m in t.dev && Units(t.dev[m], 0, 1) <= Units(s.dev[m], 0, 1) {
      assert Known(s, m) && (m != n ==> t.dev[m] == s.dev[m]);
    }
    hide Disconnect, Units;
    WorkLess(s.dev, t.dev, ds, 0, 1);
  }

  lemma DisconnectUnits(s: State, e: Env, now: int, a: Addr, n: Name)
    requires Forceful(e) && Counted(s, e) && Known(s, n) && Present(s, a)
    ensures var t := Disconnect(s, e, now, a, n).0;
      t.dev == s.dev[n := t.dev[n]] && Units(t.dev[n], 0, 1) <= Units(s.dev[n], 0, 1)
  {
    hide Wipe;
    assert e.world(s.ran, LinkForceDown) == Exit(0);
    assert s.dev[n].status == CONNECTING ==> s.dev[n].retries >= -1;
  }

  lemma {:induction false} RemoveFromAllLess(s: State, e: Env, now: int, a: Addr, from: seq<Name>, ds: seq<Name>)
    requires Forceful(e) && Counted(s, e) && Present(s, a)
    requires (forall n :: n in from ==> Known(s, n)) && forall m :: m in ds ==> Known(s, m)
    ensures forall m :: m in ds ==> Known(s, m) && m in RemoveFromAll(s, e, now, a, from).0.dev
    ensures Work(RemoveFromAll(s, e, now, a, from).0.dev, ds, 0, 1) <= Work(s.dev, ds, 0, 1)
    decreases |from|
  {
    hide Disconnect, Counted, Work, Forceful;
    if from == [] {
    } else {
      assert Known(s, from[0]) && forall n :: n in from[1..] ==> Known(s, n);
      DisconnectLess(s, e, now, a, from[0], ds);
      DisconnectCounted(s, e, now, a, from[0]);
      var (s1, rc) := Disconnect(s, e, now, a, from[0]);
      assert forall m :: m in ds ==> Known(s, m) && Known(s1, m);
      if rc.Ok? || rc.errno == ENODEV {
        RemoveFromAllLess(s1, e, now, a, from[1..], ds);
      }
    }
  }

  /** And so does the ageing of clients, also when it is abandoned half way. */
  lemma {:induction false} AgeingLess(s: State, e: Env, now: int, cs: seq<Addr>, ds: seq<Name>)
    requires Forceful(e) && Counted(s, e) && NoDup(cs) && forall a :: a in cs ==> Present(s, a)
    requires (forall n :: n in s.links.devs ==> Known(s, n)) && forall m :: m in ds ==> Known(s, m)
    ensures forall m :: m in ds ==> m in AgeClients(s, e, now, cs).0.dev
    ensures Work(AgeClients(s, e, now, cs).0.dev, ds, 0, 1) <= Work(s.dev, ds, 0, 1)
    decreases |cs|
  {
    hide RemoveFromAll, Counted, Work, Forceful;
    if cs == [] {
      assert forall m :: m in ds ==> Known(s, m);
    } else {
      assert Present(s, cs[0]) && forall a :: a in cs[1..] ==> Present(s, a) && a != cs[0];
      if Silent(s, e, now, cs[0]) {
        RemoveFromAllLess(s, e, now, cs[0], s.links.devs, ds);
        RemoveFromAllCounted(s, e, now, cs[0], s.links.devs);
        var (s1, rc) := RemoveFromAll(s, e, now, cs[0], s.links.devs);
        assert forall m :: m in ds ==> Known(s, m) && Known(s1, m);
        if rc.Ok? {
          ForgetCounted(s1, e, cs[0]);
          AgeingLess(Forget(s1, cs[0]), e, now, cs[1..], ds);
        }
      } else {
        AgeingLess(s, e, now, cs[1..], ds);
      }
    }
  }

  lemma ForgetCounted(s: State, e: Env, a: Addr)
    requires Counted(s, e)
    ensures Counted(Forget(s, a), e)
  {
  }

  /** How many actions on overdue devices the passes at the times `ts` take: each runs one command,
      and a device sweep runs no other. */
  function Actions(s: State, e: Env, ts: seq<int>): int
    requires Safe(s)
    decreases |ts|
  {
    if ts == [] then 0
    else
      AgeClientsKeeps(s, e, ts[0], s.links.clis);
      var t := Tick(s, e, ts[0]);
      t.ran - AgeClients(s, e, ts[0], s.links.clis).0.ran + Actions(t, e, ts[1..])
  }

  /** One tick. */
  lemma TickActs(s: State, e: Env, now: int)
    requires Forceful(e) && Sound(s, e)
    ensures forall n :: n in s.links.devs ==> n in s.dev
    ensures var (t, s1) := (Tick(s, e, now), AgeClients(s, e, now, s.links.clis).0);
      && Sound(t, e) && t.links.devs == s.links.devs
      && (forall n :: n in t.links.devs ==> n in t.dev)
      && t.ran - s1.ran + Work(t.dev, t.links.devs, 0, 1) <= Work(s.dev, s.links.devs, 0, 1)
  {
    NoDups(s);
    TickSound(s, e, now);
    AgeClientsKeeps(s, e, now, s.links.clis);
    AgeClientsCounted(s, e, now, s.links.clis);
    assert forall n :: n in s.links.devs ==> Known(s, n);
    AgeingLess(s, e, now, s.links.clis, s.links.devs);
    var s1 := AgeClients(s, e, now, s.links.clis).0;
    hide AgeClients, Consistent, Linked, Counted, Work, Forceful;
    NoDups(s1);
    SweepSpends(s1, e, now, s1.links.devs, 0, 1);
  }

  lemma {:induction false} ActionsSpend(s: State, e: Env, ts: seq<int>)
    requires Forceful(e) && Sound(s, e)
    ensures forall n :: n in s.links.devs ==> n in s.dev
    ensures Actions(s, e, ts) <= Work(s.dev, s.links.devs, 0, 1)
    decreases |ts|
  {
    hide Consistent, Linked, Counted, Work, AgeClients, Tick;
    if ts == [] {
      WorkRange(s, e, 0, 1);
    } else {
      TickActs(s, e, ts[0]);
      ActionsSpend(Tick(s, e, ts[0]), e, ts[1..]);
    }
  }

  /** Left without messages, the device sweeps act at most (g_retries + 1) times on each device, as
      long as link_force_down exits 0: however often link_up or link_down return -1, and whoever is
      aged out meanwhile. */
  lemma ActionsBound(names: seq<Name>, e: Env, inputs: seq<Input>, ts: seq<int>)
    requires Forceful(e)
    ensures var s := Run(Boot(names), e, inputs);
      Actions(s, e, ts) <= (e.retries + 1) * |s.links.devs|
  {
    BootSound(names, e);
    RunSound(Boot(names), e, inputs);
    ActionsBoundFrom(Run(Boot(names), e, inputs), e, ts);
  }

  lemma ActionsBoundFrom(s: State, e: Env, ts: seq<int>)
    requires Forceful(e) && Sound(s, e)
    ensures Actions(s, e, ts) <= (e.retries + 1) * |s.links.devs|
  {
    hide Consistent, Linked, Counted, Work, Actions;
    ActionsSpend(s, e, ts);
    WorkRange(s, e, 0, 1);
  }
}
