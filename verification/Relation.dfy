/** On well-behaved runs the server keeps one relation "client wants device": what each message
    and each sweep does to it, and that both families of lists always agree on it. */
module Relation {
  import opened Collections
  import opened Manager
  import opened Safety
  import opened MainLoop
  import opened WellBehaved
  import opened Filtering
  import opened Ageing

  /** The client `a` wants the device `n`. */
  ghost predicate Pair(s: State, a: Addr, n: Name) {
    n in s.links.users && a in s.links.users[n]
  }

  // ---------- Device sweeps ----------

  /** What a device sweep did to one device: it was passed by, given another attempt, or taken
      DOWN because its attempts or its time to disconnect had run out. */
  ghost predicate Swept(d: Device, u: seq<Addr>, f: Device, v: seq<Addr>, overdue: bool, now: int) {
    if !overdue then f == d && v == u
    else if d.status == CONNECTING && d.retries >= 0 then
      v == u && f.status == CONNECTING && f.retries == d.retries - 1 && (f.since == d.since || f.since == now)
    else f.status == DOWN && f.since == d.since && v == []
  }

  ghost predicate SweptAt(s: State, t: State, e: Env, now: int, n: Name)
    requires Known(s, n) && Known(t, n)
  {
    Swept(s.dev[n], s.links.users[n], t.dev[n], t.links.users[n], Overdue(s, e, now, n), now)
  }

  lemma OverdueEffect(s: State, e: Env, now: int, n: Name)
    requires WellBehavedEnv(e) && Good(s, e) && n in s.dev && Overdue(s, e, now, n)
    ensures var (t, rc) := Alter(s, e, now, n, s.dev[n].status);
      && Safe(t) && Mirror(t.links) && SweptAt(s, t, e, now, n)
      && t.dev == s.dev[n := t.dev[n]]
      && (rc.Err? ==> s.dev[n].status == CONNECTING && s.dev[n].retries >= 0)
      && (t.links == s.links || t.links == Wipe(s.links, n))
      && t.ran == s.ran + 1
  {
    hide Consistent, Linked, Mirror, Counted;
    AlterKeeps(s, e, now, n, s.dev[n].status);
    WipeMirror(s.links, n);
    if s.dev[n].status == CONNECTING {
      if s.dev[n].retries >= 0 {
        AttemptEffect(s, e, now, n);
      } else {
        ToDownEffect(SetRetries(s, n, s.dev[n].retries - 1), e, n);
      }
    } else {
      ToDisconnectingEffect(s, e, now, n);
      assert Matched(s.dev[n].status, s.links.users[n]);
    }
  }

  lemma OverdueGood(s: State, e: Env, now: int, n: Name)
    requires WellBehavedEnv(e) && Good(s, e) && n in s.dev && Overdue(s, e, now, n)
    ensures var t := Alter(s, e, now, n, s.dev[n].status).0;
      && Good(t, e) && SweptAt(s, t, e, now, n) && t.dev == s.dev[n := t.dev[n]]
      && (forall m :: m in s.dev && m != n ==> t.links.users[m] == s.links.users[m])
      && (s.dev[n].status != CONNECTING ==> Alter(s, e, now, n, s.dev[n].status).1.Ok?)
  {
    var t := Alter(s, e, now, n, s.dev[n].status).0;
    OverdueEffect(s, e, now, n);
    assert Matched(s.dev[n].status, s.links.users[n]);
    Rejoin(s, t, e, n);
  }

  lemma {:induction false} SweepGood(s: State, e: Env, now: int, ds: seq<Name>)
    requires WellBehavedEnv(e) && Good(s, e) && (forall n :: n in ds ==> n in s.dev) && NoDup(ds)
    ensures var (t, rc) := SweepDevices(s, e, now, ds);
      && Good(t, e)
      && (forall m :: m in s.dev && m !in ds ==> t.dev[m] == s.dev[m] && t.links.users[m] == s.links.users[m])
      && (forall m :: m in ds ==> SweptAt(s, t, e, now, m)
                                  || (rc.Err? && t.dev[m] == s.dev[m] && t.links.users[m] == s.links.users[m]))
      && ((forall m :: m in ds ==> s.dev[m].status != CONNECTING) ==> rc.Ok?)
    decreases |ds|
  {
    hide Consistent, Linked, Mirror, UsersMatch, Counted, WellBehavedEnv;
    if ds == [] {
    } else {
      assert ds[0] in ds && forall n :: n in ds[1..] ==> n in ds && n != ds[0];
      if Overdue(s, e, now, ds[0]) {
        OverdueGood(s, e, now, ds[0]);
        var (s1, rc) := Alter(s, e, now, ds[0], s.dev[ds[0]].status);
        if rc.Ok? {
          SweepGood(s1, e, now, ds[1..]);
        }
      } else {
        SweepGood(s, e, now, ds[1..]);
      }
    }
  }

  // ---------- Messages ----------

  /** What a request of the client `a`, answered with `rc`, makes of the pair (b, m). */
  ghost predicate PairAfter(s: State, q: Request, a: Addr, rc: Rc, b: Addr, m: Name) {
    match q
    case BringUp(n) => Pair(s, b, m) || (rc.Ok? && b == a && m == n)
    case TakeDown(n) => Pair(s, b, m) && !(b == a && m == n)
    case ForceOff(n) => Pair(s, b, m) && m != n
    case IsDown(n) => Pair(s, b, m) && m != n
    case _ => Pair(s, b, m)
  }

  lemma HearGood(s: State, e: Env, now: int, a: Addr)
    requires Good(s, e)
    ensures Good(Hear(s, now, a), e)
  {
    HearKeeps(s, now, a);
    var t := Hear(s, now, a);
    assert Mirror(t.links);
  }

  lemma DownGood(s: State, e: Env, now: int, n: Name)
    requires WellBehavedEnv(e) && Good(s, e) && n in s.dev
    ensures var (t, rc) := Alter(s, e, now, n, DOWN);
      && rc.Ok? && Good(t, e) && t.links == Wipe(s.links, n) && t.(links := ClearUsers(t.links, n)) == t
      && (forall b, m :: m in s.dev ==> (Pair(t, b, m) <==> Pair(s, b, m) && m != n))
  {
    hide Linked, Mirror, UsersMatch, Counted, WellBehavedEnv, ToDown;
    ToDownGood(s, e, n);
    var l := ToDown(s, e, n).0.links;
    assert l.users[n] == [] && ClearUsers(l, n).users == l.users;
  }

  lemma UpGood(s: State, e: Env, now: int, n: Name)
    requires Good(s, e) && n in s.dev
    ensures var t := Alter(s, e, now, n, UP).0; Good(t, e) && t.links == s.links
  {
    AlterKeeps(s, e, now, n, UP);
    assert Matched(s.dev[n].status, s.links.users[n]);
    Rejoin(s, Alter(s, e, now, n, UP).0, e, n);
  }

  lemma BringUpGood(s: State, e: Env, now: int, a: Addr, n: Name)
    requires WellBehavedEnv(e) && Good(s, e) && a in s.heard && n in s.dev
    ensures var (t, rc) := Connect(s, e, now, a, n);
      && Good(t, e)
      && (rc.Ok? <==> UpAccepted(s, e, n))
      && (forall b, m :: m in s.dev ==> (Pair(t, b, m) <==> PairAfter(s, BringUp(n), a, rc, b, m)))
  {
    ConnectGood(s, e, now, a, n);
    hide Consistent, Linked, Mirror, UsersMatch, Counted, WellBehavedEnv, Connect;
  }

  lemma TakeDownGood(s: State, e: Env, now: int, a: Addr, n: Name)
    requires WellBehavedEnv(e) && Good(s, e) && a in s.heard && n in s.dev
    ensures var (t, rc) := Disconnect(s, e, now, a, n);
      && Good(t, e) && rc.Ok?
      && (forall b, m :: m in s.dev ==> (Pair(t, b, m) <==> PairAfter(s, TakeDown(n), a, rc, b, m)))
  {
    DisconnectGood(s, e, now, a, n);
    DisconnectEffect(s, e, now, a, n);
    assert NoDup(s.links.users[n]);
    hide Consistent, Linked, Mirror, UsersMatch, Counted, WellBehavedEnv, Disconnect;
  }

  lemma WantsPair(s: State, e: Env, a: Addr, n: Name)
    requires Good(s, e) && a in s.heard
    ensures n in s.links.wants[a] <==> Pair(s, a, n)
  {
  }

  /** Every request keeps a good state good, edits just its own pairs, and says so: an UP succeeds
      exactly if the device exists and has users or its link_up does not return -1, a DOWN exactly
      if the pair was there, a FORCE_DOWN exactly if the device exists. */
  lemma ServeGood(s: State, e: Env, now: int, a: Addr, q: Request)
    requires WellBehavedEnv(e) && Good(s, e) && a in s.heard && FromClient(q)
    ensures var (t, rc) := Serve(s, e, now, a, q);
      && Good(t, e)
      && (forall b, m :: m in s.dev ==> (Pair(t, b, m) <==> PairAfter(s, q, a, rc, b, m)))
      && (q.BringUp? ==> (rc.Ok? <==> q.name in s.dev && UpAccepted(s, e, q.name)))
      && (q.TakeDown? ==> (rc.Ok? <==> Pair(s, a, q.name)))
      && (q.ForceOff? ==> (rc.Ok? <==> q.name in s.dev))
  {
    hide Consistent, Linked, Mirror, UsersMatch, Counted, WellBehavedEnv, Connect, Disconnect;
    match q
    case BringUp(n) => if n in s.dev { BringUpGood(s, e, now, a, n); }
    case TakeDown(n) =>
      WantsPair(s, e, a, n);
      if n in s.links.wants[a] { TakeDownGood(s, e, now, a, n); }
    case ForceOff(n) => if n in s.dev { DownGood(s, e, now, n); }
    case _ =>
  }

  /** process_command on any datagram; the sender of a client message is then known. */
  lemma ReceiveGood(s: State, e: Env, now: int, d: Datagram)
    requires WellBehavedEnv(e) && Good(s, e)
    ensures var ((t, rc), q) := (Receive(s, e, now, d), ParseRequest(d.text));
      && Good(t, e)
      && (forall b, m :: m in s.dev ==> (Pair(t, b, m) <==> PairAfter(s, q, d.from, rc, b, m)))
      && t.heard == (if FromClient(q) then s.heard[d.from := now] else s.heard)
      && (q.BringUp? ==> (rc.Ok? <==> q.name in s.dev && UpAccepted(s, e, q.name)))
      && (q.TakeDown? ==> (rc.Ok? <==> Pair(s, d.from, q.name)))
      && (q.ForceOff? || q.IsDown? ==> (rc.Ok? <==> q.name in s.dev))
  {
    hide Consistent, Linked, Mirror, UsersMatch, Counted, WellBehavedEnv, Alter, Serve, ParseRequest;
    var q := ParseRequest(d.text);
    if FromClient(q) {
      HearGood(s, e, now, d.from);
      ServeGood(Hear(s, now, d.from), e, now, d.from, q);
    } else {
      match q
      case IsUp(n) => if n in s.dev { UpGood(s, e, now, n); }
      case IsDown(n) => if n in s.dev { DownGood(s, e, now, n); }
      case _ =>
    }
  }

  // ---------- Sweeps, passes and runs ----------

  /** The sweep over all of g_devices. */
  lemma SweepAllGood(s: State, e: Env, now: int)
    requires WellBehavedEnv(e) && Good(s, e)
    ensures var (t, rc) := SweepDevices(s, e, now, s.links.devs);
      && Good(t, e)
      && (forall m :: m in s.dev ==> SweptAt(s, t, e, now, m)
                                     || (rc.Err? && t.dev[m] == s.dev[m] && t.links.users[m] == s.links.users[m]))
      && ((forall m :: m in s.dev ==> s.dev[m].status != CONNECTING) ==> rc.Ok?)
  {
    NoDups(s);
    hide Consistent, Linked, Mirror, UsersMatch, Counted, WellBehavedEnv, SweepDevices, Swept;
    SweepGood(s, e, now, s.links.devs);
    forall m | m in s.dev ensures m in s.links.devs {
      assert Known(s, m);
    }
  }

  /** A device sweep drops exactly the pairs of the devices it takes DOWN, and it takes a device
      that has users DOWN only when its attempts have run out. */
  lemma SweepPairs(s: State, e: Env, now: int)
    requires WellBehavedEnv(e) && Good(s, e)
    ensures var t := SweepDevices(s, e, now, s.links.devs).0;
      forall b, m :: Pair(s, b, m) || Pair(t, b, m) ==>
        && m in s.dev && Pair(s, b, m)
        && (Pair(t, b, m) <==> t.dev[m].status != DOWN)
        && (t.dev[m].status == DOWN ==> s.dev[m].status == CONNECTING && Overdue(s, e, now, m) && s.dev[m].retries < 0)
  {
    SweepAllGood(s, e, now);
    var t := SweepDevices(s, e, now, s.links.devs).0;
    forall b, m | Pair(s, b, m) || Pair(t, b, m)
      ensures m in s.dev && Pair(s, b, m) && (Pair(t, b, m) <==> t.dev[m].status != DOWN)
      ensures t.dev[m].status == DOWN ==> s.dev[m].status == CONNECTING && Overdue(s, e, now, m) && s.dev[m].retries < 0
    {
      assert m in s.dev;
      hide Consistent, Linked, Mirror, Counted, WellBehavedEnv, SweepDevices;
      assert Matched(s.dev[m].status, s.links.users[m]);
    }
  }

  /** Both sweeps: the silent clients' rows go, and the columns of the devices taken DOWN. */
  lemma TickGood(s: State, e: Env, now: int)
    requires WellBehavedEnv(e) && Good(s, e)
    ensures var (t, gone) := (Tick(s, e, now), SilentOnes(s, e, now));
      && Good(t, e) && t.heard == s.heard - gone
      && (forall b, m :: m in s.dev ==>
           (Pair(t, b, m) <==> Pair(s, b, m) && b !in gone && t.dev[m].status != DOWN))
  {
    AgeingGood(s, e, now);
    var s1 := AgeClients(s, e, now, s.links.clis).0;
    SweepAllGood(s1, e, now);
    SweepPairs(s1, e, now);
    hide Consistent, Linked, Mirror, UsersMatch, Counted, WellBehavedEnv, SweepDevices, AgeClients, EmptiedAt, SweptAt;
    var (t, gone) := (Tick(s, e, now), SilentOnes(s, e, now));
    forall b, m | m in s.dev
      ensures Pair(t, b, m) <==> Pair(s, b, m) && b !in gone && t.dev[m].status != DOWN {
      assert Pair(s1, b, m) <==> Pair(s, b, m) && b !in gone;
    }
  }

  lemma PassGood(s: State, e: Env, i: Input)
    requires WellBehavedEnv(e) && Good(s, e)
    ensures Good(Pass(s, e, i), e)
  {
    hide Consistent, Linked, Mirror, UsersMatch, Counted, WellBehavedEnv, Receive, Tick;
    var s1 := Answered(s, e, i);
    if i.datagram.Some? {
      ReceiveGood(s, e, i.now, i.datagram.value);
    }
    TickGood(s1, e, i.now);
  }

  lemma {:induction false} RunFromGood(s: State, e: Env, inputs: seq<Input>)
    requires WellBehavedEnv(e) && Good(s, e)
    ensures Good(Run(s, e, inputs), e)
    decreases |inputs|
  {
    hide Consistent, Linked, Mirror, UsersMatch, Counted, WellBehavedEnv, Pass;
    if inputs == [] {
    } else {
      PassGood(s, e, inputs[0]);
      RunFromGood(Pass(s, e, inputs[0]), e, inputs[1..]);
    }
  }

  lemma BootGood(names: seq<Name>, e: Env)
    ensures Good(Boot(names), e) && Boot(names).heard == map[]
    ensures forall n :: n in Boot(names).dev ==> Boot(names).dev[n].since == 0
  {
  }

  /** On every well-behaved run the two families of lists say the same, every device is UP or
      CONNECTING exactly if it has users, and the attempt counters stay in bounds. */
  lemma RunGood(names: seq<Name>, e: Env, inputs: seq<Input>)
    requires WellBehavedEnv(e)
    ensures Good(Run(Boot(names), e, inputs), e)
  {
    BootGood(names, e);
    RunFromGood(Boot(names), e, inputs);
  }
}
