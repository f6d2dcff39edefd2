/** When no more messages come: the server drains, within a bound. */
module Timing {
  import opened Collections
  import opened Manager
  import opened Safety
  import opened MainLoop
  import opened WellBehaved
  import opened Filtering
  import opened Ageing
  import opened Relation
  import opened Trace

  /** Nobody is connected and nothing is up. */
  ghost predicate Drained(s: State) {
    s.links.clis == [] && s.heard == map[] && forall n :: n in s.dev ==> s.dev[n].status == DOWN
  }

  /** A stretch of the main loop in which select only times out. */
  function Silence(ts: seq<int>): (r: seq<Input>)
    ensures |r| == |ts|
    ensures forall i :: 0 <= i < |ts| ==> r[i] == Input(ts[i], None)
  {
    if ts == [] then [] else [Input(ts[0], None)] + Silence(ts[1..])
  }

  /** Successive passes of the main loop, at most `G` apart. */
  predicate Spaced(ts: seq<int>, G: int) {
    forall i :: 0 <= i < |ts| - 1 ==> ts[i] <= ts[i + 1] <= ts[i] + G
  }

  // ---------- Clocks ----------

  lemma AlterStamps(s: State, e: Env, now: int, n: Name, to: Status, T: int)
    requires Known(s, n) && now <= T && forall m :: m in s.dev ==> s.dev[m].since <= T
    ensures forall m :: m in s.dev ==> Alter(s, e, now, n, to).0.dev[m].since <= T
  {
    hide Wipe, ToConnecting;
    ConnectingStamps(s, e, now, n, T);
  }

  lemma ConnectingStamps(s: State, e: Env, now: int, n: Name, T: int)
    requires Known(s, n) && now <= T && forall m :: m in s.dev ==> s.dev[m].since <= T
    ensures forall m :: m in s.dev ==> ToConnecting(s, e, now, n).0.dev[m].since <= T
  {
    hide Attempt;
    var s1 := if s.dev[n].status == DISCONNECTING then ForceDown(s, e, n).0 else s;
    AttemptStamps(s, e, now, n, T);
    AttemptStamps(SetRetries(s1, n, e.retries), e, now, n, T);
  }

  lemma AttemptStamps(s: State, e: Env, now: int, n: Name, T: int)
    requires Known(s, n) && now <= T && forall m :: m in s.dev ==> s.dev[m].since <= T
    ensures forall m :: m in s.dev ==> Attempt(s, e, now, n).0.dev[m].since <= T
  {
    hide Wipe;
  }

  lemma RunStamps(s: State, e: Env, inputs: seq<Input>, T: int)
    requires Safe(s) && forall n :: n in s.dev ==> s.dev[n].since <= T
    requires forall i :: i in inputs ==> i.now <= T
    ensures forall n :: n in s.dev ==> Run(s, e, inputs).dev[n].since <= T
  {
    var P := (t: State) => forall n :: n in t.dev ==> t.dev[n].since <= T;
    var times := set i | i in inputs :: i.now;
    forall t, now, n, to | now in times && P(t) && Known(t, n) ensures P(Alter(t, e, now, n, to).0) {
      AlterStamps(t, e, now, n, to, T);
    }
    RunClosed(P, times, s, e, inputs);
  }

  lemma {:induction false} RunHeard(s: State, e: Env, inputs: seq<Input>, T: int)
    requires WellBehavedEnv(e) && Good(s, e) && forall a :: a in s.heard ==> s.heard[a] <= T
    requires forall i :: i in inputs ==> i.now <= T
    ensures forall a :: a in Run(s, e, inputs).heard ==> Run(s, e, inputs).heard[a] <= T
    decreases |inputs|
  {
    hide Consistent, Linked, Mirror, UsersMatch, Counted, WellBehavedEnv, Tick, Receive, SilentOnes;
    if inputs == [] {
    } else {
      var i := inputs[0];
      assert i in inputs && forall j :: j in inputs[1..] ==> j in inputs;
      var s1 := if i.datagram.Some? then Receive(s, e, i.now, i.datagram.value).0 else s;
      if i.datagram.Some? {
        ReceiveGood(s, e, i.now, i.datagram.value);
      }
      TickGood(s1, e, i.now);
      RunHeard(Pass(s, e, i), e, inputs[1..], T);
    }
  }

  // ---------- Draining ----------

  lemma GoodKeys(s: State, e: Env)
    requires Good(s, e)
    ensures s.links.clis == [] <==> s.heard == map[]
    ensures s.links.clis == [] ==> forall n :: n in s.dev ==> s.links.users[n] == []
    ensures forall a :: a in s.heard <==> a in s.links.clis
  {
    if s.links.clis == [] {
      assert forall a :: a !in s.links.wants;
      assert s.links.wants == map[];
      forall n | n in s.dev ensures s.links.users[n] == [] {
        assert forall a :: a in s.links.users[n] ==> a in s.links.wants;
        if s.links.users[n] != [] { SomeElement(s.links.users[n]); }
      }
    } else {
      var a := s.links.clis[0];
      assert a in s.links.clis && a in s.links.wants;
    }
  }

  lemma SomeElement(s: seq<Addr>)
    requires s != []
    ensures exists a :: a in s
  {
    var a := s[0];
    assert a in s;
  }

  /** Without clients, a tick only takes the overdue DISCONNECTING devices DOWN. */
  lemma EmptyTick(s: State, e: Env, now: int)
    requires WellBehavedEnv(e) && Good(s, e) && s.links.clis == []
    ensures var t := Tick(s, e, now);
      && Good(t, e) && t.links.clis == []
      && forall n :: n in s.dev ==>
           && t.dev[n].since == s.dev[n].since && s.dev[n].status in {DOWN, DISCONNECTING}
           && t.dev[n].status == if Overdue(s, e, now, n) then DOWN else s.dev[n].status
  {
    GoodKeys(s, e);
    forall n | n in s.dev ensures s.dev[n].status in {DOWN, DISCONNECTING} {
      assert Matched(s.dev[n].status, s.links.users[n]);
    }
    SweepAllGood(s, e, now);
    hide Consistent, Linked, Mirror, UsersMatch, Counted, WellBehavedEnv, SweepDevices;
    var t := Tick(s, e, now);
    forall n | n in s.dev
      ensures t.dev[n].since == s.dev[n].since
      ensures t.dev[n].status == if Overdue(s, e, now, n) then DOWN else s.dev[n].status
    {
      assert SweptAt(s, t, e, now, n);
    }
  }

  lemma {:induction false} DrainDevices(s: State, e: Env, U: int, ts: seq<int>)
    requires WellBehavedEnv(e) && Good(s, e) && s.links.clis == []
    requires forall n :: n in s.dev ==> s.dev[n].since <= U
    requires ts != [] && ts[|ts| - 1] > U + e.disconnectTimeout
    ensures Drained(Run(s, e, Silence(ts)))
    decreases |ts|
  {
    hide Consistent, Linked, Mirror, UsersMatch, Counted, WellBehavedEnv, Tick;
    EmptyTick(s, e, ts[0]);
    var t := Tick(s, e, ts[0]);
    GoodKeys(t, e);
    assert Silence(ts)[1..] == Silence(ts[1..]) && t == Pass(s, e, Silence(ts)[0]);
    if |ts| == 1 {
      assert Run(t, e, []) == t;
    } else {
      DrainDevices(t, e, U, ts[1..]);
    }
  }

  /** The first tick behind T + g_client_timeout removes every client that was last heard by T. */
  lemma {:induction false} DrainClients(s: State, e: Env, T: int, G: int, ts: seq<int>)
    requires WellBehavedEnv(e) && Good(s, e) && e.disconnectTimeout >= 0
    requires ts != [] && Spaced(ts, G) && ts[0] <= T + e.clientTimeout + G
    requires forall a :: a in s.heard ==> s.heard[a] <= T
    requires forall n :: n in s.dev ==> s.dev[n].since <= ts[0]
    requires ts[|ts| - 1] > T + e.clientTimeout + e.disconnectTimeout + G
    ensures Drained(Run(s, e, Silence(ts)))
    decreases |ts|
  {
    hide Consistent, Linked, Mirror, UsersMatch, Counted, WellBehavedEnv, Tick, Pass, Run;
    var (now, later) := (ts[0], ts[1..]);
    var t := Pass(s, e, Input(now, None));
    TickStep(s, e, now);
    assert Silence(ts) == [Input(now, None)] + Silence(later);
    RunCons(s, e, Input(now, None), Silence(later));
    assert |ts| > 1 && Spaced(later, G) && ts[0] <= ts[1];
    if now > T + e.clientTimeout {
      DrainDevices(t, e, now, later);
    } else {
      DrainClients(t, e, T, G, later);
    }
  }

  lemma RunCons(s: State, e: Env, i: Input, more: seq<Input>)
    requires Safe(s)
    ensures Run(s, e, [i] + more) == Run(Pass(s, e, i), e, more)
  {
    assert ([i] + more)[1..] == more;
  }

  lemma TickStamps(s: State, e: Env, now: int)
    requires Safe(s) && forall n :: n in s.dev ==> s.dev[n].since <= now
    ensures var t := Pass(s, e, Input(now, None));
      t.dev.Keys == s.dev.Keys && forall n :: n in t.dev ==> t.dev[n].since <= now
  {
    hide Consistent, Linked, Tick, Pass;
    RunStamps(s, e, [Input(now, None)], now);
    RunCons(s, e, Input(now, None), []);
    assert [Input(now, None)] + [] == [Input(now, None)];
    assert Run(Pass(s, e, Input(now, None)), e, []) == Pass(s, e, Input(now, None));
  }

  /** One silent pass: clocks stay at or below its time, nobody is heard, and all clients go
      once all of them have been silent for too long. */
  lemma TickStep(s: State, e: Env, now: int)
    requires WellBehavedEnv(e) && Good(s, e) && forall n :: n in s.dev ==> s.dev[n].since <= now
    ensures var t := Pass(s, e, Input(now, None));
      && Good(t, e) && t.dev.Keys == s.dev.Keys
      && (forall n :: n in t.dev ==> t.dev[n].since <= now)
      && (forall a :: a in t.heard ==> a in s.heard && t.heard[a] == s.heard[a])
      && ((forall a :: a in s.heard ==> now > s.heard[a] + e.clientTimeout) ==> t.links.clis == [])
  {
    TickGood(s, e, now);
    TickStamps(s, e, now);
    var t := Pass(s, e, Input(now, None));
    GoodKeys(t, e);
    hide Consistent, Linked, Mirror, UsersMatch, Counted, WellBehavedEnv, Tick, Pair;
    if forall a :: a in s.heard ==> now > s.heard[a] + e.clientTimeout {
      assert t.heard == map[];
    }
  }

  /** On a well-behaved run, if no message arrives after `T` and the passes of the main loop are
      at most `G` apart, then by T + g_client_timeout + g_disconnect_timeout + 2G there are no
      clients and every device is DOWN: `ts` are the passes up to that moment, so the last of
      them is less than `G` before it. */
  lemma SilenceDrains(names: seq<Name>, e: Env, inputs: seq<Input>, T: int, G: int, ts: seq<int>)
    requires WellBehavedEnv(e) && e.clientTimeout >= 0 && e.disconnectTimeout >= 0
    requires 0 <= T && forall i :: i in inputs ==> i.now <= T
    requires ts != [] && T <= ts[0] <= T + G && Spaced(ts, G)
    requires ts[|ts| - 1] > T + e.clientTimeout + e.disconnectTimeout + G
    ensures Drained(Run(Run(Boot(names), e, inputs), e, Silence(ts)))
  {
    BootGood(names, e);
    hide Consistent, Linked, Mirror, UsersMatch, Counted, WellBehavedEnv, Boot, Run;
    RunFromGood(Boot(names), e, inputs);
    RunStamps(Boot(names), e, inputs, T);
    RunHeard(Boot(names), e, inputs, T);
    DrainClients(Run(Boot(names), e, inputs), e, T, G, ts);
  }
}
