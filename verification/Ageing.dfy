/** The ageing of clients when the commands are well-behaved. */
module Ageing {
  import opened Collections
  import opened Manager
  import opened Safety
  import opened WellBehaved
  import opened Filtering
  import opened Emptying

  /** What became of a device whose users `u` became `v`: it is DISCONNECTING if it lost its
      last user, else it is as before. */
  ghost predicate Emptied(u: seq<Addr>, v: seq<Addr>, d: Device, f: Device) {
    if u != [] && v == [] then f.status == DISCONNECTING && f.retries == d.retries else f == d
  }

  ghost predicate EmptiedAt(s: State, t: State, m: Name)
    requires Known(s, m) && Known(t, m)
  {
    Emptied(s.links.users[m], t.links.users[m], s.dev[m], t.dev[m])
  }

  lemma RemoveOneGood(s: State, e: Env, now: int, a: Addr, n: Name)
    requires WellBehavedEnv(e) && Good(s, e) && n in s.dev && a in s.heard
    ensures var (t, rc) := Disconnect(s, e, now, a, n);
      && rc.Ok? && Good(t, e) && EmptiedAt(s, t, n)
      && (forall m :: m in s.dev && m != n ==> t.dev[m] == s.dev[m] && t.links.users[m] == s.links.users[m])
      && (forall b :: b in s.heard && b != a ==> t.links.wants[b] == s.links.wants[b])
  {
    DisconnectGood(s, e, now, a, n);
    DisconnectEffect(s, e, now, a, n);
  }

  lemma {:induction false} RemoveFromAllGood(s: State, e: Env, now: int, a: Addr, ds: seq<Name>)
    requires WellBehavedEnv(e) && Good(s, e) && a in s.heard
    requires (forall n :: n in ds ==> n in s.dev) && NoDup(ds)
    ensures var (t, rc) := RemoveFromAll(s, e, now, a, ds);
      && rc.Ok? && Good(t, e)
      && (forall m :: m in s.dev && m !in ds ==> t.dev[m] == s.dev[m] && t.links.users[m] == s.links.users[m])
      && (forall m :: m in ds ==> EmptiedAt(s, t, m))
      && (forall b :: b in s.heard && b != a ==> t.links.wants[b] == s.links.wants[b])
    decreases |ds|
  {
    hide Consistent, Linked, Mirror, UsersMatch, Counted, WellBehavedEnv, Emptied;
    if ds == [] {
    } else {
      assert ds[0] in ds && forall n :: n in ds[1..] ==> n in ds && n != ds[0];
      RemoveOneGood(s, e, now, a, ds[0]);
      var s1 := Disconnect(s, e, now, a, ds[0]).0;
      RemoveFromAllGood(s1, e, now, a, ds[1..]);
      var t := RemoveFromAll(s, e, now, a, ds).0;
      forall m | m in ds ensures EmptiedAt(s, t, m) {
        if m != ds[0] {
          assert m in ds[1..] && EmptiedAt(s1, t, m);
        }
      }
    }
  }

  lemma ForgetGood(s: State, e: Env, a: Addr)
    requires Good(s, e) && forall n :: n in s.links.users ==> a !in s.links.users[n]
    ensures Good(Forget(s, a), e)
  {
    DropClientKeeps(s.links, a);
    hide Counted, Matched;
    var t := Forget(s, a);
    assert UsersMatch(t);
  }

  lemma AgedGood(s: State, e: Env, now: int, a: Addr)
    requires WellBehavedEnv(e) && Good(s, e) && a in s.heard
    ensures RemoveFromAll(s, e, now, a, s.links.devs).1.Ok?
    ensures var t := Aged(s, e, now, a);
      && Good(t, e) && t.heard == s.heard - {a} && t.dev.Keys == s.dev.Keys
      && (forall m :: m in s.dev ==> EmptiedAt(s, t, m))
      && (forall b :: b in s.heard && b != a ==> t.links.wants[b] == s.links.wants[b])
  {
    NoDups(s);
    hide Consistent, Linked, Mirror, UsersMatch, Counted, WellBehavedEnv, Emptied;
    RemoveFromAllGood(s, e, now, a, s.links.devs);
    RemoveFromAllKeeps(s, e, now, a, s.links.devs);
    var s1 := RemoveFromAll(s, e, now, a, s.links.devs).0;
    assert forall n :: n in s1.links.users ==> Known(s, n) && n in s.links.devs;
    ForgetGood(s1, e, a);
    forall m | m in s.dev ensures EmptiedAt(s, Aged(s, e, now, a), m) {
      assert Known(s, m) && m in s.links.devs;
      assert EmptiedAt(s, s1, m);
    }
  }

  lemma EmptiedSelf(s: State)
    ensures forall m :: Known(s, m) ==> EmptiedAt(s, s, m)
  {
  }

  lemma EmptiedThen(s: State, t: State, r: State, n: Name, a: Addr, gone: set<Addr>)
    requires Known(s, n) && Known(t, n) && Known(r, n)
    requires EmptiedAt(s, t, n) && EmptiedAt(t, r, n)
    requires t.links.users[n] == Without(s.links.users[n], a)
    requires r.links.users[n] == Minus(t.links.users[n], gone)
    ensures EmptiedAt(s, r, n)
  {
  }

  /** One step of the walk: a silent client is aged out, another is passed by. */
  lemma AgeStep(s: State, e: Env, now: int, cs: seq<Addr>)
    requires WellBehavedEnv(e) && Good(s, e) && NoDup(cs) && (forall a :: a in cs ==> a in s.heard) && cs != []
    requires forall n :: n in s.links.devs ==> Known(s, n)
    ensures var t := if Silent(s, e, now, cs[0]) then Aged(s, e, now, cs[0]) else s;
      && Good(t, e) && (forall a :: a in cs[1..] ==> a in t.heard) && NoDup(cs[1..])
      && AgeClients(s, e, now, cs) == AgeClients(t, e, now, cs[1..])
      && t.heard - SilentIn(t, e, now, cs[1..]) == s.heard - SilentIn(s, e, now, cs)
      && (forall n :: n in t.links.devs ==> Known(t, n))
  {
    hide Consistent, Linked, Mirror, UsersMatch, Counted, WellBehavedEnv, EmptiedAt, SilentIn;
    assert cs[0] in cs && forall a :: a in cs[1..] ==> a in cs && a != cs[0];
    if Silent(s, e, now, cs[0]) {
      AgedGood(s, e, now, cs[0]);
      SilentCons(s, Aged(s, e, now, cs[0]), e, now, cs);
    } else {
      SilentSkip(s, e, now, cs);
    }
  }

  lemma {:induction false} AgeClientsGood(s: State, e: Env, now: int, cs: seq<Addr>)
    requires WellBehavedEnv(e) && Good(s, e) && NoDup(cs) && forall a :: a in cs ==> a in s.heard
    ensures AgeClients(s, e, now, cs).1.Ok?
    ensures Good(AgeClients(s, e, now, cs).0, e)
    ensures AgeClients(s, e, now, cs).0.heard == s.heard - SilentIn(s, e, now, cs)
    decreases |cs|
  {
    NoDups(s);
    if cs == [] {
      assert SilentIn(s, e, now, cs) == {};
    } else {
      hide Consistent, Linked, Mirror, UsersMatch, Counted, WellBehavedEnv, AgeClients, Aged, SilentIn;
      assert cs[0] in cs;
      AgeStep(s, e, now, cs);
      AgeClientsGood(if Silent(s, e, now, cs[0]) then Aged(s, e, now, cs[0]) else s, e, now, cs[1..]);
    }
  }

  /** The survivors' lists are untouched. */
  lemma {:induction false} AgeClientsWants(s: State, e: Env, now: int, cs: seq<Addr>, b: Addr)
    requires WellBehavedEnv(e) && Good(s, e) && NoDup(cs) && forall a :: a in cs ==> a in s.heard
    requires b in s.heard && b !in SilentIn(s, e, now, cs)
    ensures var t := AgeClients(s, e, now, cs).0;
      b in t.links.wants && t.links.wants[b] == s.links.wants[b]
    decreases |cs|
  {
    NoDups(s);
    if cs == [] {
    } else {
      hide Consistent, Linked, Mirror, UsersMatch, Counted, WellBehavedEnv, EmptiedAt, SilentIn;
      assert cs[0] in cs && forall a :: a in cs[1..] ==> a in cs && a != cs[0];
      if Silent(s, e, now, cs[0]) {
        AgedGood(s, e, now, cs[0]);
        SilentCons(s, Aged(s, e, now, cs[0]), e, now, cs);
        AgeClientsWants(Aged(s, e, now, cs[0]), e, now, cs[1..], b);
      } else {
        SilentSkip(s, e, now, cs);
        AgeClientsWants(s, e, now, cs[1..], b);
      }
    }
  }

  lemma {:induction false} AgeClientsEmptied(s: State, e: Env, now: int, cs: seq<Addr>)
    requires WellBehavedEnv(e) && Good(s, e) && NoDup(cs) && forall a :: a in cs ==> a in s.heard
    ensures forall m :: m in s.dev ==> EmptiedAt(s, AgeClients(s, e, now, cs).0, m)
    decreases |cs|
  {
    NoDups(s);
    AgeClientsGood(s, e, now, cs);
    hide Consistent, Linked, Mirror, UsersMatch, Counted, WellBehavedEnv, EmptiedAt, Without, Minus;
    if cs == [] {
      EmptiedSelf(s);
    } else {
      assert cs[0] in cs && forall a :: a in cs[1..] ==> a in cs && a != cs[0];
      if Silent(s, e, now, cs[0]) {
        AgedGood(s, e, now, cs[0]);
        AgedUsers(s, e, now, cs[0]);
        var s1 := Aged(s, e, now, cs[0]);
        AgeClientsEmptied(s1, e, now, cs[1..]);
        AgeUsers(s1, e, now, cs[1..]);
        var t := AgeClients(s, e, now, cs).0;
        forall m | m in s.dev ensures EmptiedAt(s, t, m) {
          EmptiedThen(s, s1, t, m, cs[0], SilentIn(s1, e, now, cs[1..]));
        }
      } else {
        AgeClientsEmptied(s, e, now, cs[1..]);
      }
    }
  }

  /** With well-behaved commands timeout_old_clients succeeds, drops exactly the silent clients
      and leaves the others' lists as they were; exactly the devices that lost their last user
      became DISCONNECTING. */
  lemma AgeingGood(s: State, e: Env, now: int)
    requires WellBehavedEnv(e) && Good(s, e)
    ensures var ((t, rc), gone) := (AgeClients(s, e, now, s.links.clis), SilentOnes(s, e, now));
      && rc.Ok? && Good(t, e)
      && t.heard == s.heard - gone && t.links.wants == s.links.wants - gone
      && t.links.clis == Minus(s.links.clis, gone)
      && (forall n :: n in s.dev ==> t.links.users[n] == Minus(s.links.users[n], gone))
      && (forall n :: n in s.dev ==> EmptiedAt(s, t, n))
      && s.log <= t.log
      && (forall n :: n in s.dev && s.links.users[n] != [] && t.links.users[n] == [] ==>
            t.dev[n].since == if Stopped(t.log, |s.log|, n) then now else s.dev[n].since)
  {
    AgeingGoodLists(s, e, now);
    AgeingLog(s, e, now);
    hide Consistent, Linked, Mirror, Counted, WellBehavedEnv, Minus, AgeClients, SilentOnes, Stopped, Swallowed,
         Untouched;
    var t := AgeClients(s, e, now, s.links.clis).0;
    forall n | n in s.dev && s.links.users[n] != [] && t.links.users[n] == []
      ensures t.dev[n].since == if Stopped(t.log, |s.log|, n) then now else s.dev[n].since
    {
      AgeingExact(s, e, now, n);
      assert Matched(s.dev[n].status, s.links.users[n]) && EmptiedAt(s, t, n);
    }
  }

  lemma AgeingGoodLists(s: State, e: Env, now: int)
    requires WellBehavedEnv(e) && Good(s, e)
    ensures var ((t, rc), gone) := (AgeClients(s, e, now, s.links.clis), SilentOnes(s, e, now));
      && rc.Ok? && Good(t, e)
      && t.heard == s.heard - gone && t.links.wants == s.links.wants - gone
      && t.links.clis == Minus(s.links.clis, gone)
      && (forall n :: n in s.dev ==> t.links.users[n] == Minus(s.links.users[n], gone))
      && (forall n :: n in s.dev ==> EmptiedAt(s, t, n))
  {
    hide Linked, Mirror, UsersMatch, Counted, WellBehavedEnv, EmptiedAt, Minus, NoDup, AgeClients;
    AgeClientsGood(s, e, now, s.links.clis);
    AgeClientsEmptied(s, e, now, s.links.clis);
    AgeingFilters(s, e, now);
    SilentAll(s, e, now);
    var (t, gone) := (AgeClients(s, e, now, s.links.clis).0, SilentOnes(s, e, now));
    forall b | b in s.heard && b !in gone ensures b in t.links.wants && t.links.wants[b] == s.links.wants[b] {
      AgeClientsWants(s, e, now, s.links.clis, b);
    }
    hide Consistent, SilentOnes;
    assert t.links.wants.Keys == t.heard.Keys;
  }
}
