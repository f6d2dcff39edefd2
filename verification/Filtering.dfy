/** timeout_old_clients unlinks clients while it walks g_clients; it amounts to a filter. */
module Filtering {
  import opened Collections
  import opened Manager
  import opened Safety

  /** The clients that have been silent for longer than g_client_timeout. */
  ghost function SilentOnes(s: State, e: Env, now: int): set<Addr> {
    set a | a in s.heard && Silent(s, e, now, a)
  }

  ghost function SilentIn(s: State, e: Env, now: int, cs: seq<Addr>): set<Addr> {
    set a | a in cs && a in s.heard && Silent(s, e, now, a)
  }

  /** Whatever it returns, a disconnection takes just the client out of just that list. */
  lemma DisconnectUsers(s: State, e: Env, now: int, a: Addr, n: Name)
    requires Safe(s) && n in s.dev && a in s.heard
    ensures var t := Disconnect(s, e, now, a, n).0;
      t.links.users == s.links.users[n := Without(s.links.users[n], a)]
  {
    var s1 := s.(links := DropUser(s.links, a, n));
    DropUserKeeps(s.links, a, n);
    if a in s.links.users[n] && s1.links.users[n] == [] {
      AlterLinks(s1, e, now, n, DISCONNECTING);
    }
  }

  lemma {:induction false} RemoveFromAllUsers(s: State, e: Env, now: int, a: Addr, ds: seq<Name>)
    requires Safe(s) && a in s.heard && (forall n :: n in ds ==> n in s.dev) && NoDup(ds)
    requires RemoveFromAll(s, e, now, a, ds).1.Ok?
    ensures var t := RemoveFromAll(s, e, now, a, ds).0;
      forall m :: m in s.dev ==>
        t.links.users[m] == if m in ds then Without(s.links.users[m], a) else s.links.users[m]
    decreases |ds|
  {
    hide Consistent, Linked;
    if ds == [] {
    } else {
      assert ds[0] in ds && forall n :: n in ds[1..] ==> n in ds && n != ds[0];
      DisconnectKeeps(s, e, now, a, ds[0]);
      DisconnectUsers(s, e, now, a, ds[0]);
      var s1 := Disconnect(s, e, now, a, ds[0]).0;
      RemoveFromAllUsers(s1, e, now, a, ds[1..]);
      assert forall m :: m in ds <==> m == ds[0] || m in ds[1..];
    }
  }

  /** The state in which timeout_old_clients goes on behind the silent client `a`. */
  function Aged(s: State, e: Env, now: int, a: Addr): State
    requires Present(s, a) && forall n :: n in s.links.devs ==> Known(s, n)
  {
    Forget(RemoveFromAll(s, e, now, a, s.links.devs).0, a)
  }

  lemma AgedUsers(s: State, e: Env, now: int, a: Addr)
    requires Safe(s) && a in s.heard && RemoveFromAll(s, e, now, a, s.links.devs).1.Ok?
    ensures var t := Aged(s, e, now, a);
      && Safe(t) && t.links.clis == Without(s.links.clis, a) && t.dev.Keys == s.dev.Keys
      && t.heard == s.heard - {a}
      && (forall m :: m in s.dev ==> t.links.users[m] == Without(s.links.users[m], a))
  {
    RemoveFromAllKeeps(s, e, now, a, s.links.devs);
    RemoveFromAllUsers(s, e, now, a, s.links.devs);
    DropClientKeeps(RemoveFromAll(s, e, now, a, s.links.devs).0.links, a);
  }

  lemma NoDups(s: State)
    requires Safe(s)
    ensures NoDup(s.links.devs) && NoDup(s.links.clis)
    ensures forall m :: m in s.dev ==> NoDup(s.links.users[m])
    ensures forall m :: m in s.links.devs <==> Known(s, m)
    ensures forall a :: a in s.links.clis <==> Present(s, a)
  {
  }

  lemma SilentCons(s: State, t: State, e: Env, now: int, cs: seq<Addr>)
    requires cs != [] && NoDup(cs) && cs[0] in s.heard && Silent(s, e, now, cs[0])
    requires t.heard == s.heard - {cs[0]}
    ensures SilentIn(s, e, now, cs) == SilentIn(t, e, now, cs[1..]) + {cs[0]}
  {
    assert forall a :: a in cs <==> a == cs[0] || a in cs[1..];
  }

  lemma SilentSkip(s: State, e: Env, now: int, cs: seq<Addr>)
    requires cs != [] && cs[0] in s.heard && !Silent(s, e, now, cs[0])
    ensures SilentIn(s, e, now, cs) == SilentIn(s, e, now, cs[1..])
  {
    assert forall a :: a in cs <==> a == cs[0] || a in cs[1..];
  }

  lemma {:induction false} AgeUsers(s: State, e: Env, now: int, cs: seq<Addr>)
    requires Safe(s) && NoDup(cs) && forall a :: a in cs ==> a in s.heard
    requires AgeClients(s, e, now, cs).1.Ok?
    ensures var (t, gone) := (AgeClients(s, e, now, cs).0, SilentIn(s, e, now, cs));
      && t.links.clis == Minus(s.links.clis, gone)
      && (forall m :: m in s.dev ==> t.links.users[m] == Minus(s.links.users[m], gone))
    decreases |cs|
  {
    NoDups(s);
    hide Consistent, Linked;
    var gone := SilentIn(s, e, now, cs);
    if cs == [] {
      MinusNone(s.links.clis, gone);
      forall m | m in s.dev ensures Minus(s.links.users[m], gone) == s.links.users[m] {
        MinusNone(s.links.users[m], gone);
      }
    } else {
      assert cs[0] in cs && forall a :: a in cs[1..] ==> a in cs && a != cs[0];
      if Silent(s, e, now, cs[0]) {
        AgedUsers(s, e, now, cs[0]);
        var s1 := Aged(s, e, now, cs[0]);
        AgeUsers(s1, e, now, cs[1..]);
        var rest := SilentIn(s1, e, now, cs[1..]);
        SilentCons(s, s1, e, now, cs);
        MinusWithout(s.links.clis, cs[0], rest);
        forall m | m in s.dev ensures Minus(s1.links.users[m], rest) == Minus(s.links.users[m], gone) {
          MinusWithout(s.links.users[m], cs[0], rest);
        }
      } else {
        SilentSkip(s, e, now, cs);
        AgeUsers(s, e, now, cs[1..]);
      }
    }
  }

  lemma SilentAll(s: State, e: Env, now: int)
    requires Safe(s)
    ensures SilentIn(s, e, now, s.links.clis) == SilentOnes(s, e, now)
  {
  }

  /** Whenever timeout_old_clients succeeds, whatever the commands did: g_clients is the old list,
      in order, without exactly the silent clients, and so is every device's list. */
  lemma AgeingFilters(s: State, e: Env, now: int)
    requires Safe(s) && AgeClients(s, e, now, s.links.clis).1.Ok?
    ensures var (t, gone) := (AgeClients(s, e, now, s.links.clis).0, SilentOnes(s, e, now));
      && t.links.clis == Minus(s.links.clis, gone)
      && (forall a :: a in s.links.clis ==> a in s.heard && (a in gone <==> now > s.heard[a] + e.clientTimeout))
      && (forall n :: n in s.dev ==> t.links.users[n] == Minus(s.links.users[n], gone))
  {
    AgeUsers(s, e, now, s.links.clis);
    SilentAll(s, e, now);
  }
}
