/** What a successful ageing of clients does to the devices that it empties, whatever the commands do:
    remove_client_from_all_devices swallows ENODEV, also when it comes from a command. */
module Emptying {
  import opened Collections
  import opened Manager
  import opened Safety
  import opened Filtering

  /** The event is a command of the device whose failure is swallowed. */
  predicate Ignored(ev: Event, n: Name) {
    ev.Ran? && ev.name == n && ev.reply == Failed(ENODEV)
  }

  /** From position `from` on, the log has such a command. */
  ghost predicate Swallowed(log: seq<Event>, from: nat, n: Name) {
    exists i :: from <= i < |log| && Ignored(log[i], n)
  }

  /** From position `from` on, the log has a link_down of the device that exited 0. */
  ghost predicate Stopped(log: seq<Event>, from: nat, n: Name) {
    exists i :: from <= i < |log| && log[i] == Ran(LinkDown, n, Exit(0))
  }

  /** From position `from` on, no command of the device has run. */
  ghost predicate Untouched(log: seq<Event>, from: nat, n: Name) {
    forall i :: from <= i < |log| ==> !(log[i].Ran? && log[i].name == n)
  }

  /** What became of a device: if it lost its last user, it was not DOWN, and the status change was
      made unless its command failed with ENODEV; else nothing happened to it. */
  ghost predicate Left(s: State, t: State, now: int, n: Name)
    requires Known(s, n) && Known(t, n)
  {
    var (d, f, u, v) := (s.dev[n], t.dev[n], s.links.users[n], t.links.users[n]);
    && s.log <= t.log
    && (u == [] ==> v == [])
    && if u != [] && v == [] then
         && d.status != DOWN
         && if Swallowed(t.log, |s.log|, n) then f == d
            else
              && f.status == (if d.status == DISCONNECTING then DOWN else DISCONNECTING)
              && f.retries == d.retries && f.since == if Stopped(t.log, |s.log|, n) then now else d.since
       else f == d && Untouched(t.log, |s.log|, n)
  }

  lemma LeftSame(s: State, t: State, now: int, n: Name)
    requires Known(s, n) && Known(t, n) && t.dev[n] == s.dev[n] && t.log == s.log
    requires t.links.users[n] == s.links.users[n] || (s.links.users[n] != [] && t.links.users[n] != [])
    ensures Left(s, t, now, n)
  {
  }

  lemma LeftThen(s: State, t: State, r: State, now: int, n: Name)
    requires Known(s, n) && Known(t, n) && Known(r, n) && Left(s, t, now, n) && Left(t, r, now, n)
    ensures Left(s, r, now, n)
  {
    if s.links.users[n] != [] && t.links.users[n] == [] {
      SwallowedMore(s.log, t.log, r.log, n);
    } else {
      SwallowedLater(s.log, t.log, r.log, n);
    }
  }

  lemma SwallowedMore(a: seq<Event>, b: seq<Event>, c: seq<Event>, n: Name)
    requires a <= b <= c && Untouched(c, |b|, n)
    ensures Swallowed(c, |a|, n) <==> Swallowed(b, |a|, n)
    ensures Stopped(c, |a|, n) <==> Stopped(b, |a|, n)
  {
    if Swallowed(b, |a|, n) {
      var i :| |a| <= i < |b| && Ignored(b[i], n);
      assert c[i] == b[i];
    }
    if Stopped(b, |a|, n) {
      var i :| |a| <= i < |b| && b[i] == Ran(LinkDown, n, Exit(0));
      assert c[i] == b[i];
    }
  }

  lemma SwallowedLater(a: seq<Event>, b: seq<Event>, c: seq<Event>, n: Name)
    requires a <= b <= c && Untouched(b, |a|, n)
    ensures Swallowed(c, |a|, n) <==> Swallowed(c, |b|, n)
    ensures Stopped(c, |a|, n) <==> Stopped(c, |b|, n)
    ensures Untouched(c, |b|, n) ==> Untouched(c, |a|, n)
  {
    forall i | |a| <= i < |b| ensures c[i] == b[i] {
    }
  }

  /** The departure of a device's last user, from alter_device_status on. */
  lemma AlterLeft(s: State, e: Env, now: int, m: Name)
    requires Known(s, m)
    ensures var (t, rc) := Alter(s, e, now, m, DISCONNECTING);
      rc.Ok? || rc.errno == ENODEV ==>
        && s.log <= t.log && s.dev[m].status != DOWN && t.dev == s.dev[m := t.dev[m]]
        && (forall n :: Known(s, n) && n != m ==> Untouched(t.log, |s.log|, n))
        && if Swallowed(t.log, |s.log|, m) then t.dev[m] == s.dev[m]
           else
             && t.dev[m].status == (if s.dev[m].status == DISCONNECTING then DOWN else DISCONNECTING)
             && t.dev[m].retries == s.dev[m].retries
             && t.dev[m].since == if Stopped(t.log, |s.log|, m) then now else s.dev[m].since
  {
    hide Wipe;
    var cmd := if s.dev[m].status == UP then LinkDown else LinkForceDown;
    var (ev, t) := (Ran(cmd, m, e.world(s.ran, cmd)), Alter(s, e, now, m, DISCONNECTING).0);
    if s.dev[m].status != DOWN {
      assert t.log[|s.log|] == ev;
      assert Ignored(ev, m) ==> Swallowed(t.log, |s.log|, m);
      assert ev == Ran(LinkDown, m, Exit(0)) ==> Stopped(t.log, |s.log|, m);
    }
  }

  lemma DisconnectLeft(s: State, e: Env, now: int, a: Addr, m: Name, n: Name)
    requires Known(s, m) && Present(s, a) && Known(s, n)
    ensures var (t, rc) := Disconnect(s, e, now, a, m);
      rc.Ok? || rc.errno == ENODEV ==> Left(s, t, now, n)
  {
    hide Alter, Swallowed, Stopped, Untouched;
    var s1 := s.(links := DropUser(s.links, a, m));
    var (t, rc) := Disconnect(s, e, now, a, m);
    if a in s.links.users[m] && s1.links.users[m] == [] {
      AlterLeft(s1, e, now, m);
      AlterUsers(s1, e, now, m);
    } else {
      LeftSame(s, t, now, n);
    }
  }

  /** The users that a status change leaves: none of the device's if it had none, and the others'. */
  lemma AlterUsers(s: State, e: Env, now: int, m: Name)
    requires Known(s, m) && s.links.users[m] == []
    ensures Alter(s, e, now, m, DISCONNECTING).0.links.users == s.links.users
  {
    assert s.links.users[m := []] == s.links.users;
  }

  lemma {:induction false} RemoveFromAllLeft(s: State, e: Env, now: int, a: Addr, ds: seq<Name>, n: Name)
    requires Present(s, a) && (forall m :: m in ds ==> Known(s, m)) && Known(s, n)
    ensures var (t, rc) := RemoveFromAll(s, e, now, a, ds);
      rc.Ok? ==> Left(s, t, now, n)
    decreases |ds|
  {
    hide Disconnect, Left;
    if ds == [] {
      LeftSame(s, s, now, n);
    } else {
      assert Known(s, ds[0]) && forall m :: m in ds[1..] ==> Known(s, m);
      DisconnectLeft(s, e, now, a, ds[0], n);
      var (s1, rc) := Disconnect(s, e, now, a, ds[0]);
      if RemoveFromAll(s, e, now, a, ds).1.Ok? {
        RemoveFromAllLeft(s1, e, now, a, ds[1..], n);
        LeftThen(s, s1, RemoveFromAll(s, e, now, a, ds).0, now, n);
      }
    }
  }

  lemma {:induction false} AgeClientsLeft(s: State, e: Env, now: int, cs: seq<Addr>, n: Name)
    requires NoDup(cs) && (forall a :: a in cs ==> Present(s, a)) && Known(s, n)
    requires forall m :: m in s.links.devs ==> Known(s, m)
    ensures var (t, rc) := AgeClients(s, e, now, cs);
      rc.Ok? ==> Known(t, n) && Left(s, t, now, n)
    decreases |cs|
  {
    hide RemoveFromAll, Left;
    if cs == [] {
      LeftSame(s, s, now, n);
    } else {
      assert Present(s, cs[0]) && forall a :: a in cs[1..] ==> Present(s, a) && a != cs[0];
      if !Silent(s, e, now, cs[0]) {
        AgeClientsLeft(s, e, now, cs[1..], n);
      } else if AgeClients(s, e, now, cs).1.Ok? {
        RemoveFromAllLeft(s, e, now, cs[0], s.links.devs, n);
        var s1 := RemoveFromAll(s, e, now, cs[0], s.links.devs).0;
        var s2 := Forget(s1, cs[0]);
        LeftSame(s1, s2, now, n);
        LeftThen(s, s1, s2, now, n);
        AgeClientsLeft(s2, e, now, cs[1..], n);
        LeftThen(s, s2, AgeClients(s, e, now, cs).0, now, n);
      }
    }
  }

  /** The log only grows. */
  lemma AgeingLog(s: State, e: Env, now: int)
    requires Safe(s)
    ensures s.log <= AgeClients(s, e, now, s.links.clis).0.log
  {
    NoDups(s);
    hide Consistent, Linked;
    AgeClientsLog(s, e, now, s.links.clis);
  }

  lemma DisconnectingLog(s: State, e: Env, now: int, n: Name)
    requires Known(s, n)
    ensures s.log <= Alter(s, e, now, n, DISCONNECTING).0.log
  {
    hide Wipe;
  }

  lemma DisconnectLog(s: State, e: Env, now: int, a: Addr, n: Name)
    requires Known(s, n) && Present(s, a)
    ensures s.log <= Disconnect(s, e, now, a, n).0.log
  {
    hide Alter;
    DisconnectingLog(s.(links := DropUser(s.links, a, n)), e, now, n);
  }

  lemma {:induction false} RemoveFromAllLog(s: State, e: Env, now: int, a: Addr, ds: seq<Name>)
    requires Present(s, a) && forall n :: n in ds ==> Known(s, n)
    ensures s.log <= RemoveFromAll(s, e, now, a, ds).0.log
    decreases |ds|
  {
    hide Disconnect;
    if ds == [] {
    } else {
      assert Known(s, ds[0]) && forall n :: n in ds[1..] ==> Known(s, n);
      DisconnectLog(s, e, now, a, ds[0]);
      var (s1, rc) := Disconnect(s, e, now, a, ds[0]);
      if rc.Ok? || rc.errno == ENODEV {
        RemoveFromAllLog(s1, e, now, a, ds[1..]);
      }
    }
  }

  lemma {:induction false} AgeClientsLog(s: State, e: Env, now: int, cs: seq<Addr>)
    requires NoDup(cs) && forall a :: a in cs ==> Present(s, a)
    requires forall n :: n in s.links.devs ==> Known(s, n)
    ensures s.log <= AgeClients(s, e, now, cs).0.log
    decreases |cs|
  {
    hide RemoveFromAll;
    if cs == [] {
    } else {
      assert Present(s, cs[0]) && forall a :: a in cs[1..] ==> Present(s, a) && a != cs[0];
      if Silent(s, e, now, cs[0]) {
        RemoveFromAllLog(s, e, now, cs[0], s.links.devs);
        var (s1, rc) := RemoveFromAll(s, e, now, cs[0], s.links.devs);
        if rc.Ok? {
          AgeClientsLog(Forget(s1, cs[0]), e, now, cs[1..]);
        }
      } else {
        AgeClientsLog(s, e, now, cs[1..]);
      }
    }
  }

  /** Whenever timeout_old_clients succeeds, whatever the commands did: a device that lost its last
      user, and that was UP or CONNECTING, is DISCONNECTING if and only if none of its commands
      failed with ENODEV meanwhile, and else it is as it was; its clock restarts if and only if its
      link_down exited 0; a device that did not lose its last user is as it was, and no command of it
      ran. */
  lemma AgeingExact(s: State, e: Env, now: int, n: Name)
    requires Safe(s) && n in s.dev && AgeClients(s, e, now, s.links.clis).1.Ok?
    ensures var t := AgeClients(s, e, now, s.links.clis).0;
      && s.log <= t.log
      && t.links.users[n] == Minus(s.links.users[n], SilentOnes(s, e, now))
      && if s.links.users[n] != [] && t.links.users[n] == [] then
           && s.dev[n].status != DOWN
           && (s.dev[n].status != DISCONNECTING ==>
                (t.dev[n].status == DISCONNECTING <==> !Swallowed(t.log, |s.log|, n)))
           && (s.dev[n].status == DISCONNECTING ==>
                (t.dev[n].status == DOWN <==> !Swallowed(t.log, |s.log|, n)))
           && (if Swallowed(t.log, |s.log|, n) then t.dev[n] == s.dev[n]
               else t.dev[n].since == if Stopped(t.log, |s.log|, n) then now else s.dev[n].since)
         else t.dev[n] == s.dev[n] && Untouched(t.log, |s.log|, n)
  {
    NoDups(s);
    assert Known(s, n);
    hide Consistent, Linked, AgeClients, Swallowed, Stopped, Untouched;
    AgeClientsLeft(s, e, now, s.links.clis, n);
    AgeingFilters(s, e, now);
  }
}
