/** What every operation keeps, whatever the shell commands do. */
module Safety {
  import opened Collections
  import opened Manager

  /** A client in a device's list has that device in its own list. */
  ghost predicate Linked(l: Links) {
    forall n, a :: n in l.users && a in l.users[n] ==> a in l.wants && n in l.wants[a]
  }

  ghost predicate Safe(s: State) {
    WellFormed(s) && Linked(s.links)
  }

  // ---------- Edits of the lists ----------

  lemma WipeKeeps(l: Links, n: Name)
    requires Consistent(l) && Linked(l) && n in l.users
    ensures Consistent(Wipe(l, n)) && Linked(Wipe(l, n))
  {
    var w := Wipe(l, n);
    assert w.users.Keys == l.users.Keys && w.wants.Keys == l.wants.Keys;
    forall m, a | m in w.users && a in w.users[m] ensures a in w.wants && m in w.wants[a] {
      assert m != n && a in l.users[m];
    }
  }

  lemma DropUserKeeps(l: Links, a: Addr, n: Name)
    requires Consistent(l) && Linked(l) && n in l.users
    ensures Consistent(DropUser(l, a, n)) && Linked(DropUser(l, a, n))
  {
  }

  lemma DropWantKeeps(l: Links, a: Addr, n: Name)
    requires Consistent(l) && Linked(l) && a in l.wants && (n in l.users ==> a !in l.users[n])
    ensures Consistent(DropWant(l, a, n)) && Linked(DropWant(l, a, n))
  {
  }

  lemma ClearUsersKeeps(l: Links, n: Name)
    requires Consistent(l) && Linked(l) && n in l.users
    ensures Consistent(ClearUsers(l, n)) && Linked(ClearUsers(l, n))
  {
  }

  lemma AddPairKeeps(l: Links, a: Addr, n: Name)
    requires Consistent(l) && Linked(l) && n in l.users && a in l.wants
    ensures Consistent(AddWant(AddUser(l, a, n), a, n)) && Linked(AddWant(AddUser(l, a, n), a, n))
  {
  }

  lemma AddClientKeeps(l: Links, a: Addr)
    requires Consistent(l) && Linked(l) && a !in l.wants
    ensures Consistent(AddClient(l, a)) && Linked(AddClient(l, a))
  {
  }

  lemma DropClientKeeps(l: Links, a: Addr)
    requires Consistent(l) && Linked(l)
    requires forall n :: n in l.users ==> a !in l.users[n]
    ensures Consistent(DropClient(l, a)) && Linked(DropClient(l, a))
  {
  }

  // ---------- Operations ----------

  lemma AttemptLinks(s: State, e: Env, now: int, n: Name)
    requires Known(s, n)
    ensures var l := Attempt(s, e, now, n).0.links; l == s.links || l == Wipe(s.links, n)
  {
  }

  lemma WipeTwice(l: Links, n: Name)
    requires Consistent(l) && n in l.users
    ensures Wipe(Wipe(l, n), n) == Wipe(l, n)
  {
    var w, v := Wipe(l, n), Wipe(Wipe(l, n), n);
    forall a | a in l.wants ensures v.wants[a] == w.wants[a] {
      assert NoDup(l.wants[a]);
    }
    assert v.wants == w.wants && v.users == w.users;
  }

  /** Whatever the commands do, a status change leaves the lists alone or wipes the device. */
  lemma ConnectingLinks(s: State, e: Env, now: int, n: Name)
    requires WellFormed(s) && n in s.dev
    ensures var l := ToConnecting(s, e, now, n).0.links; l == s.links || l == Wipe(s.links, n)
  {
    hide Attempt, Consistent;
    AttemptLinks(s, e, now, n);
    AttemptLinks(SetRetries(s, n, e.retries), e, now, n);
    if s.dev[n].status == DISCONNECTING {
      var s1 := ForceDown(s, e, n).0;
      AttemptLinks(SetRetries(s1, n, e.retries), e, now, n);
      WipeTwice(s.links, n);
    }
  }

  lemma AlterLinks(s: State, e: Env, now: int, n: Name, to: Status)
    requires WellFormed(s) && n in s.dev
    ensures var l := Alter(s, e, now, n, to).0.links; l == s.links || l == Wipe(s.links, n)
  {
    hide ToConnecting, Wipe;
    ConnectingLinks(s, e, now, n);
  }

  lemma AlterKeeps(s: State, e: Env, now: int, n: Name, to: Status)
    requires Safe(s) && n in s.dev
    ensures Safe(Alter(s, e, now, n, to).0)
  {
    AlterLinks(s, e, now, n, to);
    WipeKeeps(s.links, n);
  }

  lemma ConnectKeeps(s: State, e: Env, now: int, a: Addr, n: Name)
    requires Safe(s) && n in s.dev && a in s.heard
    ensures Safe(Connect(s, e, now, a, n).0)
  {
    var s0 := SetRetries(s, n, e.retries);
    var s1 := if s.links.users[n] == [] then Alter(s0, e, now, n, CONNECTING).0 else s;
    AlterKeeps(s0, e, now, n, CONNECTING);
    AddPairKeeps(s1.links, a, n);
  }

  /** No client joins a list when a status changes. */
  lemma AlterShrinks(s: State, e: Env, now: int, n: Name, to: Status)
    requires Safe(s) && n in s.dev
    ensures var t := Alter(s, e, now, n, to).0;
      && Safe(t) && forall m, b :: m in s.dev && b in t.links.users[m] ==> b in s.links.users[m]
  {
    AlterLinks(s, e, now, n, to);
    AlterKeeps(s, e, now, n, to);
  }

  /** Afterwards the client is not in the device's list, whatever was returned, and no other
      client has joined any list. */
  lemma DisconnectKeeps(s: State, e: Env, now: int, a: Addr, n: Name)
    requires Safe(s) && n in s.dev && a in s.heard
    ensures var t := Disconnect(s, e, now, a, n).0;
      && Safe(t) && a !in t.links.users[n]
      && forall m, b :: m in s.dev && b in t.links.users[m] ==> b in s.links.users[m]
  {
    var s1 := s.(links := DropUser(s.links, a, n));
    DropUserKeeps(s.links, a, n);
    if a in s.links.users[n] && s1.links.users[n] == [] {
      AlterShrinks(s1, e, now, n, DISCONNECTING);
      DropWantKeeps(Alter(s1, e, now, n, DISCONNECTING).0.links, a, n);
    } else {
      DropWantKeeps(s1.links, a, n);
    }
  }

  /** remove_client_from_all_devices: on success, no device visited still lists the client. */
  lemma {:induction false} RemoveFromAllKeeps(s: State, e: Env, now: int, a: Addr, ds: seq<Name>)
    requires Safe(s) && a in s.heard && forall n :: n in ds ==> n in s.dev
    ensures var (t, rc) := RemoveFromAll(s, e, now, a, ds);
      && Safe(t)
      && (forall m, b :: m in s.dev && b in t.links.users[m] ==> b in s.links.users[m])
      && (rc.Ok? ==> forall n :: n in ds ==> a !in t.links.users[n])
    decreases |ds|
  {
    hide Disconnect, Linked, Consistent;
    if ds == [] {
    } else {
      assert ds[0] in ds && forall n :: n in ds <==> n == ds[0] || n in ds[1..];
      DisconnectKeeps(s, e, now, a, ds[0]);
      var (s1, rc) := Disconnect(s, e, now, a, ds[0]);
      if rc.Ok? || rc.errno == ENODEV {
        RemoveFromAllKeeps(s1, e, now, a, ds[1..]);
      }
    }
  }

  lemma {:induction false} AgeClientsKeeps(s: State, e: Env, now: int, cs: seq<Addr>)
    requires Safe(s) && NoDup(cs) && forall a :: a in cs ==> a in s.heard
    ensures Safe(AgeClients(s, e, now, cs).0)
    decreases |cs|
  {
    if cs == [] {
    } else {
      assert cs[0] in cs && forall a :: a in cs[1..] ==> a in cs && a != cs[0];
      if Silent(s, e, now, cs[0]) {
        RemoveFromAllKeeps(s, e, now, cs[0], s.links.devs);
        var (s1, rc) := RemoveFromAll(s, e, now, cs[0], s.links.devs);
        if rc.Ok? {
          DropClientKeeps(s1.links, cs[0]);
          AgeClientsKeeps(Forget(s1, cs[0]), e, now, cs[1..]);
        }
      } else {
        AgeClientsKeeps(s, e, now, cs[1..]);
      }
    }
  }

  lemma {:induction false} SweepDevicesKeeps(s: State, e: Env, now: int, ds: seq<Name>)
    requires Safe(s) && forall n :: n in ds ==> n in s.dev
    ensures Safe(SweepDevices(s, e, now, ds).0)
    decreases |ds|
  {
    hide Linked, Alter;
    if ds == [] {
    } else {
      assert ds[0] in s.dev && forall n :: n in ds[1..] ==> n in ds;
      if Overdue(s, e, now, ds[0]) {
        AlterKeeps(s, e, now, ds[0], s.dev[ds[0]].status);
        var (s1, rc) := Alter(s, e, now, ds[0], s.dev[ds[0]].status);
        if rc.Ok? {
          SweepDevicesKeeps(s1, e, now, ds[1..]);
        }
      } else {
        SweepDevicesKeeps(s, e, now, ds[1..]);
      }
    }
  }

  // ---------- Messages ----------

  lemma HearKeeps(s: State, now: int, a: Addr)
    requires Safe(s)
    ensures Safe(Hear(s, now, a))
  {
    if a !in s.links.wants {
      AddClientKeeps(s.links, a);
    }
  }

  lemma WantsKnown(s: State, a: Addr)
    requires WellFormed(s) && a in s.heard
    ensures a in s.links.wants && forall n :: n in s.links.wants[a] ==> n in s.dev
  {
  }

  lemma ForceOffKeeps(s: State, e: Env, now: int, n: Name)
    requires Safe(s) && n in s.dev
    ensures var t := Alter(s, e, now, n, DOWN).0; Safe(t) && Safe(t.(links := ClearUsers(t.links, n)))
  {
    hide Alter;
    AlterKeeps(s, e, now, n, DOWN);
    ClearUsersKeeps(Alter(s, e, now, n, DOWN).0.links, n);
  }

  lemma ServeKeeps(s: State, e: Env, now: int, a: Addr, q: Request)
    requires Safe(s) && a in s.heard && FromClient(q)
    ensures Safe(Serve(s, e, now, a, q).0)
  {
    hide Connect, Disconnect, Alter, Linked, ClearUsers, Consistent;
    WantsKnown(s, a);
    match q
    case BringUp(n) => if n in s.dev { ConnectKeeps(s, e, now, a, n); }
    case TakeDown(n) => if n in s.links.wants[a] { DisconnectKeeps(s, e, now, a, n); }
    case ForceOff(n) => if n in s.dev { ForceOffKeeps(s, e, now, n); }
    case _ =>
  }

  lemma NoticeKeeps(s: State, e: Env, now: int, q: Request)
    requires Safe(s) && (q.IsUp? || q.IsDown? || q.BadPeer?)
    ensures Safe(Notice(s, e, now, q).0)
  {
    match q
    case IsUp(n) => if n in s.dev { AlterKeeps(s, e, now, n, UP); }
    case IsDown(n) => if n in s.dev { AlterKeeps(s, e, now, n, DOWN); }
    case BadPeer =>
  }
}
