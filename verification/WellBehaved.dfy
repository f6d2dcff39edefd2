/** Runs in which link_force_down exits 0, link_down does not return -1 and g_retries is not
    negative; link_up may do anything.  On such runs both families of lists are one relation. */
module WellBehaved {
  import opened Collections
  import opened Manager
  import opened Safety

  /** Half of it: nothing is assumed of link_down. */
  ghost predicate Forceful(e: Env) {
    e.retries >= 0 && forall k :: e.world(k, LinkForceDown) == Exit(0)
  }

  ghost predicate WellBehavedEnv(e: Env) {
    Forceful(e) && forall k :: e.world(k, LinkDown).Exit?
  }

  /** The converse of `Linked`: a device in a client's list has that client in its own list. */
  ghost predicate Mirror(l: Links) {
    forall a, n :: a in l.wants && n in l.wants[a] ==> n in l.users && a in l.users[n]
  }

  /** A device is UP or CONNECTING exactly when its client list is not empty. */
  ghost predicate Matched(st: Status, users: seq<Addr>) {
    users != [] <==> (st == UP || st == CONNECTING)
  }

  ghost predicate UsersMatch(s: State) {
    forall n :: n in s.dev && n in s.links.users ==> Matched(s.dev[n].status, s.links.users[n])
  }

  /** A CONNECTING device has between -1 and g_retries - 1 attempts on its counter. */
  ghost predicate Counted(s: State, e: Env) {
    forall n :: n in s.dev && s.dev[n].status == CONNECTING ==> -1 <= s.dev[n].retries < e.retries
  }

  ghost predicate Good(s: State, e: Env) {
    Safe(s) && Mirror(s.links) && UsersMatch(s) && Counted(s, e)
  }

  // ---------- The lists as one relation ----------

  lemma WipeMirror(l: Links, n: Name)
    requires Consistent(l) && Linked(l) && Mirror(l) && n in l.users
    ensures Mirror(Wipe(l, n))
    ensures l.users[n] == [] ==> Wipe(l, n) == l
  {
    var w := Wipe(l, n);
    forall a, m | a in w.wants && m in w.wants[a] ensures m in w.users && a in w.users[m] {
      assert NoDup(l.wants[a]);
      assert m in l.wants[a] && m != n;
    }
    if l.users[n] == [] {
      forall a | a in l.wants ensures w.wants[a] == l.wants[a] {
        assert n !in l.wants[a];
      }
      assert w.wants == l.wants && w.users == l.users;
    }
  }

  /** Unlinking the pair from both lists. */
  function DropPair(l: Links, a: Addr, n: Name): Links
    requires n in l.users && a in l.wants
  {
    DropWant(DropUser(l, a, n), a, n)
  }

  lemma DropPairKeeps(l: Links, a: Addr, n: Name)
    requires Consistent(l) && Linked(l) && Mirror(l) && n in l.users && a in l.wants
    ensures Consistent(DropPair(l, a, n)) && Linked(DropPair(l, a, n)) && Mirror(DropPair(l, a, n))
  {
    DropUserKeeps(l, a, n);
    DropWantKeeps(DropUser(l, a, n), a, n);
    var d := DropPair(l, a, n);
    forall b, m | b in d.wants && m in d.wants[b] ensures m in d.users && b in d.users[m] {
      assert NoDup(l.wants[a]);
      assert m in l.wants[b] && b in l.users[m];
    }
  }

  /** When the last user has been unlinked, wiping the device only unlinks the pair. */
  lemma WipeLast(l: Links, a: Addr, n: Name)
    requires Consistent(l) && Linked(l) && Mirror(l) && n in l.users && a in l.wants
    requires Without(l.users[n], a) == []
    ensures DropWant(Wipe(DropUser(l, a, n), n), a, n) == DropPair(l, a, n)
  {
    var w, d := DropWant(Wipe(DropUser(l, a, n), n), a, n), DropPair(l, a, n);
    forall b | b in l.wants ensures w.wants[b] == d.wants[b] {
      assert NoDup(l.wants[b]);
      if b != a {
        assert b !in Without(l.users[n], a) && b !in l.users[n];
      }
    }
    assert w.wants == d.wants && w.users == d.users;
  }

  lemma AddPairMirror(l: Links, a: Addr, n: Name)
    requires Consistent(l) && Linked(l) && Mirror(l) && n in l.users && a in l.wants
    ensures Mirror(AddWant(AddUser(l, a, n), a, n))
  {
  }

  // ---------- Status changes ----------

  /** A change confined to the device `n` leaves a good state if it leaves `n` good. */
  lemma Rejoin(s: State, t: State, e: Env, n: Name)
    requires Good(s, e) && n in s.dev && Safe(t) && Mirror(t.links) && t.dev.Keys == s.dev.Keys
    requires forall m :: m in s.dev && m != n ==> t.dev[m] == s.dev[m] && t.links.users[m] == s.links.users[m]
    requires Matched(t.dev[n].status, t.links.users[n])
    requires t.dev[n].status == CONNECTING ==> -1 <= t.dev[n].retries < e.retries
    ensures Good(t, e)
  {
    forall m | m in t.dev ensures Matched(t.dev[m].status, t.links.users[m]) {
      assert Matched(s.dev[m].status, s.links.users[m]);
    }
  }

  lemma ToDownEffect(s: State, e: Env, n: Name)
    requires WellBehavedEnv(e) && Known(s, n)
    ensures var (t, rc) := ToDown(s, e, n);
      && rc.Ok?
      && t.links == (if s.dev[n].status == DISCONNECTING then s.links else Wipe(s.links, n))
      && t.dev == s.dev[n := s.dev[n].(status := DOWN)]
  {
    assert e.world(s.ran, LinkForceDown) == Exit(0);
  }

  /** Any way to DOWN empties the device's column and succeeds. */
  lemma ToDownGood(s: State, e: Env, n: Name)
    requires WellBehavedEnv(e) && Good(s, e) && n in s.dev
    ensures var (t, rc) := ToDown(s, e, n);
      && rc.Ok? && t.links == Wipe(s.links, n) && Good(t, e)
      && t.dev == s.dev[n := s.dev[n].(status := DOWN)]
  {
    ToDownEffect(s, e, n);
    WipeMirror(s.links, n);
    WipeKeeps(s.links, n);
    assert Matched(s.dev[n].status, s.links.users[n]);
    Rejoin(s, ToDown(s, e, n).0, e, n);
  }

  lemma AttemptEffect(s: State, e: Env, now: int, n: Name)
    requires WellBehavedEnv(e) && Known(s, n) && s.dev[n].retries >= 0
    ensures var (t, rc) := Attempt(s, e, now, n);
      && t.links == s.links
      && t.dev == s.dev[n := t.dev[n]]
      && (rc.Ok? <==> e.world(s.ran, LinkUp).Exit?)
      && (if rc.Ok? then t.dev[n] == Device(CONNECTING, now, s.dev[n].retries - 1)
          else t.dev[n] == s.dev[n].(retries := s.dev[n].retries - 1))
  {
  }

  /** What the link_up that starts the device will return: a DISCONNECTING device is forced down
      first. */
  function StartReply(s: State, e: Env, n: Name): Reply
    requires n in s.dev
  {
    e.world(if s.dev[n].status == DISCONNECTING then s.ran + 1 else s.ran, LinkUp)
  }

  /** An UP is accepted if the device already has users, or the link_up that it causes does not
      return -1. */
  predicate UpAccepted(s: State, e: Env, n: Name)
    requires Known(s, n)
  {
    s.links.users[n] != [] || StartReply(s, e, n).Exit?
  }

  /** link_up on a device without users: it becomes CONNECTING, or nothing but its counter
      changes. */
  lemma StartEffect(s: State, e: Env, now: int, n: Name)
    requires WellBehavedEnv(e) && Known(s, n) && Wipe(s.links, n) == s.links
    requires s.dev[n].status == DOWN || s.dev[n].status == DISCONNECTING
    ensures var (t, rc) := Alter(SetRetries(s, n, e.retries), e, now, n, CONNECTING);
      && t.links == s.links
      && t.dev == s.dev[n := t.dev[n]]
      && (rc.Ok? <==> StartReply(s, e, n).Exit?)
      && (if rc.Ok? then t.dev[n] == Device(CONNECTING, now, e.retries - 1)
          else t.dev[n] == s.dev[n].(retries := e.retries - 1))
  {
    var s0 := SetRetries(s, n, e.retries);
    if s.dev[n].status == DOWN {
      AttemptEffect(SetRetries(s0, n, e.retries), e, now, n);
    } else {
      assert e.world(s.ran, LinkForceDown) == Exit(0);
      AttemptEffect(SetRetries(ForceDown(s0, e, n).0, n, e.retries), e, now, n);
    }
  }

  lemma ConnectGood(s: State, e: Env, now: int, a: Addr, n: Name)
    requires WellBehavedEnv(e) && Good(s, e) && n in s.dev && a in s.heard
    ensures var (t, rc) := Connect(s, e, now, a, n);
      && Good(t, e) && (rc.Ok? <==> UpAccepted(s, e, n))
      && t.links == (if rc.Ok? then AddWant(AddUser(s.links, a, n), a, n) else s.links)
  {
    ConnectKeeps(s, e, now, a, n);
    AddPairMirror(s.links, a, n);
    assert Matched(s.dev[n].status, s.links.users[n]);
    if s.links.users[n] == [] {
      WipeMirror(s.links, n);
      StartEffect(s, e, now, n);
    }
    Rejoin(s, Connect(s, e, now, a, n).0, e, n);
  }

  lemma ToDisconnectingEffect(s: State, e: Env, now: int, n: Name)
    requires WellBehavedEnv(e) && Known(s, n) && s.dev[n].status != DOWN
    ensures var (t, rc) := ToDisconnecting(s, e, now, n);
      && rc.Ok?
      && t.links == (if s.dev[n].status == UP then s.links else Wipe(s.links, n))
      && t.dev == s.dev[n := t.dev[n]]
      && t.dev[n].status == (if s.dev[n].status == DISCONNECTING then DOWN else DISCONNECTING)
      && t.dev[n].retries == s.dev[n].retries
      && t.dev[n].since
         == (if s.dev[n].status == UP && e.world(s.ran, LinkDown) == Exit(0) then now else s.dev[n].since)
  {
    assert e.world(s.ran, LinkForceDown) == Exit(0);
    assert e.world(s.ran, LinkDown).Exit?;
  }

  /** The clock of a device that loses its last user: a link_down that exits 0 restarts it. */
  function LeavingTime(s: State, e: Env, now: int, n: Name): int
    requires n in s.dev
  {
    if s.dev[n].status == UP && e.world(s.ran, LinkDown) == Exit(0) then now else s.dev[n].since
  }

  lemma DisconnectEffect(s: State, e: Env, now: int, a: Addr, n: Name)
    requires WellBehavedEnv(e) && Good(s, e) && n in s.dev && a in s.heard
    ensures var (t, rc) := Disconnect(s, e, now, a, n);
      && rc.Ok?
      && t.links == DropPair(s.links, a, n)
      && t.dev == s.dev[n := t.dev[n]]
      && (if s.links.users[n] != [] && t.links.users[n] == []
          then t.dev[n] == Device(DISCONNECTING, LeavingTime(s, e, now, n), s.dev[n].retries)
          else t.dev[n] == s.dev[n])
  {
    var s1 := s.(links := DropUser(s.links, a, n));
    assert Matched(s.dev[n].status, s.links.users[n]);
    if a in s.links.users[n] && s1.links.users[n] == [] {
      ToDisconnectingEffect(s1, e, now, n);
      WipeLast(s.links, a, n);
    }
  }

  /** A DOWN always succeeds; the device becomes DISCONNECTING when it loses its last user. */
  lemma DisconnectGood(s: State, e: Env, now: int, a: Addr, n: Name)
    requires WellBehavedEnv(e) && Good(s, e) && n in s.dev && a in s.heard
    ensures Good(Disconnect(s, e, now, a, n).0, e)
  {
    var t := Disconnect(s, e, now, a, n).0;
    DisconnectKeeps(s, e, now, a, n);
    DropPairKeeps(s.links, a, n);
    DisconnectEffect(s, e, now, a, n);
    assert Matched(s.dev[n].status, s.links.users[n]);
    Rejoin(s, t, e, n);
  }
}
