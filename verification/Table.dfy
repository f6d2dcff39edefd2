/** The sixteen cases of alter_device_status and the operations around it, in plain records, lists and
    command numbers, for any command outcomes. */
module Table {
  import opened Collections
  import opened Manager
  import opened Safety

  /** The device's list is empty, and it is in no client's list; nothing else differs. */
  ghost predicate WipedOf(k: Links, l: Links, n: Name) {
    && k.devs == l.devs && k.clis == l.clis
    && k.users == l.users[n := []]
    && k.wants.Keys == l.wants.Keys && forall a :: a in l.wants ==> k.wants[a] == Without(l.wants[a], n)
  }

  /** The record of `n` is `f`, `c` commands ran, the log got `events`, and the lists are as before, or
      wiped of `n`. */
  ghost predicate Became(s: State, t: State, n: Name, f: Device, c: nat, events: seq<Event>, wiped: bool) {
    && t.dev == s.dev[n := f] && t.ran == s.ran + c && t.log == s.log + events && t.heard == s.heard
    && (if wiped then WipedOf(t.links, s.links, n) else t.links == s.links)
  }

  lemma DownFromDisconnecting(s: State, e: Env, now: int, n: Name)
    requires Known(s, n) && s.dev[n].status == DISCONNECTING
    ensures var ((t, rc), d) := (Alter(s, e, now, n, DOWN), s.dev[n]);
      rc == Ok && Became(s, t, n, Device(DOWN, d.since, d.retries), 0, [Moved(n, DISCONNECTING, DOWN)], false)
  {
  }

  lemma DownFromOther(s: State, e: Env, now: int, n: Name)
    requires Known(s, n) && s.dev[n].status != DISCONNECTING
    ensures var ((t, rc), d, r) := (Alter(s, e, now, n, DOWN), s.dev[n], e.world(s.ran, LinkForceDown));
      var ran := Ran(LinkForceDown, n, r);
      if r.Failed? then rc == Err(r.errno) && Became(s, t, n, d, 1, [ran], false)
      else
        && rc == Ok
        && Became(s, t, n, Device(DOWN, d.since, d.retries), 1, [ran, Moved(n, d.status, DOWN)], r.code == 0)
  {
    assert s.dev[n := s.dev[n]] == s.dev;
    LogTwo(s.log, Ran(LinkForceDown, n, e.world(s.ran, LinkForceDown)), Moved(n, s.dev[n].status, DOWN));
  }

  lemma LogTwo(log: seq<Event>, x: Event, y: Event)
    ensures log + [x] + [y] == log + [x, y]
  {
  }

  lemma UpFromAny(s: State, e: Env, now: int, n: Name)
    requires Known(s, n)
    ensures var ((t, rc), d) := (Alter(s, e, now, n, UP), s.dev[n]);
      if d.status == CONNECTING then
        rc == Ok && Became(s, t, n, Device(UP, now, d.retries), 0, [Moved(n, CONNECTING, UP)], false)
      else rc == Err(EINVAL) && t == s
  {
  }

  lemma DisconnectingFromDown(s: State, e: Env, now: int, n: Name)
    requires Known(s, n) && s.dev[n].status == DOWN
    ensures Alter(s, e, now, n, DISCONNECTING) == (s, Err(EINVAL))
  {
  }

  /** link_down, and only an exit status of 0 restarts the clock. */
  lemma DisconnectingFromUp(s: State, e: Env, now: int, n: Name)
    requires Known(s, n) && s.dev[n].status == UP
    ensures var ((t, rc), d, r) := (Alter(s, e, now, n, DISCONNECTING), s.dev[n], e.world(s.ran, LinkDown));
      var ran := Ran(LinkDown, n, r);
      if r.Failed? then rc == Err(r.errno) && Became(s, t, n, d, 1, [ran], false)
      else
        && rc == Ok
        && Became(s, t, n, Device(DISCONNECTING, if r.code == 0 then now else d.since, d.retries), 1,
                  [ran, Moved(n, UP, DISCONNECTING)], false)
  {
    assert s.dev[n := s.dev[n]] == s.dev;
    LogTwo(s.log, Ran(LinkDown, n, e.world(s.ran, LinkDown)), Moved(n, UP, DISCONNECTING));
  }

  /** A CONNECTING device is forced down; a DISCONNECTING one, whose time is up, too, and is then DOWN. */
  lemma DisconnectingFromOther(s: State, e: Env, now: int, n: Name)
    requires Known(s, n) && (s.dev[n].status == CONNECTING || s.dev[n].status == DISCONNECTING)
    ensures var ((t, rc), d, r) := (Alter(s, e, now, n, DISCONNECTING), s.dev[n], e.world(s.ran, LinkForceDown));
      var (ran, st) := (Ran(LinkForceDown, n, r), if d.status == CONNECTING then DISCONNECTING else DOWN);
      if r.Failed? then rc == Err(r.errno) && Became(s, t, n, d, 1, [ran], false)
      else rc == Ok && Became(s, t, n, Device(st, d.since, d.retries), 1, [ran, Moved(n, d.status, st)], r.code == 0)
  {
    assert s.dev[n := s.dev[n]] == s.dev;
    var st := if s.dev[n].status == CONNECTING then DISCONNECTING else DOWN;
    LogTwo(s.log, Ran(LinkForceDown, n, e.world(s.ran, LinkForceDown)), Moved(n, s.dev[n].status, st));
  }

  lemma ConnectingFromUp(s: State, e: Env, now: int, n: Name)
    requires Known(s, n) && s.dev[n].status == UP
    ensures Alter(s, e, now, n, CONNECTING) == (s, Err(EINVAL))
  {
  }

  /** An attempt with the counter at `left`: the counter goes down by one, also when link_up returns -1;
      every other outcome starts the clock. */
  lemma AttemptWithSome(s: State, e: Env, now: int, n: Name)
    requires Known(s, n) && s.dev[n].retries >= 0
    ensures var ((t, rc), d, r) := (Attempt(s, e, now, n), s.dev[n], e.world(s.ran, LinkUp));
      var ran := Ran(LinkUp, n, r);
      if r.Failed? then
        rc == Err(r.errno) && Became(s, t, n, Device(d.status, d.since, d.retries - 1), 1, [ran], false)
      else
        && rc == Ok
        && Became(s, t, n, Device(CONNECTING, now, d.retries - 1), 1, [ran, Moved(n, d.status, CONNECTING)], false)
  {
    LogTwo(s.log, Ran(LinkUp, n, e.world(s.ran, LinkUp)), Moved(n, s.dev[n].status, CONNECTING));
  }

  /** Without attempts left the device is taken DOWN. */
  lemma AttemptWithNone(s: State, e: Env, now: int, n: Name)
    requires Known(s, n) && s.dev[n].retries < 0 && s.dev[n].status != DISCONNECTING
    ensures var ((t, rc), d, r) := (Attempt(s, e, now, n), s.dev[n], e.world(s.ran, LinkForceDown));
      var ran := Ran(LinkForceDown, n, r);
      if r.Failed? then
        rc == Err(r.errno) && Became(s, t, n, Device(d.status, d.since, d.retries - 1), 1, [ran], false)
      else
        && rc == Ok
        && Became(s, t, n, Device(DOWN, d.since, d.retries - 1), 1, [ran, Moved(n, d.status, DOWN)], r.code == 0)
  {
    LogTwo(s.log, Ran(LinkForceDown, n, e.world(s.ran, LinkForceDown)), Moved(n, s.dev[n].status, DOWN));
  }

  lemma AttemptOfDisconnecting(s: State, e: Env, now: int, n: Name)
    requires Known(s, n) && s.dev[n].retries < 0 && s.dev[n].status == DISCONNECTING
    ensures var ((t, rc), d) := (Attempt(s, e, now, n), s.dev[n]);
      rc == Ok && Became(s, t, n, Device(DOWN, d.since, d.retries - 1), 0, [Moved(n, DISCONNECTING, DOWN)], false)
  {
  }

  lemma ConnectingFromConnecting(s: State, e: Env, now: int, n: Name)
    requires Known(s, n) && s.dev[n].status == CONNECTING
    ensures Alter(s, e, now, n, CONNECTING) == Attempt(s, e, now, n)
  {
  }

  lemma ConnectingFromDown(s: State, e: Env, now: int, n: Name)
    requires Known(s, n) && s.dev[n].status == DOWN
    ensures var d := s.dev[n];
      Alter(s, e, now, n, CONNECTING)
      == Attempt(s.(dev := s.dev[n := Device(d.status, d.since, e.retries)]), e, now, n)
  {
  }

  /** A DISCONNECTING device is forced down first; when that returns -1 the change fails and not even the
      counter has changed. */
  lemma ConnectingFromDisconnecting(s: State, e: Env, now: int, n: Name)
    requires Known(s, n) && s.dev[n].status == DISCONNECTING
    ensures var ((t, rc), d, r) := (Alter(s, e, now, n, CONNECTING), s.dev[n], e.world(s.ran, LinkForceDown));
      var ran := Ran(LinkForceDown, n, r);
      if r.Failed? then rc == Err(r.errno) && Became(s, t, n, d, 1, [ran], false)
      else
        exists s1 ::
          && Became(s, s1, n, Device(DISCONNECTING, d.since, e.retries), 1, [ran], r.code == 0)
          && Known(s1, n) && (t, rc) == Attempt(s1, e, now, n)
  {
    hide Attempt;
    var (s1, r) := ForceDown(s, e, n);
    if r.Failed? {
      assert s.dev[n := s.dev[n]] == s.dev;
    } else {
      var s2 := SetRetries(s1, n, e.retries);
      var f := Device(DISCONNECTING, s.dev[n].since, e.retries);
      assert Became(s, s2, n, f, 1, [Ran(LinkForceDown, n, r)], r.code == 0);
    }
  }

  // ---------- Connecting and disconnecting a client ----------

  /** A client's UP of a device that has users runs nothing and only enters the pair, at the end of both
      lists, where it is missing. */
  lemma ConnectAnother(s: State, e: Env, now: int, a: Addr, n: Name)
    requires Known(s, n) && Present(s, a) && s.links.users[n] != []
    ensures var ((t, rc), u, w) := (Connect(s, e, now, a, n), s.links.users[n], s.links.wants[a]);
      && rc == Ok && t.dev == s.dev && t.ran == s.ran && t.log == s.log && t.heard == s.heard
      && t.links.devs == s.links.devs && t.links.clis == s.links.clis
      && t.links.users == s.links.users[n := if a in u then u else u + [a]]
      && t.links.wants == s.links.wants[a := if n in w then w else w + [n]]
  {
  }

  /** A client's UP of a device without users does what the status change does, with g_retries on the
      counter, and enters the pair only if that succeeded. */
  lemma ConnectFirst(s: State, e: Env, now: int, a: Addr, n: Name)
    requires Known(s, n) && Present(s, a) && s.links.users[n] == []
    ensures var ((t, rc), d) := (Connect(s, e, now, a, n), s.dev[n]);
      var (t1, rc1) := Alter(s.(dev := s.dev[n := Device(d.status, d.since, e.retries)]), e, now, n, CONNECTING);
      && rc == rc1 && t.dev == t1.dev && t.ran == t1.ran && t.log == t1.log
      && (if rc.Err? then t.links == t1.links
          else
            var (u, w) := (t1.links.users[n], t1.links.wants[a]);
            && t.links.devs == t1.links.devs && t.links.clis == t1.links.clis
            && t.links.users == t1.links.users[n := if a in u then u else u + [a]]
            && t.links.wants == t1.links.wants[a := if n in w then w else w + [n]])
  {
    hide Alter;
  }

  /** A client's DOWN that does not take the last user runs nothing, and unlinks the pair on both sides. */
  lemma DisconnectOther(s: State, e: Env, now: int, a: Addr, n: Name)
    requires Known(s, n) && Present(s, a) && (a !in s.links.users[n] || Without(s.links.users[n], a) != [])
    ensures var (t, rc) := Disconnect(s, e, now, a, n);
      && rc == Ok && t.dev == s.dev && t.ran == s.ran && t.log == s.log && t.heard == s.heard
      && t.links.devs == s.links.devs && t.links.clis == s.links.clis
      && t.links.users == s.links.users[n := Without(s.links.users[n], a)]
      && t.links.wants == s.links.wants[a := Without(s.links.wants[a], n)]
  {
  }

  /** One that takes the last user does what the status change does, with the device's list already empty;
      when that fails, the client's list is not touched any more. */
  lemma DisconnectTheLast(s: State, e: Env, now: int, a: Addr, n: Name)
    requires Known(s, n) && Present(s, a) && a in s.links.users[n] && Without(s.links.users[n], a) == []
    ensures var (t, rc) := Disconnect(s, e, now, a, n);
      var (t1, rc1) := Alter(s.(links := s.links.(users := s.links.users[n := []])), e, now, n, DISCONNECTING);
      && rc == rc1 && t.dev == t1.dev && t.ran == t1.ran && t.log == t1.log
      && (if rc.Err? then t.links == t1.links
          else
            && t.links.devs == t1.links.devs && t.links.clis == t1.links.clis && t.links.users == t1.links.users
            && t.links.wants == t1.links.wants[a := Without(t1.links.wants[a], n)])
  {
    hide Alter;
  }
}
