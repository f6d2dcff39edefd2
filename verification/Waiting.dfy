/** A device that its last user has left keeps DISCONNECTING until g_disconnect_timeout is over, whatever
    the commands do. */
module Waiting {
  import opened Collections
  import opened Manager
  import opened Safety
  import opened MainLoop
  import opened WellBehaved
  import opened Requests
  import opened Filtering
  import opened Emptying
  import opened Table
  import opened Sweeping
  import opened Limits

  /** The device has no users, and has been DISCONNECTING since `since`. */
  predicate Leaving(s: State, n: Name, since: int, left: int) {
    Known(s, n) && s.dev[n] == Device(DISCONNECTING, since, left) && s.links.users[n] == []
  }

  lemma AttemptElse(s: State, e: Env, now: int, m: Name, n: Name, since: int, left: int)
    requires Known(s, m) && m != n && Leaving(s, n, since, left)
    ensures Leaving(Attempt(s, e, now, m).0, n, since, left)
  {
  }

  lemma AlterElse(s: State, e: Env, now: int, m: Name, to: Status, n: Name, since: int, left: int)
    requires Known(s, m) && m != n && Leaving(s, n, since, left)
    ensures Leaving(Alter(s, e, now, m, to).0, n, since, left)
  {
    hide Attempt;
    if to == CONNECTING {
      AttemptElse(s, e, now, m, n, since, left);
      AttemptElse(SetRetries(s, m, e.retries), e, now, m, n, since, left);
      AttemptElse(SetRetries(ForceDown(s, e, m).0, m, e.retries), e, now, m, n, since, left);
    }
  }

  lemma ConnectElse(s: State, e: Env, now: int, a: Addr, m: Name, n: Name, since: int, left: int)
    requires Known(s, m) && Present(s, a) && m != n && Leaving(s, n, since, left)
    ensures Leaving(Connect(s, e, now, a, m).0, n, since, left)
  {
    hide Alter;
    AlterElse(SetRetries(s, m, e.retries), e, now, m, CONNECTING, n, since, left);
  }

  /** A device without users loses none. */
  lemma DisconnectAny(s: State, e: Env, now: int, a: Addr, m: Name, n: Name, since: int, left: int)
    requires Known(s, m) && Present(s, a) && Leaving(s, n, since, left)
    ensures Leaving(Disconnect(s, e, now, a, m).0, n, since, left)
  {
    hide Alter;
    if m != n {
      AlterElse(s.(links := DropUser(s.links, a, m)), e, now, m, DISCONNECTING, n, since, left);
    }
  }

  lemma {:induction false} RemoveWaits(s: State, e: Env, now: int, a: Addr, ds: seq<Name>, n: Name,
                                       since: int, left: int)
    requires Present(s, a) && (forall m :: m in ds ==> Known(s, m)) && Leaving(s, n, since, left)
    ensures Leaving(RemoveFromAll(s, e, now, a, ds).0, n, since, left)
    decreases |ds|
  {
    hide Disconnect, Leaving;
    if ds == [] {
    } else {
      assert Known(s, ds[0]) && forall m :: m in ds[1..] ==> Known(s, m);
      DisconnectAny(s, e, now, a, ds[0], n, since, left);
      var (s1, rc) := Disconnect(s, e, now, a, ds[0]);
      if rc.Ok? || rc.errno == ENODEV {
        RemoveWaits(s1, e, now, a, ds[1..], n, since, left);
      }
    }
  }

  lemma {:induction false} AgeingWaits(s: State, e: Env, now: int, cs: seq<Addr>, n: Name, since: int, left: int)
    requires Walkable(s, cs) && Leaving(s, n, since, left)
    ensures Leaving(AgeClients(s, e, now, cs).0, n, since, left)
    decreases |cs|
  {
    hide RemoveFromAll;
    if cs == [] {
    } else {
      AgeOneThen(s, e, now, cs);
      if Silent(s, e, now, cs[0]) {
        RemoveWaits(s, e, now, cs[0], s.links.devs, n, since, left);
      }
      var (s1, rc) := AgeOne(s, e, now, cs[0]);
      if rc.Ok? {
        AgeingWaits(s1, e, now, cs[1..], n, since, left);
      }
    }
  }

  lemma SweepWaits(s: State, e: Env, now: int, ds: seq<Name>, n: Name, since: int, left: int)
    requires NoDup(ds) && (forall m :: m in ds ==> Known(s, m)) && n in ds
    requires Leaving(s, n, since, left) && now <= since + e.disconnectTimeout
    ensures Leaving(SweepDevices(s, e, now, ds).0, n, since, left)
  {
    hide SweepDevices, Acted;
    var k := SweepEnds(s, e, now, ds);
    var j :| 0 <= j < |ds| && ds[j] == n;
    assert j < k || j == k || k < j;
  }

  lemma TickWaits(s: State, e: Env, now: int, n: Name, since: int, left: int)
    requires Safe(s) && Leaving(s, n, since, left) && now <= since + e.disconnectTimeout
    ensures Leaving(Tick(s, e, now), n, since, left)
  {
    NoDups(s);
    AgeClientsKeeps(s, e, now, s.links.clis);
    hide AgeClients, SweepDevices, Consistent, Linked;
    AgeingWaits(s, e, now, s.links.clis, n, since, left);
    var s1 := AgeClients(s, e, now, s.links.clis).0;
    NoDups(s1);
    SweepWaits(s1, e, now, s1.links.devs, n, since, left);
  }

  /** The message is no UP and no FORCE_DOWN of the device, nor the peer's ISDOWN of it. */
  predicate Spares(text: string, n: Name) {
    text != "CLIENT UP " + n && text != "CLIENT FORCE_DOWN " + n && text != "NOTIFY ISDOWN " + n
  }

  lemma SparesRequest(text: string, n: Name)
    requires Spares(text, n)
    ensures var q := ParseRequest(text); q != BringUp(n) && q != ForceOff(n) && q != IsDown(n)
  {
    ParsedFrom(text, n);
  }

  lemma ServeWaits(s: State, e: Env, now: int, a: Addr, q: Request, n: Name, since: int, left: int)
    requires Safe(s) && a in s.heard && FromClient(q) && q != BringUp(n) && q != ForceOff(n)
    requires Leaving(s, n, since, left)
    ensures Leaving(Serve(s, e, now, a, q).0, n, since, left)
  {
    hide Connect, Disconnect, Alter;
    match q {
      case BringUp(m) => if m in s.dev { ConnectElse(s, e, now, a, m, n, since, left); }
      case TakeDown(m) => if m in s.links.wants[a] { DisconnectAny(s, e, now, a, m, n, since, left); }
      case ForceOff(m) => if m in s.dev { AlterElse(s, e, now, m, DOWN, n, since, left); }
      case _ =>
    }
  }

  lemma NoticeWaits(s: State, e: Env, now: int, q: Request, n: Name, since: int, left: int)
    requires Safe(s) && (q.IsUp? || q.IsDown? || q.BadPeer?) && q != IsDown(n) && Leaving(s, n, since, left)
    ensures Leaving(Notice(s, e, now, q).0, n, since, left)
  {
    hide Alter;
    match q {
      case IsUp(m) =>
        if m == n { UpFromAny(s, e, now, n); } else if m in s.dev { AlterElse(s, e, now, m, UP, n, since, left); }
      case IsDown(m) => if m in s.dev { AlterElse(s, e, now, m, DOWN, n, since, left); }
      case BadPeer =>
    }
  }

  lemma ReceiveWaits(s: State, e: Env, now: int, d: Datagram, n: Name, since: int, left: int)
    requires Safe(s) && Leaving(s, n, since, left) && Spares(d.text, n)
    ensures Leaving(Receive(s, e, now, d).0, n, since, left)
  {
    hide ParseRequest, Serve, Notice, Consistent, Linked, Spares;
    SparesRequest(d.text, n);
    HearKeeps(s, now, d.from);
    var q := ParseRequest(d.text);
    if FromClient(q) {
      ServeWaits(Hear(s, now, d.from), e, now, d.from, q, n, since, left);
    } else if !q.BadPrefix? {
      NoticeWaits(s, e, now, q, n, since, left);
    }
  }

  /** Over whole runs, whatever the commands do: a device without users that is DISCONNECTING since
      `since` stays so in every pass up to since + g_disconnect_timeout that is asked neither to bring
      it up nor to force it down. */
  lemma {:induction false} RunWaits(s: State, e: Env, inputs: seq<Input>, n: Name, since: int, left: int)
    requires Safe(s) && Known(s, n) && s.dev[n] == Device(DISCONNECTING, since, left) && s.links.users[n] == []
    requires forall i :: 0 <= i < |inputs| ==>
      && inputs[i].now <= since + e.disconnectTimeout
      && (inputs[i].datagram.Some? ==> Spares(inputs[i].datagram.value.text, n))
    ensures var t := Run(s, e, inputs);
      Known(t, n) && t.dev[n] == Device(DISCONNECTING, since, left) && t.links.users[n] == []
    decreases |inputs|
  {
    hide Tick, Receive, Spares, Consistent, Linked;
    if inputs == [] {
    } else {
      var i := inputs[0];
      if i.datagram.Some? {
        ReceiveWaits(s, e, i.now, i.datagram.value, n, since, left);
      }
      var s1 := Answered(s, e, i);
      TickWaits(s1, e, i.now, n, since, left);
      RunWaits(Pass(s, e, i), e, inputs[1..], n, since, left);
    }
  }

  // ---------- Where it starts ----------

  /** The last user's DOWN of an UP device: only a link_down that exits 0 restarts the clock. */
  lemma LastLeaves(s: State, e: Env, now: int, d: Datagram, n: Name)
    requires Safe(s) && Known(s, n) && s.dev[n].status == UP && s.links.users[n] == [d.from]
    requires d.text == "CLIENT DOWN " + n && e.world(s.ran, LinkDown).Exit?
    ensures var ((t, rc), c) := (Receive(s, e, now, d), e.world(s.ran, LinkDown).code);
      && rc.Ok?
      && Known(t, n) && t.links.users[n] == []
      && t.dev[n] == Device(DISCONNECTING, if c == 0 then now else s.dev[n].since, s.dev[n].retries)
  {
    hide ParseRequest, Receive, Consistent, Linked;
    ParseDown(n);
    RequestLeaves(s, e, now, d, n);
  }

  lemma RequestLeaves(s: State, e: Env, now: int, d: Datagram, n: Name)
    requires Safe(s) && Known(s, n) && s.dev[n].status == UP && s.links.users[n] == [d.from]
    requires ParseRequest(d.text) == TakeDown(n) && e.world(s.ran, LinkDown).Exit?
    ensures var ((t, rc), c) := (Receive(s, e, now, d), e.world(s.ran, LinkDown).code);
      && rc.Ok?
      && Known(t, n) && t.links.users[n] == []
      && t.dev[n] == Device(DISCONNECTING, if c == 0 then now else s.dev[n].since, s.dev[n].retries)
  {
    hide ParseRequest, Disconnect, Consistent, Linked, Hear;
    var (a, h) := (d.from, Hear(s, now, d.from));
    UserHeard(s, now, a, n);
    assert Receive(s, e, now, d) == Disconnect(h, e, now, a, n);
    LastDisconnects(h, e, now, a, n);
  }

  lemma UserHeard(s: State, now: int, a: Addr, n: Name)
    requires Safe(s) && Known(s, n) && s.links.users[n] == [a]
    ensures var h := Hear(s, now, a);
      Safe(h) && Present(h, a) && h.dev == s.dev && h.ran == s.ran && h.links == s.links && n in h.links.wants[a]
  {
    HearKeeps(s, now, a);
    assert a in s.links.users[n];
  }

  lemma LastDisconnects(s: State, e: Env, now: int, a: Addr, n: Name)
    requires Known(s, n) && Present(s, a) && s.dev[n].status == UP && s.links.users[n] == [a]
    requires e.world(s.ran, LinkDown).Exit?
    ensures var ((t, rc), c) := (Disconnect(s, e, now, a, n), e.world(s.ran, LinkDown).code);
      && rc.Ok?
      && Known(t, n) && t.links.users[n] == []
      && t.dev[n] == Device(DISCONNECTING, if c == 0 then now else s.dev[n].since, s.dev[n].retries)
  {
    hide Alter, Disconnect;
    assert a in s.links.users[n];
    DisconnectTheLast(s, e, now, a, n);
    DisconnectingFromUp(s.(links := s.links.(users := s.links.users[n := []])), e, now, n);
  }

  /** On any run, with any commands: when the last user of an UP device sends its DOWN at `t0` and
      link_down exits 0, the device is not DOWN, and still DISCONNECTING since `t0`, behind every pass up
      to t0 + g_disconnect_timeout, that of the DOWN itself and those that follow it, as long as nobody
      asks for it or forces it down. */
  lemma DownWaits(names: seq<Name>, e: Env, inputs: seq<Input>, t0: int, d: Datagram, n: Name, rest: seq<Input>)
    requires n in names && d.text == "CLIENT DOWN " + n
    requires forall i :: 0 <= i < |rest| && rest[i].datagram.Some? ==> Spares(rest[i].datagram.value.text, n)
    requires t0 <= t0 + e.disconnectTimeout
    requires forall i :: 0 <= i < |rest| ==> rest[i].now <= t0 + e.disconnectTimeout
    ensures var s := Run(Boot(names), e, inputs);
      Known(s, n) && s.dev[n].status == UP && s.links.users[n] == [d.from] && e.world(s.ran, LinkDown) == Exit(0) ==>
        var t := Run(s, e, [Input(t0, Some(d))] + rest);
        && Known(t, n) && t.links.users[n] == []
        && t.dev[n] == Device(DISCONNECTING, t0, s.dev[n].retries)
  {
    hide Run, Boot, Receive, Tick, Spares, Consistent, Linked;
    var s := Run(Boot(names), e, inputs);
    if Known(s, n) && s.dev[n].status == UP && s.links.users[n] == [d.from] && e.world(s.ran, LinkDown) == Exit(0) {
      var (i, left) := (Input(t0, Some(d)), s.dev[n].retries);
      LastLeaves(s, e, t0, d, n);
      TickWaits(Answered(s, e, i), e, t0, n, t0, left);
      RunWaits(Pass(s, e, i), e, rest, n, t0, left);
      RunFirst(s, e, i, rest);
    }
  }

  lemma RunFirst(s: State, e: Env, i: Input, rest: seq<Input>)
    requires Safe(s)
    ensures Run(s, e, [i] + rest) == Run(Pass(s, e, i), e, rest)
  {
    assert ([i] + rest)[1..] == rest;
  }

  /** And when ageing takes its last user: with the clock restarted by a link_down that exited 0, the
      device sweep of the same pass leaves it alone. */
  lemma AgedWaits(s: State, e: Env, now: int, n: Name)
    requires Safe(s) && n in s.dev && s.dev[n].status == UP && s.links.users[n] != []
    requires now <= now + e.disconnectTimeout
    ensures var (s1, rc) := AgeClients(s, e, now, s.links.clis);
      rc.Ok? && Stopped(s1.log, |s.log|, n) && !Swallowed(s1.log, |s.log|, n) && s1.links.users[n] == [] ==>
        && Known(Tick(s, e, now), n)
        && Tick(s, e, now).dev[n] == Device(DISCONNECTING, now, s.dev[n].retries)
        && Tick(s, e, now).links.users[n] == []
  {
    AgeClientsKeeps(s, e, now, s.links.clis);
    NoDups(s);
    assert Known(s, n);
    hide AgeClients, SweepDevices, Consistent, Linked, Stopped, Swallowed, Untouched;
    var (s1, rc) := AgeClients(s, e, now, s.links.clis);
    if rc.Ok? && Stopped(s1.log, |s.log|, n) && !Swallowed(s1.log, |s.log|, n) && s1.links.users[n] == [] {
      AgeClientsLeft(s, e, now, s.links.clis, n);
      NoDups(s1);
      SweepWaits(s1, e, now, s1.links.devs, n, now, s.dev[n].retries);
    }
  }

  // ---------- Where it ends ----------

  /** The first pass behind since + g_disconnect_timeout takes the device DOWN, also when the ageing of
      clients in front of the device sweep fails, as it does when a link_down returns -1: link_down may do
      anything here. */
  lemma TickDrains(s: State, e: Env, now: int, n: Name, since: int, left: int)
    requires Safe(s) && Known(s, n) && s.dev[n] == Device(DISCONNECTING, since, left) && s.links.users[n] == []
    requires now > since + e.disconnectTimeout
    requires Forceful(e) && forall k :: e.world(k, LinkUp).Exit?
    ensures var t := Tick(s, e, now);
      Known(t, n) && t.dev[n] == Device(DOWN, since, left) && t.links.users[n] == []
  {
    NoDups(s);
    AgeClientsKeeps(s, e, now, s.links.clis);
    hide AgeClients, SweepDevices, Consistent, Linked;
    AgeingWaits(s, e, now, s.links.clis, n, since, left);
    var s1 := AgeClients(s, e, now, s.links.clis).0;
    NoDups(s1);
    SweepDrains(s1, e, now, s1.links.devs, n, since, left);
  }

  lemma NoneFails(t: State, e: Env, n: Name, d: Device, errno: Errno)
    requires Forceful(e) && forall k :: e.world(k, LinkUp).Exit?
    ensures !LastFailed(t, e, n, Due(d), errno)
  {
    if t.ran > 0 {
      assert e.world(t.ran - 1, LinkUp).Exit? && e.world(t.ran - 1, LinkForceDown) == Exit(0);
    }
  }

  lemma SweepDrains(s: State, e: Env, now: int, ds: seq<Name>, n: Name, since: int, left: int)
    requires NoDup(ds) && (forall m :: m in ds ==> Known(s, m)) && n in ds
    requires Leaving(s, n, since, left) && now > since + e.disconnectTimeout
    requires Forceful(e) && forall k :: e.world(k, LinkUp).Exit?
    ensures var t := SweepDevices(s, e, now, ds).0;
      Known(t, n) && t.dev[n] == Device(DOWN, since, left) && t.links.users[n] == []
  {
    hide SweepDevices;
    var k := SweepEnds(s, e, now, ds);
    var t := SweepDevices(s, e, now, ds).0;
    if k < |ds| {
      NoneFails(t, e, ds[k], s.dev[ds[k]], SweepDevices(s, e, now, ds).1.errno);
    } else {
      var j :| 0 <= j < |ds| && ds[j] == n;
      assert Visited(s, t, e, now, ds[j]);
    }
  }

  /** The ageing comes in front of the device sweep: when the link_down of a device whose last user is aged
      out exits with another status than 0, and it has been UP for longer than g_disconnect_timeout, the
      same pass takes it DOWN. */
  lemma AgedDrains(s: State, e: Env, now: int, n: Name)
    requires Safe(s) && n in s.dev && s.dev[n].status == UP && s.links.users[n] != []
    requires now > s.dev[n].since + e.disconnectTimeout
    requires Forceful(e) && forall k :: e.world(k, LinkUp).Exit?
    ensures var (s1, rc) := AgeClients(s, e, now, s.links.clis);
      && rc.Ok? && !Stopped(s1.log, |s.log|, n) && !Swallowed(s1.log, |s.log|, n)
      && Known(s1, n) && s1.links.users[n] == [] ==>
        var t := Tick(s, e, now);
        Known(t, n) && t.dev[n] == Device(DOWN, s.dev[n].since, s.dev[n].retries) && t.links.users[n] == []
  {
    AgeClientsKeeps(s, e, now, s.links.clis);
    NoDups(s);
    assert Known(s, n);
    hide AgeClients, SweepDevices, Consistent, Linked, Stopped, Swallowed, Untouched;
    var (s1, rc) := AgeClients(s, e, now, s.links.clis);
    if rc.Ok? && !Stopped(s1.log, |s.log|, n) && !Swallowed(s1.log, |s.log|, n) && s1.links.users[n] == [] {
      AgeClientsLeft(s, e, now, s.links.clis, n);
      NoDups(s1);
      SweepDrains(s1, e, now, s1.links.devs, n, s.dev[n].since, s.dev[n].retries);
    }
  }

  /** The message comes in front of the ageing: its sender survives the pass, however long it had been
      silent, also when the sweep ends early. */
  lemma SenderStays(s: State, e: Env, i: Input)
    requires Safe(s) && i.datagram.Some? && "CLIENT " <= i.datagram.value.text && e.clientTimeout >= 0
    ensures i.datagram.value.from in Pass(s, e, i).heard
  {
    hide ParseRequest, AgeClients, SweepDevices, Serve, Consistent, Linked;
    ClientPrefix(i.datagram.value.text);
    var (d, h) := (i.datagram.value, Hear(s, i.now, i.datagram.value.from));
    HearKeeps(s, i.now, d.from);
    var s1 := Answered(s, e, i);
    assert s1.heard == h.heard && s1.heard[d.from] == i.now;
    HeardStays(s1, e, i.now, d.from);
  }

  lemma HeardStays(s: State, e: Env, now: int, a: Addr)
    requires Safe(s) && a in s.heard && now <= s.heard[a] + e.clientTimeout
    ensures a in Tick(s, e, now).heard
  {
    NoDups(s);
    hide AgeClients, SweepDevices, Consistent, Linked;
    var cs := s.links.clis;
    assert Present(s, a) && a in cs;
    var k := AgeEnds(s, e, now, cs);
    var j :| 0 <= j < |cs| && cs[j] == a;
    AgeClientsKeeps(s, e, now, cs);
    var s1 := AgeClients(s, e, now, cs).0;
    NoDups(s1);
    assert a in s1.heard;
  }
}
