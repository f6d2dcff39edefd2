/** Where the sweeps end, whatever the commands do. */
module Sweeping {
  import opened Collections
  import opened Manager
  import opened Safety
  import opened MainLoop
  import opened WellBehaved
  import opened Filtering
  import opened Emptying
  import opened Table

  // ---------- One action on an overdue device ----------

  /** The record behind an action that succeeded, and behind one that failed. */
  function Handled(d: Device, now: int, ok: bool): Device {
    match d.status
    case CONNECTING =>
      if !ok then Device(CONNECTING, d.since, d.retries - 1)
      else if d.retries >= 0 then Device(CONNECTING, now, d.retries - 1)
      else Device(DOWN, d.since, d.retries - 1)
    case DISCONNECTING => if ok then Device(DOWN, d.since, d.retries) else d
    case _ => d
  }

  /** From position `from` on, the log has a link_force_down of the device that exited 0. */
  ghost predicate Forced(log: seq<Event>, from: nat, n: Name) {
    exists i :: from <= i < |log| && log[i] == Ran(LinkForceDown, n, Exit(0))
  }

  /** Nothing but `n` differs. */
  ghost predicate Own(s: State, t: State, n: Name) {
    && s.log <= t.log && t.links.devs == s.links.devs
    && forall m :: Known(s, m) && m != n ==>
         Known(t, m) && t.dev[m] == s.dev[m] && t.links.users[m] == s.links.users[m] && Untouched(t.log, |s.log|, m)
  }

  /** `n` was acted on. */
  ghost predicate Acted(s: State, t: State, now: int, n: Name, ok: bool)
    requires Known(s, n) && Known(t, n)
  {
    && t.dev[n] == Handled(s.dev[n], now, ok)
    && t.links.users[n] == (if ok && Forced(t.log, |s.log|, n) then [] else s.links.users[n])
    && !Untouched(t.log, |s.log|, n)
  }

  lemma BecameActed(s: State, t: State, now: int, n: Name, f: Device, ran: Event, more: seq<Event>, wiped: bool,
                    ok: bool)
    requires Known(s, n) && Became(s, t, n, f, 1, [ran] + more, wiped) && f == Handled(s.dev[n], now, ok)
    requires ran.Ran? && ran.name == n && (wiped ==> ok) && (wiped <==> ran == Ran(LinkForceDown, n, Exit(0)))
    requires |more| <= 1 && forall i :: 0 <= i < |more| ==> more[i].Moved?
    ensures Own(s, t, n) && Known(t, n) && Acted(s, t, now, n, ok)
  {
    assert t.log[|s.log|] == ran;
    assert wiped ==> t.log[|s.log|] == Ran(LinkForceDown, n, Exit(0));
  }

  lemma RetryActs(s: State, e: Env, now: int, n: Name)
    requires Known(s, n) && s.dev[n].status == CONNECTING
    ensures var (t, rc) := Attempt(s, e, now, n);
      && Own(s, t, n) && Acted(s, t, now, n, rc.Ok?)
      && (rc.Err? ==> LastFailed(t, e, n, Due(s.dev[n]), rc.errno))
  {
    hide Attempt, Own, Acted;
    var ((t, rc), d) := (Attempt(s, e, now, n), s.dev[n]);
    if d.retries >= 0 {
      AttemptWithSome(s, e, now, n);
      var ran := Ran(LinkUp, n, e.world(s.ran, LinkUp));
      var more := if rc.Err? then [] else [Moved(n, CONNECTING, CONNECTING)];
      assert t.log == s.log + ([ran] + more);
      BecameActed(s, t, now, n, t.dev[n], ran, more, false, rc.Ok?);
    } else {
      AttemptWithNone(s, e, now, n);
      var r := e.world(s.ran, LinkForceDown);
      var more := if rc.Err? then [] else [Moved(n, CONNECTING, DOWN)];
      assert t.log == s.log + ([Ran(LinkForceDown, n, r)] + more);
      BecameActed(s, t, now, n, t.dev[n], Ran(LinkForceDown, n, r), more, r == Exit(0), rc.Ok?);
    }
  }

  /** The command that the device gets when its time is up. */
  function Due(d: Device): Command {
    if d.status == CONNECTING && d.retries >= 0 then LinkUp else LinkForceDown
  }

  /** The last command was `cmd` on the device, and it returned -1 with this errno. */
  predicate LastFailed(t: State, e: Env, n: Name, cmd: Command, errno: Errno) {
    && t.ran > 0 && e.world(t.ran - 1, cmd) == Failed(errno)
    && t.log != [] && t.log[|t.log| - 1] == Ran(cmd, n, Failed(errno))
  }

  lemma GiveUpActs(s: State, e: Env, now: int, n: Name)
    requires Known(s, n) && s.dev[n].status == DISCONNECTING
    ensures var (t, rc) := Alter(s, e, now, n, DISCONNECTING);
      && Own(s, t, n) && Acted(s, t, now, n, rc.Ok?)
      && (rc.Err? ==> LastFailed(t, e, n, Due(s.dev[n]), rc.errno))
  {
    hide Alter, Own, Acted;
    var (t, rc) := Alter(s, e, now, n, DISCONNECTING);
    DisconnectingFromOther(s, e, now, n);
    var r := e.world(s.ran, LinkForceDown);
    var more := if rc.Err? then [] else [Moved(n, DISCONNECTING, DOWN)];
    assert t.log == s.log + ([Ran(LinkForceDown, n, r)] + more);
    BecameActed(s, t, now, n, t.dev[n], Ran(LinkForceDown, n, r), more, r == Exit(0), rc.Ok?);
  }

  lemma OverdueActs(s: State, e: Env, now: int, n: Name)
    requires Known(s, n) && (s.dev[n].status == CONNECTING || s.dev[n].status == DISCONNECTING)
    ensures var (t, rc) := Alter(s, e, now, n, s.dev[n].status);
      && Own(s, t, n) && Acted(s, t, now, n, rc.Ok?)
      && (rc.Err? ==> LastFailed(t, e, n, Due(s.dev[n]), rc.errno))
  {
    hide Own, Acted, Attempt, ToDisconnecting;
    if s.dev[n].status == CONNECTING {
      RetryActs(s, e, now, n);
      ConnectingFromConnecting(s, e, now, n);
    } else {
      GiveUpActs(s, e, now, n);
    }
  }

  // ---------- The device sweep ----------

  /** The device's time is up. */
  predicate TimeUp(d: Device, e: Env, now: int) {
    || (d.status == CONNECTING && now > d.since + e.connectTimeout)
    || (d.status == DISCONNECTING && now > d.since + e.disconnectTimeout)
  }

  /** The sweep acted on the device if its time was up, and passed it by else. */
  ghost predicate Visited(s: State, t: State, e: Env, now: int, n: Name)
    requires Known(s, n) && Known(t, n)
  {
    if TimeUp(s.dev[n], e, now) then Acted(s, t, now, n, true) else PassedBy(s, t, n)
  }

  ghost predicate PassedBy(s: State, t: State, n: Name)
    requires Known(s, n) && Known(t, n)
  {
    t.dev[n] == s.dev[n] && t.links.users[n] == s.links.users[n] && Untouched(t.log, |s.log|, n)
  }

  lemma {:induction false} SweepOwn(s: State, e: Env, now: int, ds: seq<Name>)
    requires forall n :: n in ds ==> Known(s, n)
    ensures s.log <= SweepDevices(s, e, now, ds).0.log
    ensures forall n :: Known(s, n) && n !in ds ==> PassedBy(s, SweepDevices(s, e, now, ds).0, n)
    decreases |ds|
  {
    hide Alter, Acted;
    if ds == [] {
    } else {
      assert Known(s, ds[0]) && forall n :: n in ds[1..] ==> Known(s, n) && n in ds;
      if Overdue(s, e, now, ds[0]) {
        OverdueActs(s, e, now, ds[0]);
        var (s1, rc) := Alter(s, e, now, ds[0], s.dev[ds[0]].status);
        if rc.Ok? {
          SweepOwn(s1, e, now, ds[1..]);
          var t := SweepDevices(s1, e, now, ds[1..]).0;
          forall n | Known(s, n) && n !in ds ensures PassedBy(s, t, n) {
            SwallowedLater(s.log, s1.log, t.log, n);
            assert PassedBy(s1, t, n);
          }
        }
      } else {
        SweepOwn(s, e, now, ds[1..]);
      }
    }
  }

  lemma ActedThen(s: State, s1: State, t: State, now: int, n: Name, ok: bool)
    requires Known(s, n) && Known(s1, n) && Known(t, n) && s.log <= s1.log <= t.log
    requires Acted(s, s1, now, n, ok) && PassedBy(s1, t, n)
    ensures Acted(s, t, now, n, ok)
  {
    ForcedMore(s.log, s1.log, t.log, n);
    assert exists i :: |s.log| <= i < |s1.log| && s1.log[i].Ran? && s1.log[i].name == n;
    var i :| |s.log| <= i < |s1.log| && s1.log[i].Ran? && s1.log[i].name == n;
    assert t.log[i] == s1.log[i];
  }

  lemma ForcedMore(a: seq<Event>, b: seq<Event>, c: seq<Event>, n: Name)
    requires a <= b <= c && Untouched(c, |b|, n)
    ensures Forced(c, |a|, n) <==> Forced(b, |a|, n)
  {
    if Forced(b, |a|, n) {
      var i :| |a| <= i < |b| && b[i] == Ran(LinkForceDown, n, Exit(0));
      assert c[i] == b[i];
    }
  }

  lemma ForcedLater(a: seq<Event>, b: seq<Event>, c: seq<Event>, n: Name)
    requires a <= b <= c && Untouched(b, |a|, n)
    ensures Forced(c, |a|, n) <==> Forced(c, |b|, n)
  {
    forall i | |a| <= i < |b| ensures c[i] == b[i] {
    }
  }

  /** A device that the first action did not concern. */
  lemma VisitedThen(s: State, s1: State, t: State, e: Env, now: int, n: Name, m: Name)
    requires Known(s, n) && Own(s, s1, m) && n != m && Known(t, n) && s1.log <= t.log
    ensures Known(s1, n)
    ensures forall ok :: Acted(s1, t, now, n, ok) ==> Acted(s, t, now, n, ok)
    ensures Visited(s1, t, e, now, n) ==> Visited(s, t, e, now, n)
    ensures PassedBy(s1, t, n) ==> PassedBy(s, t, n)
  {
    SwallowedLater(s.log, s1.log, t.log, n);
    ForcedLater(s.log, s1.log, t.log, n);
  }

  /** The sweep from `s` to `t` visited the devices in front of position `k`, failed at that one, and did
      not look at the devices behind it; it returned 0 if and only if it visited all of them. */
  ghost predicate EndedAt(s: State, t: State, rc: Rc, e: Env, now: int, ds: seq<Name>, k: nat) {
    && (rc.Ok? <==> k == |ds|) && k <= |ds|
    && (forall j :: 0 <= j < |ds| ==> Known(s, ds[j]) && Known(t, ds[j]))
    && (forall j :: 0 <= j < k ==> Visited(s, t, e, now, ds[j]))
    && (k < |ds| ==>
         TimeUp(s.dev[ds[k]], e, now) && Acted(s, t, now, ds[k], false)
         && LastFailed(t, e, ds[k], Due(s.dev[ds[k]]), rc.errno))
    && (forall j :: k < j < |ds| ==> PassedBy(s, t, ds[j]))
  }

  lemma EndsBehindVisit(s: State, s1: State, t: State, rc: Rc, e: Env, now: int, ds: seq<Name>, k: nat)
    requires ds != [] && NoDup(ds) && (forall n :: n in ds ==> Known(s, n))
    requires Known(s, ds[0]) && TimeUp(s.dev[ds[0]], e, now) && Known(s1, ds[0])
    requires Own(s, s1, ds[0]) && Acted(s, s1, now, ds[0], true)
    requires Known(t, ds[0]) && s1.log <= t.log && PassedBy(s1, t, ds[0]) && EndedAt(s1, t, rc, e, now, ds[1..], k)
    ensures EndedAt(s, t, rc, e, now, ds, k + 1)
  {
    ActedThen(s, s1, t, now, ds[0], true);
    hide Acted, PassedBy;
    var (n, more) := (ds[0], ds[1..]);
    assert n in ds;
    forall j | 1 <= j < |ds|
      ensures Known(s, ds[j]) && Known(t, ds[j])
      ensures j < k + 1 ==> Visited(s, t, e, now, ds[j])
      ensures j == k + 1 ==> TimeUp(s.dev[ds[j]], e, now) && Acted(s, t, now, ds[j], false)
      ensures j > k + 1 ==> PassedBy(s, t, ds[j])
    {
      assert ds[j] == more[j - 1] && ds[j] in ds;
      VisitedThen(s, s1, t, e, now, ds[j], n);
    }
  }

  lemma EndsBehindPass(s: State, t: State, rc: Rc, e: Env, now: int, ds: seq<Name>, k: nat)
    requires ds != [] && Known(s, ds[0]) && Known(t, ds[0]) && !TimeUp(s.dev[ds[0]], e, now)
    requires PassedBy(s, t, ds[0]) && EndedAt(s, t, rc, e, now, ds[1..], k)
    ensures EndedAt(s, t, rc, e, now, ds, k + 1)
  {
    hide Acted, PassedBy;
    assert forall j :: 1 <= j < |ds| ==> ds[j] == ds[1..][j - 1];
  }

  /** timeout_old_devices over `ds`: it visits the devices in their order until an action fails, at
      position `k`; the devices behind that one are not looked at.  It returns 0 if and only if it
      has visited all of them. */
  lemma {:induction false} SweepEnds(s: State, e: Env, now: int, ds: seq<Name>) returns (k: nat)
    requires NoDup(ds) && forall n :: n in ds ==> Known(s, n)
    ensures k <= |ds| && forall j :: 0 <= j < |ds| ==> Known(s, ds[j])
    ensures var (t, rc) := SweepDevices(s, e, now, ds);
      && s.log <= t.log && EndedAt(s, t, rc, e, now, ds, k)
      && (rc.Ok? <==> k == |ds|)
      && (forall j :: 0 <= j < k ==> Visited(s, t, e, now, ds[j]))
      && (k < |ds| ==>
           TimeUp(s.dev[ds[k]], e, now) && Acted(s, t, now, ds[k], false)
           && LastFailed(t, e, ds[k], Due(s.dev[ds[k]]), rc.errno))
      && (forall j :: k < j < |ds| ==> PassedBy(s, t, ds[j]))
  {
    k := SweepEndsAt(s, e, now, ds);
    hide SweepDevices, Acted, PassedBy, Visited, TimeUp, LastFailed;
  }

  lemma {:induction false} SweepEndsAt(s: State, e: Env, now: int, ds: seq<Name>) returns (k: nat)
    requires NoDup(ds) && forall n :: n in ds ==> Known(s, n)
    ensures var (t, rc) := SweepDevices(s, e, now, ds); s.log <= t.log && EndedAt(s, t, rc, e, now, ds, k)
    decreases |ds|
  {
    hide Alter, Acted, Untouched, Handled, EndedAt;
    if ds == [] {
      k := 0;
      EndsAtOnce(s, s, Ok, e, now, ds);
    } else {
      var (n, more) := (ds[0], ds[1..]);
      assert NoDup(more) && n !in more && Known(s, n) && forall m :: m in more ==> Known(s, m);
      var (t, rc) := SweepDevices(s, e, now, ds);
      if Overdue(s, e, now, n) {
        OverdueActs(s, e, now, n);
        var (s1, rc1) := Alter(s, e, now, n, s.dev[n].status);
        if rc1.Err? {
          k := 0;
          EndsAtOnce(s, t, rc, e, now, ds);
        } else {
          SweepOwn(s1, e, now, more);
          var k' := SweepEndsAt(s1, e, now, more);
          k := k' + 1;
          EndsBehindVisit(s, s1, t, rc, e, now, ds, k');
        }
      } else {
        SweepOwn(s, e, now, more);
        var k' := SweepEndsAt(s, e, now, more);
        k := k' + 1;
        EndsBehindPass(s, t, rc, e, now, ds, k');
      }
    }
  }

  lemma EndsAtOnce(s: State, t: State, rc: Rc, e: Env, now: int, ds: seq<Name>)
    requires (rc.Ok? <==> ds == []) && NoDup(ds) && forall n :: n in ds ==> Known(s, n) && Known(t, n)
    requires ds != [] ==>
      && Known(s, ds[0]) && Known(t, ds[0]) && TimeUp(s.dev[ds[0]], e, now)
      && Own(s, t, ds[0]) && Acted(s, t, now, ds[0], false)
      && LastFailed(t, e, ds[0], Due(s.dev[ds[0]]), rc.errno)
    ensures EndedAt(s, t, rc, e, now, ds, 0)
  {
    hide Acted, Untouched;
    assert forall j :: 0 <= j < |ds| ==> ds[j] in ds;
    forall j | 1 <= j < |ds| ensures PassedBy(s, t, ds[j]) {
      assert ds[j] in ds && ds[j] != ds[0];
    }
  }

  lemma OnlyLinkUpFails(s: State, t: State, e: Env, now: int, n: Name, errno: Errno)
    requires Forceful(e) && Known(s, n) && Known(t, n) && TimeUp(s.dev[n], e, now) && Acted(s, t, now, n, false)
    requires LastFailed(t, e, n, Due(s.dev[n]), errno)
    ensures Retried(s, t, e, now, n, errno)
  {
    assert e.world(t.ran - 1, LinkForceDown) == Exit(0);
  }

  /** The sweep's last command was a link_up of the device that returned -1; it cost an attempt. */
  ghost predicate Retried(s: State, t: State, e: Env, now: int, n: Name, errno: Errno)
    requires Known(s, n) && Known(t, n)
  {
    var (d, f) := (s.dev[n], t.dev[n]);
    && d.status == CONNECTING && d.retries >= 0 && now > d.since + e.connectTimeout
    && f == Device(CONNECTING, d.since, d.retries - 1) && t.links.users[n] == s.links.users[n]
    && t.log != [] && t.log[|t.log| - 1] == Ran(LinkUp, n, Failed(errno))
  }

  /** When link_force_down always exits 0, only a link_up that returns -1 ends the sweep early. */
  lemma SweepEndsForceful(s: State, e: Env, now: int, ds: seq<Name>) returns (k: nat)
    requires Forceful(e) && NoDup(ds) && forall n :: n in ds ==> Known(s, n)
    ensures k <= |ds| && forall j :: 0 <= j < |ds| ==> Known(s, ds[j])
    ensures var (t, rc) := SweepDevices(s, e, now, ds);
      && (rc.Ok? <==> k == |ds|)
      && (forall j :: 0 <= j < k ==> Visited(s, t, e, now, ds[j]))
      && (k < |ds| ==> Retried(s, t, e, now, ds[k], rc.errno))
      && (forall j :: k < j < |ds| ==> PassedBy(s, t, ds[j]))
  {
    hide SweepDevices, PassedBy, Visited, Acted, TimeUp, LastFailed, Forceful, Retried, EndedAt, Due;
    k := SweepEnds(s, e, now, ds);
    var (t, rc) := SweepDevices(s, e, now, ds);
    if k < |ds| {
      OnlyLinkUpFails(s, t, e, now, ds[k], rc.errno);
    }
  }

  // ---------- The client sweep ----------

  lemma BecameOwn(s: State, t: State, n: Name, f: Device, c: nat, events: seq<Event>, wiped: bool)
    requires Known(s, n) && Became(s, t, n, f, c, events, wiped)
    requires forall i :: 0 <= i < |events| ==> events[i].name == n
    ensures Own(s, t, n)
  {
  }

  lemma DisconnectingOwn(s: State, e: Env, now: int, n: Name)
    requires Known(s, n)
    ensures Own(s, Alter(s, e, now, n, DISCONNECTING).0, n)
  {
    hide Alter, Own;
    var ((t, rc), d) := (Alter(s, e, now, n, DISCONNECTING), s.dev[n]);
    if d.status == DOWN {
      DisconnectingFromDown(s, e, now, n);
      assert s.dev[n := d] == s.dev && s.log + [] == s.log;
      BecameOwn(s, s, n, d, 0, [], false);
    } else if d.status == UP {
      DisconnectingFromUp(s, e, now, n);
      var ran := Ran(LinkDown, n, e.world(s.ran, LinkDown));
      BecameOwn(s, t, n, t.dev[n], 1, if rc.Err? then [ran] else [ran, Moved(n, UP, DISCONNECTING)], false);
    } else {
      DisconnectingFromOther(s, e, now, n);
      var r := e.world(s.ran, LinkForceDown);
      var (ran, moved) := (Ran(LinkForceDown, n, r), Moved(n, d.status, t.dev[n].status));
      BecameOwn(s, t, n, t.dev[n], 1, if rc.Err? then [ran] else [ran, moved], r == Exit(0));
    }
  }

  /** A disconnection takes the client out of the device's list, and concerns no other device. */
  lemma DisconnectOwn(s: State, e: Env, now: int, a: Addr, n: Name)
    requires Known(s, n) && Present(s, a)
    ensures var t := Disconnect(s, e, now, a, n).0;
      Own(s, t, n) && s.log <= t.log && t.links.users[n] == Without(s.links.users[n], a)
  {
    DisconnectUsersOnly(s, e, now, a, n);
    if a in s.links.users[n] && Without(s.links.users[n], a) == [] {
      var s1 := s.(links := s.links.(users := s.links.users[n := []]));
      DisconnectingOwn(s1, e, now, n);
      DisconnectTheLast(s, e, now, a, n);
    } else {
      DisconnectOther(s, e, now, a, n);
    }
    hide Disconnect, Alter, Without;
  }

  lemma DisconnectUsersOnly(s: State, e: Env, now: int, a: Addr, n: Name)
    requires Known(s, n) && Present(s, a)
    ensures Disconnect(s, e, now, a, n).0.links.users == s.links.users[n := Without(s.links.users[n], a)]
  {
    var s1 := s.(links := DropUser(s.links, a, n));
    if s1.links.users[n] == [] {
      AlterUsers(s1, e, now, n);
    }
    hide Alter;
  }

  /** The last thing that happened is the disconnection of the client from the device, with its result. */
  ghost predicate EndsWith(e: Env, now: int, a: Addr, n: Name, t: State, rc: Rc) {
    exists s :: Known(s, n) && Present(s, a) && Disconnect(s, e, now, a, n) == (t, rc)
  }

  lemma DisconnectEnds(s: State, e: Env, now: int, a: Addr, n: Name)
    requires Known(s, n) && Present(s, a)
    ensures var (t, rc) := Disconnect(s, e, now, a, n); EndsWith(e, now, a, n, t, rc)
  {
    hide Disconnect;
  }

  /** remove_client_from_all_devices over `ds`: it takes the client out of the lists in their order, until
      a disconnection fails with another error than ENODEV, at position `k`; the devices behind that one
      are not looked at. */
  lemma {:induction false} RemoveEnds(s: State, e: Env, now: int, a: Addr, ds: seq<Name>) returns (k: nat)
    requires Present(s, a) && NoDup(ds) && forall n :: n in ds ==> Known(s, n)
    ensures k <= |ds| && forall j :: 0 <= j < |ds| ==> Known(s, ds[j])
    ensures var (t, rc) := RemoveFromAll(s, e, now, a, ds);
      && (rc.Ok? <==> k == |ds|) && (rc.Err? ==> rc.errno != ENODEV)
      && (forall j :: 0 <= j <= k && j < |ds| ==> t.links.users[ds[j]] == Without(s.links.users[ds[j]], a))
      && (forall j :: k < j < |ds| ==> PassedBy(s, t, ds[j]))
      && (forall n :: Known(s, n) && n !in ds ==> PassedBy(s, t, n))
      && s.log <= t.log
      && (k < |ds| ==> EndsWith(e, now, a, ds[k], t, rc))
    decreases |ds|
  {
    hide Disconnect, Untouched, Without, EndsWith, Own, PassedBy;
    assert forall j :: 0 <= j < |ds| ==> ds[j] in ds;
    if ds == [] {
      k := 0;
      PassedBySelf(s);
    } else {
      var (n, more) := (ds[0], ds[1..]);
      assert NoDup(more) && n !in more && Known(s, n) && forall m :: m in more ==> Known(s, m) && m in ds;
      var t := RemoveFromAll(s, e, now, a, ds).0;
      var (s1, rc) := Disconnect(s, e, now, a, n);
      DisconnectOwn(s, e, now, a, n);
      if rc.Err? && rc.errno != ENODEV {
        k := 0;
        DisconnectEnds(s, e, now, a, n);
        OwnPasses(s, t, ds);
      } else {
        var k' := RemoveEnds(s1, e, now, a, more);
        k := k' + 1;
        RemovedThen(s, s1, t, a, ds, k');
      }
    }
  }

  lemma RemovedThen(s: State, s1: State, t: State, a: Addr, ds: seq<Name>, k: nat)
    requires ds != [] && NoDup(ds) && (forall n :: n in ds ==> Known(s, n)) && Known(s, ds[0]) && Known(s1, ds[0])
    requires Own(s, s1, ds[0]) && s1.links.users[ds[0]] == Without(s.links.users[ds[0]], a) && s1.log <= t.log
    requires forall n :: Known(s1, n) && n !in ds[1..] ==> Known(t, n) && PassedBy(s1, t, n)
    requires forall j :: 0 <= j < |ds| - 1 ==> Known(s1, ds[1..][j]) && Known(t, ds[1..][j])
    requires forall j :: 0 <= j <= k && j < |ds| - 1 ==>
      var m := ds[1..][j];
      m in t.links.users && m in s1.links.users && t.links.users[m] == Without(s1.links.users[m], a)
    requires forall j :: k < j < |ds| - 1 ==> PassedBy(s1, t, ds[1..][j])
    ensures forall n :: Known(s, n) && n !in ds ==> Known(t, n) && PassedBy(s, t, n)
    ensures forall j :: 0 <= j < |ds| ==> Known(s, ds[j]) && Known(t, ds[j])
    ensures forall j :: 0 <= j <= k + 1 && j < |ds| ==>
      var m := ds[j]; m in t.links.users && m in s.links.users && t.links.users[m] == Without(s.links.users[m], a)
    ensures forall j :: k + 1 < j < |ds| ==> PassedBy(s, t, ds[j])
  {
    hide Without, Untouched;
    var (n, more) := (ds[0], ds[1..]);
    assert n in ds && n !in more && PassedBy(s1, t, n);
    forall m | Known(s, m) && m !in ds ensures Known(t, m) && PassedBy(s, t, m) {
      assert m !in more && m != n;
      PassedThen(s, s1, t, m, n);
    }
    forall j | 1 <= j < |ds|
      ensures Known(s, ds[j]) && Known(t, ds[j])
      ensures j <= k + 1 ==> t.links.users[ds[j]] == Without(s.links.users[ds[j]], a)
      ensures j > k + 1 ==> PassedBy(s, t, ds[j])
    {
      assert ds[j] == more[j - 1] && ds[j] in ds;
      if j > k + 1 { PassedThen(s, s1, t, ds[j], n); }
    }
  }

  lemma OwnPasses(s: State, t: State, ds: seq<Name>)
    requires ds != [] && NoDup(ds) && (forall n :: n in ds ==> Known(s, n)) && Own(s, t, ds[0])
    ensures forall j :: 0 < j < |ds| ==> Known(s, ds[j]) && Known(t, ds[j]) && PassedBy(s, t, ds[j])
    ensures forall n :: Known(s, n) && n !in ds ==> Known(t, n) && PassedBy(s, t, n)
  {
    hide Untouched;
    assert ds[0] in ds;
    forall j | 0 < j < |ds| ensures Known(s, ds[j]) && Known(t, ds[j]) && PassedBy(s, t, ds[j]) {
      assert ds[j] in ds && ds[j] != ds[0];
    }
  }

  lemma PassedBySelf(s: State)
    ensures forall n :: Known(s, n) ==> PassedBy(s, s, n)
  {
  }

  lemma PassedThen(s: State, s1: State, t: State, n: Name, m: Name)
    requires Known(s, n) && Own(s, s1, m) && n != m && Known(s1, n) && Known(t, n) && s1.log <= t.log
    requires PassedBy(s1, t, n)
    ensures PassedBy(s, t, n)
  {
    SwallowedLater(s.log, s1.log, t.log, n);
  }

  /** What is left of other clients when one is taken out of the lists, all the way or in part. */
  lemma RemoveOthers(s: State, e: Env, now: int, a: Addr, ds: seq<Name>, b: Addr, n: Name)
    requires Present(s, a) && NoDup(ds) && (forall m :: m in ds ==> Known(s, m)) && Known(s, n) && b != a
    ensures var t := RemoveFromAll(s, e, now, a, ds).0;
      b in t.links.users[n] <==> b in s.links.users[n]
  {
    hide RemoveFromAll;
    var k := RemoveEnds(s, e, now, a, ds);
    if n in ds {
      var j :| 0 <= j < |ds| && ds[j] == n;
    }
  }

  /** The walk's visit to one client. */
  function AgeOne(s: State, e: Env, now: int, a: Addr): (State, Rc)
    requires Present(s, a) && forall n :: n in s.links.devs ==> Known(s, n)
  {
    if !Silent(s, e, now, a) then (s, Ok)
    else
      var (t, rc) := RemoveFromAll(s, e, now, a, s.links.devs);
      if rc.Err? then (t, rc) else (Forget(t, a), Ok)
  }

  ghost predicate Walkable(s: State, cs: seq<Addr>) {
    && NoDup(cs) && (forall a :: a in cs ==> Present(s, a))
    && NoDup(s.links.devs) && (forall n :: n in s.links.devs ==> Known(s, n))
  }

  lemma AgeOneThen(s: State, e: Env, now: int, cs: seq<Addr>)
    requires Walkable(s, cs) && cs != []
    ensures Present(s, cs[0])
    ensures var ((t, rc), a, more) := (AgeOne(s, e, now, cs[0]), cs[0], cs[1..]);
      && Walkable(t, more) && a !in more
      && AgeClients(s, e, now, cs) == (if rc.Err? then (t, rc) else AgeClients(t, e, now, more))
      && (forall b :: b in s.heard && b != a ==> b in t.heard && t.heard[b] == s.heard[b])
      && (a in t.heard <==> rc.Err? || now <= s.heard[a] + e.clientTimeout)
      && (rc.Err? ==> rc.errno != ENODEV && now > s.heard[a] + e.clientTimeout)
  {
    hide RemoveFromAll;
    var (a, more) := (cs[0], cs[1..]);
    assert a in cs && Present(s, a) && NoDup(more) && a !in more;
    assert forall b :: b in more ==> Present(s, b) && b in cs && b != a;
    RemoveFails(s, e, now, a);
  }

  lemma RemoveFails(s: State, e: Env, now: int, a: Addr)
    requires Present(s, a) && NoDup(s.links.devs) && forall n :: n in s.links.devs ==> Known(s, n)
    ensures RemoveFromAll(s, e, now, a, s.links.devs).1 != Err(ENODEV)
  {
    hide RemoveFromAll;
    var k := RemoveEnds(s, e, now, a, s.links.devs);
  }

  /** timeout_old_clients over `cs`: it ages out the clients that have been silent for longer than
      g_client_timeout, in their order, until the removal of one fails, at position `k`; that client and
      those behind it stay, and those behind it are not looked at. */
  lemma {:induction false} AgeEnds(s: State, e: Env, now: int, cs: seq<Addr>) returns (k: nat)
    requires Walkable(s, cs)
    ensures k <= |cs| && forall j :: 0 <= j < |cs| ==> Present(s, cs[j])
    ensures var (t, rc) := AgeClients(s, e, now, cs);
      && (rc.Ok? <==> k == |cs|) && (rc.Err? ==> rc.errno != ENODEV)
      && (forall j :: 0 <= j < k ==> (cs[j] in t.heard <==> now <= s.heard[cs[j]] + e.clientTimeout))
      && (forall j :: k <= j < |cs| ==> cs[j] in t.heard)
      && (k < |cs| ==>
           && now > s.heard[cs[k]] + e.clientTimeout
           && Walkable(s, cs[..k + 1]) && AgeClients(s, e, now, cs[..k + 1]) == (t, rc))
    decreases |cs|
  {
    hide AgeOne;
    assert forall j :: 0 <= j < |cs| ==> cs[j] in cs;
    if cs == [] {
      k := 0;
    } else {
      AgeOneThen(s, e, now, cs);
      var ((s1, rc), a, more) := (AgeOne(s, e, now, cs[0]), cs[0], cs[1..]);
      if rc.Err? {
        k := 0;
        FirstOf(s, cs, 0);
        AgeOneThen(s, e, now, cs[..1]);
      } else {
        var k' := AgeEnds(s1, e, now, more);
        k := k' + 1;
        if k < |cs| {
          FirstOf(s, cs, k);
          AgeOneThen(s, e, now, cs[..k + 1]);
        }
        hide AgeClients, Walkable;
        AgedElse(s1, e, now, more, a);
        forall j | 1 <= j < |cs| ensures cs[j] == more[j - 1] && cs[j] in more && cs[j] != a {
        }
      }
    }
  }

  lemma FirstOf(s: State, cs: seq<Addr>, k: nat)
    requires Walkable(s, cs) && k < |cs|
    ensures Walkable(s, cs[..k + 1]) && cs[..k + 1][0] == cs[0] && cs[..k + 1][1..] == cs[1..][..k]
  {
    assert forall a :: a in cs[..k + 1] ==> a in cs;
  }

  /** Ageing does not bring clients back, nor remove one that it does not visit. */
  lemma {:induction false} AgedElse(s: State, e: Env, now: int, cs: seq<Addr>, a: Addr)
    requires Walkable(s, cs) && a !in cs
    ensures a in AgeClients(s, e, now, cs).0.heard <==> a in s.heard
    decreases |cs|
  {
    hide RemoveFromAll;
    if cs == [] {
    } else {
      AgeOneThen(s, e, now, cs);
      var (t, rc) := AgeOne(s, e, now, cs[0]);
      assert cs[0] in cs;
      if rc.Ok? {
        AgedElse(t, e, now, cs[1..], a);
      }
    }
  }

  /** The lists that a client that is not to be visited is in, however far the walk gets. */
  lemma {:induction false} AgeOthers(s: State, e: Env, now: int, cs: seq<Addr>, b: Addr, n: Name)
    requires NoDup(cs) && (forall a :: a in cs ==> Present(s, a)) && NoDup(s.links.devs)
    requires (forall m :: m in s.links.devs ==> Known(s, m)) && Known(s, n) && b !in cs
    ensures var t := AgeClients(s, e, now, cs).0;
      n in t.links.users && (b in t.links.users[n] <==> b in s.links.users[n])
    decreases |cs|
  {
    hide RemoveFromAll;
    if cs == [] {
    } else {
      var (a, more) := (cs[0], cs[1..]);
      assert a in cs && Present(s, a) && forall c :: c in more ==> Present(s, c) && c in cs && c != a;
      if !Silent(s, e, now, a) {
        AgeOthers(s, e, now, more, b, n);
      } else {
        RemoveOthers(s, e, now, a, s.links.devs, b, n);
        if RemoveFromAll(s, e, now, a, s.links.devs).1.Ok? {
          AgeOthers(Forget(RemoveFromAll(s, e, now, a, s.links.devs).0, a), e, now, more, b, n);
        }
      }
    }
  }
}
