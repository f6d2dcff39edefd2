/** Command traces and status changes over whole runs, whatever the shell commands do. */
module Trace {
  import opened Collections
  import opened Manager
  import opened Safety
  import opened MainLoop

  // ---------- An induction principle for runs ----------

  /** Nothing but list entries, retry counters and hearing times differ. */
  ghost predicate Quiet(s: State, t: State) {
    && t.log == s.log && t.ran == s.ran && t.dev.Keys == s.dev.Keys
    && forall n :: n in s.dev ==> t.dev[n].status == s.dev[n].status && t.dev[n].since == s.dev[n].since
  }

  /** Kept by every status change but an ISUP, at any of the given times and with any outcome, and
      by quiet edits. */
  ghost predicate Closed(P: State -> bool, e: Env, times: set<int>) {
    && (forall s, now, n, to :: now in times && to != UP && P(s) && Known(s, n) ==> P(Alter(s, e, now, n, to).0))
    && (forall s, t :: P(s) && Quiet(s, t) ==> P(t))
  }

  /** Kept by an ISUP. */
  ghost predicate ClosedUp(P: State -> bool, e: Env, times: set<int>) {
    forall s, now, n :: now in times && P(s) && Known(s, n) ==> P(Alter(s, e, now, n, UP).0)
  }

  lemma ConnectClosed(P: State -> bool, times: set<int>, s: State, e: Env, now: int, a: Addr, n: Name)
    requires Closed(P, e, times) && now in times && P(s) && Known(s, n) && Present(s, a)
    ensures P(Connect(s, e, now, a, n).0)
  {
    var s0 := SetRetries(s, n, e.retries);
    assert Quiet(s, s0);
    var s1 := if s.links.users[n] == [] then Alter(s0, e, now, n, CONNECTING).0 else s;
    assert Quiet(s1, s1.(links := AddWant(AddUser(s1.links, a, n), a, n)));
  }

  lemma DisconnectClosed(P: State -> bool, times: set<int>, s: State, e: Env, now: int, a: Addr, n: Name)
    requires Closed(P, e, times) && now in times && P(s) && Known(s, n) && Present(s, a)
    ensures P(Disconnect(s, e, now, a, n).0)
  {
    var s1 := s.(links := DropUser(s.links, a, n));
    assert Quiet(s, s1);
    var s2 := if a in s.links.users[n] && s1.links.users[n] == []
              then Alter(s1, e, now, n, DISCONNECTING).0 else s1;
    assert Quiet(s2, s2.(links := DropWant(s2.links, a, n)));
  }

  lemma {:induction false} RemoveFromAllClosed(P: State -> bool, times: set<int>, s: State, e: Env, now: int, a: Addr,
                                               ds: seq<Name>)
    requires Closed(P, e, times) && now in times && P(s) && Present(s, a) && forall n :: n in ds ==> Known(s, n)
    ensures P(RemoveFromAll(s, e, now, a, ds).0)
    decreases |ds|
  {
    if ds == [] {
    } else {
      assert Known(s, ds[0]) && forall n :: n in ds[1..] ==> Known(s, n);
      DisconnectClosed(P, times, s, e, now, a, ds[0]);
      var (s1, rc) := Disconnect(s, e, now, a, ds[0]);
      if rc.Ok? || rc.errno == ENODEV {
        RemoveFromAllClosed(P, times, s1, e, now, a, ds[1..]);
      }
    }
  }

  lemma {:induction false} AgeClientsClosed(P: State -> bool, times: set<int>, s: State, e: Env, now: int,
                                            cs: seq<Addr>)
    requires Closed(P, e, times) && now in times && P(s) && NoDup(cs) && forall a :: a in cs ==> Present(s, a)
    requires forall n :: n in s.links.devs ==> Known(s, n)
    ensures P(AgeClients(s, e, now, cs).0)
    decreases |cs|
  {
    if cs == [] {
    } else {
      assert Present(s, cs[0]) && forall a :: a in cs[1..] ==> Present(s, a) && a != cs[0];
      if Silent(s, e, now, cs[0]) {
        RemoveFromAllClosed(P, times, s, e, now, cs[0], s.links.devs);
        var (s1, rc) := RemoveFromAll(s, e, now, cs[0], s.links.devs);
        if rc.Ok? {
          assert Quiet(s1, Forget(s1, cs[0]));
          AgeClientsClosed(P, times, Forget(s1, cs[0]), e, now, cs[1..]);
        }
      } else {
        AgeClientsClosed(P, times, s, e, now, cs[1..]);
      }
    }
  }

  lemma {:induction false} SweepDevicesClosed(P: State -> bool, times: set<int>, s: State, e: Env, now: int,
                                              ds: seq<Name>)
    requires Closed(P, e, times) && now in times && P(s) && forall n :: n in ds ==> Known(s, n)
    ensures P(SweepDevices(s, e, now, ds).0)
    decreases |ds|
  {
    if ds == [] {
    } else {
      assert Known(s, ds[0]) && forall n :: n in ds[1..] ==> Known(s, n);
      if Overdue(s, e, now, ds[0]) {
        var (s1, rc) := Alter(s, e, now, ds[0], s.dev[ds[0]].status);
        if rc.Ok? {
          SweepDevicesClosed(P, times, s1, e, now, ds[1..]);
        }
      } else {
        SweepDevicesClosed(P, times, s, e, now, ds[1..]);
      }
    }
  }

  lemma ReceiveClosed(P: State -> bool, times: set<int>, s: State, e: Env, now: int, d: Datagram)
    requires Closed(P, e, times) && (ParseRequest(d.text).IsUp? ==> ClosedUp(P, e, times))
    requires now in times && P(s) && Safe(s)
    ensures P(Receive(s, e, now, d).0)
  {
    hide ParseRequest, Serve, Closed, ClosedUp, Linked;
    var q := ParseRequest(d.text);
    if FromClient(q) {
      var h := Hear(s, now, d.from);
      HearKeeps(s, now, d.from);
      QuietCloses(P, times, s, h, e);
      ServeClosed(P, times, h, e, now, d.from, q);
    } else {
      NoticeClosed(P, times, s, e, now, q);
    }
  }

  lemma QuietCloses(P: State -> bool, times: set<int>, s: State, t: State, e: Env)
    requires Closed(P, e, times) && P(s) && Quiet(s, t)
    ensures P(t)
  {
  }

  lemma ServeClosed(P: State -> bool, times: set<int>, s: State, e: Env, now: int, a: Addr, q: Request)
    requires Closed(P, e, times) && now in times && P(s) && Safe(s) && a in s.heard && FromClient(q)
    ensures P(Serve(s, e, now, a, q).0)
  {
    hide Alter, Connect, Disconnect, Linked;
    match q
    case BringUp(n) => if n in s.dev { ConnectClosed(P, times, s, e, now, a, n); }
    case TakeDown(n) => if n in s.links.wants[a] { DisconnectClosed(P, times, s, e, now, a, n); }
    case ForceOff(n) =>
      if n in s.dev {
        var s1 := Alter(s, e, now, n, DOWN).0;
        assert P(s1);
        assert Quiet(s1, s1.(links := ClearUsers(s1.links, n)));
      }
    case _ =>
  }

  lemma NoticeClosed(P: State -> bool, times: set<int>, s: State, e: Env, now: int, q: Request)
    requires Closed(P, e, times) && (q.IsUp? ==> ClosedUp(P, e, times))
    requires now in times && P(s) && Safe(s) && (q.IsUp? || q.IsDown? || q.BadPeer? || q.BadPrefix?)
    ensures !q.BadPrefix? ==> P(Notice(s, e, now, q).0)
  {
    hide Alter, Linked;
  }

  lemma TickClosed(P: State -> bool, times: set<int>, s: State, e: Env, now: int)
    requires Closed(P, e, times) && now in times && P(s) && Safe(s)
    ensures P(Tick(s, e, now))
  {
    AgeClientsClosed(P, times, s, e, now, s.links.clis);
    AgeClientsKeeps(s, e, now, s.links.clis);
    var s1 := AgeClients(s, e, now, s.links.clis).0;
    SweepDevicesClosed(P, times, s1, e, now, s1.links.devs);
  }

  lemma PassClosed(P: State -> bool, times: set<int>, s: State, e: Env, i: Input)
    requires Closed(P, e, times) && ClosedUp(P, e, times) && i.now in times && P(s) && Safe(s)
    ensures P(Pass(s, e, i))
  {
    hide Tick, Receive, ParseRequest, Closed, ClosedUp, Linked;
    var s1 := Answered(s, e, i);
    if i.datagram.Some? {
      ReceiveClosed(P, times, s, e, i.now, i.datagram.value);
    }
    TickClosed(P, times, s1, e, i.now);
  }

  /** Whatever status changes and quiet edits keep, holds after every run. */
  lemma {:induction false} RunClosed(P: State -> bool, times: set<int>, s: State, e: Env, inputs: seq<Input>)
    requires Closed(P, e, times) && ClosedUp(P, e, times)
    requires (forall i :: i in inputs ==> i.now in times) && P(s) && Safe(s)
    ensures P(Run(s, e, inputs))
    decreases |inputs|
  {
    if inputs == [] {
    } else {
      assert inputs[0] in inputs && forall i :: i in inputs[1..] ==> i in inputs;
      PassClosed(P, times, s, e, inputs[0]);
      RunClosed(P, times, Pass(s, e, inputs[0]), e, inputs[1..]);
    }
  }

  // ---------- Lawful logs ----------

  /** The status that a log leaves a device in; every device starts DOWN. */
  function StatusIn(log: seq<Event>, n: Name): Status {
    if log == [] then DOWN
    else
      var last := log[|log| - 1];
      if last.Moved? && last.name == n then last.to else StatusIn(log[..|log| - 1], n)
  }

  /** The status changes that the code can make. */
  predicate Edge(from: Status, to: Status) {
    match to
    case UP => from == CONNECTING
    case CONNECTING => from != UP
    case DISCONNECTING => from == CONNECTING || from == UP
    case DOWN => true
  }

  /** The i-th event was allowed by the events before it; a link_down that did not return -1 is
      followed at once by the device becoming DISCONNECTING, and a device becomes CONNECTING only
      right behind a link_up of it that did not return -1. */
  predicate LawfulAt(log: seq<Event>, i: nat)
    requires i < |log|
  {
    var ev, before := log[i], log[..i];
    if ev.Ran? then
      match ev.cmd
      case LinkForceDown => true
      case LinkUp => StatusIn(before, ev.name) != UP
      case LinkDown =>
        StatusIn(before, ev.name) == UP
        && (ev.reply.Exit? ==> i + 1 < |log| && log[i + 1] == Moved(ev.name, UP, DISCONNECTING))
    else
      && ev.from == StatusIn(before, ev.name) && Edge(ev.from, ev.to)
      && (ev.to == CONNECTING ==> i > 0 && StartsUp(log[i - 1], ev.name))
  }

  predicate StartsUp(ev: Event, n: Name) {
    ev.Ran? && ev.cmd == LinkUp && ev.name == n && ev.reply.Exit?
  }

  ghost predicate Lawful(log: seq<Event>) {
    forall i :: 0 <= i < |log| ==> LawfulAt(log, i)
  }

  /** The log is lawful, and it is the history of the statuses the devices have now. */
  ghost predicate TraceOK(s: State) {
    Lawful(s.log) && forall n :: n in s.dev ==> s.dev[n].status == StatusIn(s.log, n)
  }

  lemma StatusAppend(log: seq<Event>, ev: Event, n: Name)
    ensures StatusIn(log + [ev], n) == if ev.Moved? && ev.name == n then ev.to else StatusIn(log, n)
  {
    assert (log + [ev])[..|log|] == log;
  }

  lemma LawfulPrefix(log: seq<Event>, more: seq<Event>, i: nat)
    requires i < |log| && LawfulAt(log, i)
    ensures LawfulAt(log + more, i)
  {
    assert (log + more)[..i] == log[..i];
  }

  lemma LawfulAppend(log: seq<Event>, ev: Event)
    requires Lawful(log)
    requires ev.Ran? && ev.cmd == LinkUp ==> StatusIn(log, ev.name) != UP
    requires ev.Ran? && ev.cmd == LinkDown ==> StatusIn(log, ev.name) == UP && ev.reply.Failed?
    requires ev.Moved? ==> ev.from == StatusIn(log, ev.name) && Edge(ev.from, ev.to)
    requires ev.Moved? && ev.to == CONNECTING ==> log != [] && StartsUp(log[|log| - 1], ev.name)
    ensures Lawful(log + [ev])
  {
    var l := log + [ev];
    forall i | 0 <= i < |l| ensures LawfulAt(l, i) {
      if i < |log| { LawfulPrefix(log, [ev], i); } else { assert l[..i] == log; }
    }
  }

  /** A successful link_down and the status change behind it enter the log together. */
  lemma LawfulLinkDown(log: seq<Event>, n: Name, r: Reply)
    requires Lawful(log) && StatusIn(log, n) == UP
    ensures Lawful(log + [Ran(LinkDown, n, r)] + [Moved(n, UP, DISCONNECTING)])
  {
    var ran := Ran(LinkDown, n, r);
    var l := log + [ran] + [Moved(n, UP, DISCONNECTING)];
    StatusAppend(log, ran, n);
    forall i | 0 <= i < |l| ensures LawfulAt(l, i) {
      if i < |log| {
        LawfulPrefix(log, [ran, Moved(n, UP, DISCONNECTING)], i);
        assert log + [ran, Moved(n, UP, DISCONNECTING)] == l;
      } else {
        assert l[..|log|] == log && l[..|log| + 1] == log + [ran];
      }
    }
  }

  lemma ExecTrace(s: State, e: Env, n: Name, cmd: Command)
    requires TraceOK(s) && Known(s, n)
    requires cmd == LinkUp ==> s.dev[n].status != UP
    requires cmd == LinkDown ==> s.dev[n].status == UP && e.world(s.ran, cmd).Failed?
    ensures TraceOK(Exec(s, e, n, cmd).0)
  {
    var ev := Ran(cmd, n, e.world(s.ran, cmd));
    LawfulAppend(s.log, ev);
    forall m | m in s.dev ensures s.dev[m].status == StatusIn(s.log + [ev], m) {
      StatusAppend(s.log, ev, m);
    }
  }

  lemma MoveTrace(s: State, n: Name, to: Status)
    requires TraceOK(s) && Known(s, n) && Edge(s.dev[n].status, to)
    requires to == CONNECTING ==> s.log != [] && StartsUp(s.log[|s.log| - 1], n)
    ensures TraceOK(Move(s, n, to))
  {
    var ev := Moved(n, s.dev[n].status, to);
    LawfulAppend(s.log, ev);
    forall m | m in s.dev ensures Move(s, n, to).dev[m].status == StatusIn(s.log + [ev], m) {
      StatusAppend(s.log, ev, m);
    }
  }

  lemma ToDownTrace(s: State, e: Env, n: Name)
    requires TraceOK(s) && Known(s, n)
    ensures TraceOK(ToDown(s, e, n).0)
  {
    if s.dev[n].status == DISCONNECTING {
      MoveTrace(s, n, DOWN);
    } else {
      ExecTrace(s, e, n, LinkForceDown);
      var (s1, r) := ForceDown(s, e, n);
      if r.Exit? { MoveTrace(s1, n, DOWN); }
    }
  }

  lemma StampTrace(s: State, n: Name, now: int)
    requires TraceOK(s) && Known(s, n)
    ensures TraceOK(Stamp(s, n, now))
  {
  }

  lemma RetriesTrace(s: State, n: Name, k: int)
    requires TraceOK(s) && Known(s, n)
    ensures TraceOK(SetRetries(s, n, k))
  {
  }

  lemma LinkUpTrace(s: State, e: Env, now: int, n: Name)
    requires TraceOK(s) && Known(s, n) && s.dev[n].status != UP
    ensures var (t, r) := ExecLink(s, e, now, n, LinkUp);
      && TraceOK(t) && Known(t, n) && t.dev[n].status == s.dev[n].status
      && (r.Exit? ==> TraceOK(Move(Stamp(t, n, now), n, CONNECTING)))
  {
    ExecTrace(s, e, n, LinkUp);
    StampTrace(Exec(s, e, n, LinkUp).0, n, now);
    var (t, r) := ExecLink(s, e, now, n, LinkUp);
    if r.Exit? {
      StampTrace(t, n, now);
      MoveTrace(Stamp(t, n, now), n, CONNECTING);
    }
  }

  lemma AttemptTrace(s: State, e: Env, now: int, n: Name)
    requires TraceOK(s) && Known(s, n) && s.dev[n].status != UP
    ensures TraceOK(Attempt(s, e, now, n).0)
  {
    var s1 := SetRetries(s, n, s.dev[n].retries - 1);
    RetriesTrace(s, n, s.dev[n].retries - 1);
    if s.dev[n].retries < 0 {
      ToDownTrace(s1, e, n);
    } else {
      LinkUpTrace(s1, e, now, n);
    }
  }

  lemma ToDisconnectingTrace(s: State, e: Env, now: int, n: Name)
    requires TraceOK(s) && Known(s, n)
    ensures TraceOK(ToDisconnecting(s, e, now, n).0)
  {
    match s.dev[n].status
    case DOWN =>
    case UP =>
      var (s1, r) := ExecLink(s, e, now, n, LinkDown);
      if r.Failed? {
        ExecTrace(s, e, n, LinkDown);
      } else {
        var t := Move(s1, n, DISCONNECTING);
        LawfulLinkDown(s.log, n, r);
        forall m | m in s.dev ensures t.dev[m].status == StatusIn(t.log, m) {
          StatusAppend(s.log, Ran(LinkDown, n, r), m);
          StatusAppend(s1.log, Moved(n, UP, DISCONNECTING), m);
        }
      }
    case _ =>
      ExecTrace(s, e, n, LinkForceDown);
      var (s1, r) := ForceDown(s, e, n);
      if r.Exit? { MoveTrace(s1, n, if s.dev[n].status == CONNECTING then DISCONNECTING else DOWN); }
  }

  lemma AlterTrace(s: State, e: Env, now: int, n: Name, to: Status)
    requires TraceOK(s) && Known(s, n)
    ensures TraceOK(Alter(s, e, now, n, to).0)
  {
    match to
    case UP => if s.dev[n].status == CONNECTING { MoveTrace(Stamp(s, n, now), n, UP); }
    case DOWN => ToDownTrace(s, e, n);
    case DISCONNECTING => ToDisconnectingTrace(s, e, now, n);
    case CONNECTING =>
      match s.dev[n].status
      case UP =>
      case CONNECTING => AttemptTrace(s, e, now, n);
      case DOWN => AttemptTrace(SetRetries(s, n, e.retries), e, now, n);
      case DISCONNECTING =>
        ExecTrace(s, e, n, LinkForceDown);
        var (s1, r) := ForceDown(s, e, n);
        if r.Exit? { AttemptTrace(SetRetries(s1, n, e.retries), e, now, n); }
  }

  // ---------- One status change ----------

  /** The attempts to bring the device up have run out. */
  predicate Exhausted(s: State, e: Env, n: Name)
    requires n in s.dev
  {
    if s.dev[n].status == CONNECTING then s.dev[n].retries < 0 else e.retries < 0
  }

  /** The status behind a successful change. */
  function Reached(s: State, e: Env, n: Name, to: Status): Status
    requires n in s.dev
  {
    if to == CONNECTING && Exhausted(s, e, n) then DOWN
    else if to == DISCONNECTING && s.dev[n].status == DISCONNECTING then DOWN
    else to
  }

  /** alter_device_status touches one device.  When it fails that device keeps its status, also
      behind the fall-through cases and the recursive call; when it succeeds the device is in the
      status asked for, or DOWN if its attempts or its time to disconnect had run out. */
  lemma AlterStatus(s: State, e: Env, now: int, n: Name, to: Status)
    requires Known(s, n)
    ensures var ((t, rc), from) := (Alter(s, e, now, n, to), s.dev[n].status);
      && (forall m :: m in s.dev && m != n ==> t.dev[m] == s.dev[m])
      && (rc.Err? ==> t.dev[n].status == from)
      && (rc.Ok? ==> Edge(from, t.dev[n].status))
      && (rc.Ok? ==> t.dev[n].status == Reached(s, e, n, to))
  {
    hide ToConnecting, Wipe;
    ConnectingStatus(s, e, now, n);
  }

  lemma ConnectingStatus(s: State, e: Env, now: int, n: Name)
    requires Known(s, n)
    ensures var ((t, rc), from) := (ToConnecting(s, e, now, n), s.dev[n].status);
      && (forall m :: m in s.dev && m != n ==> t.dev[m] == s.dev[m])
      && (rc.Err? ==> t.dev[n].status == from)
      && (rc.Ok? ==> from != UP && t.dev[n].status == if Exhausted(s, e, n) then DOWN else CONNECTING)
  {
    hide Attempt;
    var s1 := if s.dev[n].status == DISCONNECTING then ForceDown(s, e, n).0 else s;
    AttemptStatus(s, e, now, n);
    AttemptStatus(SetRetries(s1, n, e.retries), e, now, n);
  }

  lemma AttemptStatus(s: State, e: Env, now: int, n: Name)
    requires Known(s, n)
    ensures var (t, rc) := Attempt(s, e, now, n);
      && (forall m :: m in s.dev && m != n ==> t.dev[m] == s.dev[m])
      && t.dev[n].status == if rc.Err? then s.dev[n].status else if s.dev[n].retries < 0 then DOWN else CONNECTING
  {
  }

  // ---------- The theorems ----------

  /** Over every run and for any command outcomes the log is lawful: the status changes are
      edges of the graph, link_up never runs on an UP device and link_down only on one. */
  lemma RunLawful(names: seq<Name>, e: Env, inputs: seq<Input>)
    ensures TraceOK(Run(Boot(names), e, inputs))
  {
    var P := (s: State) => TraceOK(s);
    forall s, now, n, to | P(s) && Known(s, n) ensures P(Alter(s, e, now, n, to).0) {
      AlterTrace(s, e, now, n, to);
    }
    var times := set i | i in inputs :: i.now;
    RunClosed(P, times, Boot(names), e, inputs);
  }

  /** Behind the event at `i`, a device that has left UP gets there again only through a
      link_up that did not return -1 and, later, an accepted ISUP. */
  lemma {:induction false} BackUp(log: seq<Event>, n: Name, i: nat, j: nat) returns (k: nat, m: nat)
    requires Lawful(log) && 0 < i < j <= |log| && log[i - 1].Moved?
    requires StatusIn(log[..i], n) != UP && StatusIn(log[..j], n) == UP
    requires StatusIn(log[..i], n) != CONNECTING
    ensures i <= k < m < j && StartsUp(log[k], n) && log[m] == Moved(n, CONNECTING, UP)
    decreases j
  {
    var last := log[j - 1];
    assert log[..j][..j - 1] == log[..j - 1];
    if last.Moved? && last.name == n {
      assert LawfulAt(log, j - 1);
      m := j - 1;
      k := CameFrom(log, n, i, j - 1);
    } else {
      k, m := BackUp(log, n, i, j - 1);
    }
  }

  lemma {:induction false} CameFrom(log: seq<Event>, n: Name, i: nat, j: nat) returns (k: nat)
    requires Lawful(log) && 0 < i <= j <= |log| && log[i - 1].Moved?
    requires StatusIn(log[..i], n) != CONNECTING && StatusIn(log[..j], n) == CONNECTING
    ensures i <= k < j && StartsUp(log[k], n)
    decreases j
  {
    var last := log[j - 1];
    assert log[..j][..j - 1] == log[..j - 1];
    if last.Moved? && last.name == n {
      assert LawfulAt(log, j - 1);
      k := j - 2;
      assert log[..j - 1][..j - 2] == log[..j - 2];
    } else {
      k := CameFrom(log, n, i, j - 1);
    }
  }

  /** Between two link_downs of a device, the first of which did not return -1, there is a
      link_up of it that did not return -1 and, behind that, an accepted ISUP. */
  lemma DownNeedsUp(log: seq<Event>, n: Name, i: nat, j: nat) returns (k: nat, m: nat)
    requires Lawful(log) && i < j < |log|
    requires log[i].Ran? && log[i].cmd == LinkDown && log[i].name == n && log[i].reply.Exit?
    requires log[j].Ran? && log[j].cmd == LinkDown && log[j].name == n
    ensures i < k < m < j && StartsUp(log[k], n) && log[m] == Moved(n, CONNECTING, UP)
  {
    assert LawfulAt(log, i) && LawfulAt(log, j);
    assert log[..i + 2] == log[..i + 1] + [log[i + 1]];
    StatusAppend(log[..i + 1], log[i + 1], n);
    k, m := BackUp(log, n, i + 2, j);
  }

  /** The i-th event is a link_down of the device that did not return -1. */
  predicate TakesDown(log: seq<Event>, n: Name, i: nat) {
    i < |log| && log[i].Ran? && log[i].cmd == LinkDown && log[i].name == n && log[i].reply.Exit?
  }

  /** So too on every run, for any commands. */
  lemma RunDownNeedsUp(names: seq<Name>, e: Env, inputs: seq<Input>, n: Name, i: nat, j: nat) returns (k: nat, m: nat)
    ensures var log := Run(Boot(names), e, inputs).log;
      i < j && TakesDown(log, n, i) && TakesDown(log, n, j) ==>
        i < k < m < j && StartsUp(log[k], n) && log[m] == Moved(n, CONNECTING, UP)
  {
    hide Run, Boot, Lawful;
    RunLawful(names, e, inputs);
    var log := Run(Boot(names), e, inputs).log;
    k, m := 0, 0;
    if i < j && TakesDown(log, n, i) && TakesDown(log, n, j) {
      k, m := DownNeedsUp(log, n, i, j);
    }
  }
}
