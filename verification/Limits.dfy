/** Why the well-behaved assumptions are what they are: exact conditions for any commands. */
module Limits {
  import opened Collections
  import opened Requests
  import opened Manager
  import opened Safety
  import opened MainLoop
  import opened WellBehaved
  import opened Filtering
  import opened Ageing
  import opened Relation

  // ---------- One status change, any commands ----------

  /** A change confined to `n` keeps users and statuses matched exactly if it matches `n`. */
  lemma MatchedAlone(s: State, t: State, n: Name)
    requires WellFormed(s) && UsersMatch(s) && n in s.dev && SameShape(s, t)
    requires forall m :: m in s.dev && m != n ==> t.dev[m] == s.dev[m] && t.links.users[m] == s.links.users[m]
    ensures UsersMatch(t) <==> Matched(t.dev[n].status, t.links.users[n])
  {
    hide Consistent;
    forall m | m in s.dev && m != n ensures Matched(t.dev[m].status, t.links.users[m]) {
      assert Matched(s.dev[m].status, s.links.users[m]);
    }
  }

  /** Taking a device DOWN keeps users and statuses matched exactly unless link_force_down
      exits with another status than 0 while the device has users. */
  lemma ToDownExact(s: State, e: Env, n: Name)
    requires Good(s, e) && n in s.dev
    ensures var r := e.world(s.ran, LinkForceDown);
      UsersMatch(ToDown(s, e, n).0) <==> s.links.users[n] == [] || r.Failed? || r == Exit(0)
  {
    assert Matched(s.dev[n].status, s.links.users[n]);
    hide Consistent, Linked, Mirror, UsersMatch, Counted;
    MatchedAlone(s, ToDown(s, e, n).0, n);
  }

  /** What a disconnection leaves of the device, whatever the commands do. */
  lemma DisconnectStatus(s: State, e: Env, now: int, a: Addr, n: Name)
    requires Known(s, n) && Present(s, a) && NoDup(s.links.users[n]) && Matched(s.dev[n].status, s.links.users[n])
    ensures var (t, cmd) := (Disconnect(s, e, now, a, n).0, if s.dev[n].status == UP then LinkDown else LinkForceDown);
      && (forall m :: m in s.dev && m != n ==> t.dev[m] == s.dev[m])
      && t.dev[n].status ==
         if s.links.users[n] != [] && Without(s.links.users[n], a) == [] && e.world(s.ran, cmd).Exit? then DISCONNECTING
         else s.dev[n].status
  {
  }

  /** A client's DOWN keeps them matched exactly unless it takes the last user and the command
      that runs then, link_down on an UP device and link_force_down on a CONNECTING one,
      returns -1. */
  lemma DisconnectExact(s: State, e: Env, now: int, a: Addr, n: Name)
    requires Good(s, e) && n in s.dev && a in s.heard
    ensures var cmd := if s.dev[n].status == UP then LinkDown else LinkForceDown;
      UsersMatch(Disconnect(s, e, now, a, n).0)
      <==> s.links.users[n] == [] || Without(s.links.users[n], a) != [] || e.world(s.ran, cmd).Exit?
  {
    assert Matched(s.dev[n].status, s.links.users[n]);
    DisconnectUsers(s, e, now, a, n);
    DisconnectStatus(s, e, now, a, n);
    hide Consistent, Linked, Mirror, UsersMatch, Counted, Disconnect;
    MatchedAlone(s, Disconnect(s, e, now, a, n).0, n);
  }

  // ---------- The two copies of the relation ----------

  /** No status change makes the two families of lists differ, whatever the commands do. */
  lemma MirrorAlter(s: State, e: Env, now: int, n: Name, to: Status)
    requires Safe(s) && Mirror(s.links) && n in s.dev
    ensures Mirror(Alter(s, e, now, n, to).0.links)
  {
    AlterLinks(s, e, now, n, to);
    WipeMirror(s.links, n);
  }

  /** Neither does a client's UP. */
  lemma MirrorConnect(s: State, e: Env, now: int, a: Addr, n: Name)
    requires Safe(s) && Mirror(s.links) && n in s.dev && a in s.heard
    ensures Mirror(Connect(s, e, now, a, n).0.links)
  {
    var s0 := SetRetries(s, n, e.retries);
    AlterKeeps(s0, e, now, n, CONNECTING);
    MirrorAlter(s0, e, now, n, CONNECTING);
    hide Alter;
    AddPairMirror(s.links, a, n);
    AddPairMirror(Alter(s0, e, now, n, CONNECTING).0.links, a, n);
  }

  lemma ForceOffLinks(s: State, e: Env, now: int, a: Addr, n: Name)
    requires Safe(s) && n in s.dev && a in s.heard
    ensures var (r, l) := (e.world(s.ran, LinkForceDown), s.links);
      Serve(s, e, now, a, ForceOff(n)).0.links
      == if s.dev[n].status == DISCONNECTING then ClearUsers(l, n)
         else if r.Failed? then l
         else if r == Exit(0) then ClearUsers(Wipe(l, n), n)
         else ClearUsers(l, n)
  {
    hide Linked, ClearUsers, Wipe;
  }

  /** A FORCE_DOWN keeps them equal exactly unless link_force_down exits with another status than 0
      while the device has users: it then empties the device's list only, and returns 0. */
  lemma MirrorForceOffExact(s: State, e: Env, now: int, a: Addr, n: Name)
    requires Good(s, e) && n in s.dev && a in s.heard
    ensures var r := e.world(s.ran, LinkForceDown);
      Mirror(Serve(s, e, now, a, ForceOff(n)).0.links) <==> s.links.users[n] == [] || r.Failed? || r == Exit(0)
  {
    assert Matched(s.dev[n].status, s.links.users[n]);
    ForceOffLinks(s, e, now, a, n);
    WipeMirror(s.links, n);
    hide Mirror, UsersMatch, Counted, Serve, ClearUsers;
    WipeCleared(s.links, n);
    if s.links.users[n] == [] {
      ClearNothing(s.links, n);
    } else {
      Cleared(s.links, n);
    }
  }

  lemma WipeCleared(l: Links, n: Name)
    requires n in l.users
    ensures ClearUsers(Wipe(l, n), n) == Wipe(l, n)
  {
    assert ClearUsers(Wipe(l, n), n).users == Wipe(l, n).users;
  }

  lemma ClearNothing(l: Links, n: Name)
    requires n in l.users && l.users[n] == []
    ensures ClearUsers(l, n) == l
  {
    assert ClearUsers(l, n).users == l.users;
  }

  /** One side of the wipe alone. */
  lemma Cleared(l: Links, n: Name)
    requires Consistent(l) && Linked(l) && n in l.users && l.users[n] != []
    ensures !Mirror(ClearUsers(l, n))
  {
    var a := l.users[n][0];
    assert a in l.users[n];
    assert n in l.wants[a] && a !in ClearUsers(l, n).users[n];
  }

  /** A client's DOWN keeps them equal exactly under the condition of `DisconnectExact`. */
  lemma MirrorDisconnectExact(s: State, e: Env, now: int, a: Addr, n: Name)
    requires Good(s, e) && n in s.dev && a in s.heard
    ensures var cmd := if s.dev[n].status == UP then LinkDown else LinkForceDown;
      Mirror(Disconnect(s, e, now, a, n).0.links)
      <==> s.links.users[n] == [] || Without(s.links.users[n], a) != [] || e.world(s.ran, cmd).Exit?
  {
    var cmd := if s.dev[n].status == UP then LinkDown else LinkForceDown;
    assert Matched(s.dev[n].status, s.links.users[n]);
    DropPairKeeps(s.links, a, n);
    if s.links.users[n] != [] && Without(s.links.users[n], a) == [] {
      LastUser(s.links, a, n);
      WipeLast(s.links, a, n);
      if e.world(s.ran, cmd).Exit? {
        DisconnectLast(s, e, now, a, n);
      } else {
        DisconnectFails(s, e, now, a, n);
        assert !Mirror(DropUser(s.links, a, n));
      }
    } else {
      DisconnectPlain(s, e, now, a, n);
    }
  }

  lemma LastUser(l: Links, a: Addr, n: Name)
    requires Consistent(l) && Linked(l) && n in l.users && l.users[n] != [] && Without(l.users[n], a) == []
    ensures l.users[n] == [a] && a in l.wants && n in l.wants[a]
    ensures DropUser(l, a, n).users[n] == [] && n in DropUser(l, a, n).wants[a]
  {
    assert a in l.users[n];
  }

  lemma DisconnectPlain(s: State, e: Env, now: int, a: Addr, n: Name)
    requires Known(s, n) && Present(s, a) && (s.links.users[n] == [] || Without(s.links.users[n], a) != [])
    ensures Disconnect(s, e, now, a, n).0.links == DropPair(s.links, a, n)
  {
    hide Alter;
  }

  lemma DisconnectFails(s: State, e: Env, now: int, a: Addr, n: Name)
    requires Known(s, n) && Present(s, a) && s.links.users[n] == [a]
    requires s.dev[n].status == UP || s.dev[n].status == CONNECTING
    requires e.world(s.ran, if s.dev[n].status == UP then LinkDown else LinkForceDown).Failed?
    ensures Disconnect(s, e, now, a, n).0.links == DropUser(s.links, a, n)
  {
  }

  lemma DisconnectLast(s: State, e: Env, now: int, a: Addr, n: Name)
    requires Known(s, n) && Present(s, a) && s.links.users[n] == [a] && NoDup(s.links.wants[a])
    requires s.dev[n].status == UP || s.dev[n].status == CONNECTING
    requires e.world(s.ran, if s.dev[n].status == UP then LinkDown else LinkForceDown).Exit?
    requires DropWant(Wipe(DropUser(s.links, a, n), n), a, n) == DropPair(s.links, a, n)
    ensures Disconnect(s, e, now, a, n).0.links == DropPair(s.links, a, n)
  {
  }

  // ---------- The retry setting ----------

  ghost predicate CommandsBehave(e: Env) {
    forall k :: e.world(k, LinkForceDown) == Exit(0) && e.world(k, LinkDown).Exit?
  }

  /** With g_retries negative, bringing a DOWN device up takes it DOWN, reports success, and
      gives it a user. */
  lemma NegativeRetries(s: State, e: Env, now: int, a: Addr, n: Name)
    requires CommandsBehave(e) && e.retries < 0
    requires Known(s, n) && Present(s, a) && s.dev[n].status == DOWN && s.links.users[n] == []
    ensures var (t, rc) := Connect(s, e, now, a, n);
      && rc.Ok? && t.dev[n].status == DOWN && t.links.users[n] == [a] && n in t.links.wants[a]
      && (forall m :: m in s.dev && m != n ==> t.dev[m] == s.dev[m])
  {
    assert e.world(s.ran, LinkForceDown) == Exit(0);
  }

  lemma {:induction false} NothingOverdue(s: State, e: Env, now: int, ds: seq<Name>)
    requires forall n :: n in ds ==> Known(s, n) && !Overdue(s, e, now, n)
    ensures SweepDevices(s, e, now, ds) == (s, Ok)
    decreases |ds|
  {
    if ds == [] {
    } else {
      assert Known(s, ds[0]) && forall n :: n in ds[1..] ==> Known(s, n);
      NothingOverdue(s, e, now, ds[1..]);
    }
  }

  lemma {:induction false} NobodySilent(s: State, e: Env, now: int, cs: seq<Addr>)
    requires NoDup(cs) && forall a :: a in cs ==> Present(s, a) && !Silent(s, e, now, a)
    requires forall n :: n in s.links.devs ==> Known(s, n)
    ensures AgeClients(s, e, now, cs) == (s, Ok)
    decreases |cs|
  {
    if cs == [] {
    } else {
      assert Present(s, cs[0]) && forall a :: a in cs[1..] ==> Present(s, a);
      NobodySilent(s, e, now, cs[1..]);
    }
  }

  /** A tick with nobody silent and nothing overdue changes nothing. */
  lemma IdleTick(s: State, e: Env, now: int)
    requires Safe(s)
    requires forall a :: a in s.heard ==> !Silent(s, e, now, a)
    requires forall n :: n in s.dev ==> !Overdue(s, e, now, n)
    ensures Tick(s, e, now) == s
  {
    NoDups(s);
    assert forall n :: n in s.links.devs ==> Known(s, n);
    hide Consistent, Linked;
    NobodySilent(s, e, now, s.links.clis);
    NothingOverdue(s, e, now, s.links.devs);
  }

  lemma RunOne(s: State, e: Env, i: Input)
    requires Safe(s)
    ensures Run(s, e, [i]) == Pass(s, e, i)
  {
    assert [i][1..] == [];
    assert Run(Pass(s, e, i), e, []) == Pass(s, e, i);
  }

  lemma RunTwo(s: State, e: Env, i: Input, j: Input)
    requires Safe(s)
    ensures Run(s, e, [i, j]) == Pass(Pass(s, e, i), e, j)
  {
    assert [i, j][1..] == [j];
    RunOne(Pass(s, e, i), e, j);
  }

  /** A fresh server that receives a client's UP for the device `n`. */
  lemma FirstUp(names: seq<Name>, e: Env, d: Datagram, n: Name)
    requires n in names && ParseRequest(d.text) == BringUp(n)
    ensures var h := Hear(Boot(names), 0, d.from);
      && Safe(h) && Known(h, n) && Present(h, d.from) && h.ran == 0 && h.heard == map[d.from := 0]
      && Receive(Boot(names), e, 0, d) == Connect(h, e, 0, d.from, n)
      && (forall m :: m in h.dev ==> h.dev[m] == Device(DOWN, 0, 0))
      && (forall m :: m in h.links.users ==> h.links.users[m] == [])
  {
    hide ParseRequest, Consistent, Linked, Connect;
    var s := Boot(names);
    HearKeeps(s, 0, d.from);
    EmptyHeard(s);
    assert s.heard == map[];
  }

  lemma EmptyHeard(s: State)
    requires Safe(s) && s.links.wants == map[]
    ensures s.heard == map[]
  {
  }

  lemma NegativeRetriesRun(names: seq<Name>, e: Env, d: Datagram, n: Name)
    requires CommandsBehave(e) && e.retries < 0 && e.clientTimeout >= 0 && n in names
    requires ParseRequest(d.text) == BringUp(n)
    ensures !UsersMatch(Run(Boot(names), e, [Input(0, Some(d))]))
  {
    hide Consistent, Linked, ParseRequest, Boot, Run, Tick, Connect;
    FirstUp(names, e, d, n);
    var h := Hear(Boot(names), 0, d.from);
    NegativeRetries(h, e, 0, d.from, n);
    ConnectKeeps(h, e, 0, d.from, n);
    var t := Connect(h, e, 0, d.from, n).0;
    IdleTick(t, e, 0);
    RunOne(Boot(names), e, Input(0, Some(d)));
    assert !Matched(t.dev[n].status, t.links.users[n]);
  }

  /** The same client's DOWN is then refused, and leaves one side of the pair behind. */
  lemma NegativeDown(s: State, e: Env, now: int, a: Addr, n: Name)
    requires Known(s, n) && Present(s, a) && s.dev[n].status == DOWN && s.links.users[n] == [a] && n in s.links.wants[a]
    ensures var (t, rc) := Disconnect(s, e, now, a, n);
      && rc == Err(EINVAL) && t.links.users[n] == [] && n in t.links.wants[a] && t.dev == s.dev
      && t.heard == s.heard
  {
  }

  lemma NegativeFirst(names: seq<Name>, e: Env, d: Datagram, n: Name)
    requires CommandsBehave(e) && e.retries < 0 && e.clientTimeout >= 0 && n in names
    requires ParseRequest(d.text) == BringUp(n)
    ensures var t := Pass(Boot(names), e, Input(0, Some(d)));
      && Known(t, n) && Present(t, d.from) && t.links.users[n] == [d.from] && n in t.links.wants[d.from]
      && t.heard == map[d.from := 0] && forall m :: m in t.dev ==> t.dev[m].status == DOWN
  {
    hide Consistent, Linked, ParseRequest, Boot, Tick, Connect;
    FirstUp(names, e, d, n);
    var h := Hear(Boot(names), 0, d.from);
    NegativeRetries(h, e, 0, d.from, n);
    ConnectKeeps(h, e, 0, d.from, n);
    IdleTick(Connect(h, e, 0, d.from, n).0, e, 0);
  }

  /** A client that has just been heard asks again. */
  lemma Again(s: State, e: Env, d: Datagram)
    requires Safe(s) && d.from in s.heard && s.heard[d.from] == 0
    ensures Hear(s, 0, d.from) == s
    ensures FromClient(ParseRequest(d.text)) ==> Receive(s, e, 0, d) == Serve(s, e, 0, d.from, ParseRequest(d.text))
  {
    hide ParseRequest, Serve;
    assert s.heard[d.from := 0] == s.heard;
  }

  lemma NegativeMirrorRun(names: seq<Name>, e: Env, up: Datagram, down: Datagram, n: Name)
    requires CommandsBehave(e) && e.retries < 0 && e.clientTimeout >= 0 && n in names && down.from == up.from
    requires ParseRequest(up.text) == BringUp(n) && ParseRequest(down.text) == TakeDown(n)
    ensures !Mirror(Run(Boot(names), e, [Input(0, Some(up)), Input(0, Some(down))]).links)
  {
    hide Consistent, Linked, ParseRequest, Boot, Run, Tick, Disconnect;
    var (i, j, a) := (Input(0, Some(up)), Input(0, Some(down)), up.from);
    NegativeFirst(names, e, up, n);
    var s := Pass(Boot(names), e, i);
    Again(s, e, down);
    NegativeDown(s, e, 0, a, n);
    DisconnectKeeps(s, e, 0, a, n);
    var t := Disconnect(s, e, 0, a, n).0;
    IdleTick(t, e, 0);
    RunTwo(Boot(names), e, i, j);
    assert n in t.links.wants[a] && a !in t.links.users[n];
  }

  /** With commands that behave, users and statuses match on every run, and the two families of lists
      are equal on every run, if and only if g_retries is not negative. */
  lemma RetriesExact(names: seq<Name>, e: Env)
    requires CommandsBehave(e) && e.clientTimeout >= 0 && names != []
    ensures (forall inputs :: UsersMatch(Run(Boot(names), e, inputs))) <==> e.retries >= 0
    ensures (forall inputs :: Mirror(Run(Boot(names), e, inputs).links)) <==> e.retries >= 0
  {
    hide Consistent, Linked, Mirror, Counted, Run, Boot, ParseRequest, UsersMatch;
    if e.retries >= 0 {
      forall inputs ensures UsersMatch(Run(Boot(names), e, inputs)) && Mirror(Run(Boot(names), e, inputs).links) {
        RunGood(names, e, inputs);
      }
    } else {
      var n := names[0];
      ParseNamed(n);
      NegativeRetriesRun(names, e, Datagram(1, 0, "CLIENT UP " + n), n);
      NegativeMirrorRun(names, e, Datagram(1, 0, "CLIENT UP " + n), Datagram(1, 0, "CLIENT DOWN " + n), n);
    }
  }

  // ---------- A force-down that exits with another status ----------

  lemma Started(s: State, e: Env, now: int, a: Addr, n: Name)
    requires Known(s, n) && Present(s, a) && s.dev[n].status == DOWN && s.links.users[n] == []
    requires e.retries >= 0 && e.world(s.ran, LinkUp).Exit?
    ensures var (t, rc) := Connect(s, e, now, a, n);
      && t.dev == s.dev[n := Device(CONNECTING, now, e.retries - 1)] && t.links.users[n] == [a] && t.ran == s.ran + 1
      && n in t.links.wants[a] && t.links.users == s.links.users[n := [a]]
  {
  }

  lemma Brought(names: seq<Name>, e: Env, d: Datagram, n: Name)
    requires e.retries >= 0 && e.clientTimeout >= 0 && e.connectTimeout >= 0 && n in names
    requires ParseRequest(d.text) == BringUp(n) && e.world(0, LinkUp).Exit?
    ensures var t := Pass(Boot(names), e, Input(0, Some(d)));
      && Known(t, n) && t.dev[n] == Device(CONNECTING, 0, e.retries - 1) && t.links.users[n] == [d.from]
      && Present(t, d.from) && n in t.links.wants[d.from]
      && t.ran == 1 && t.heard == map[d.from := 0]
      && (forall m :: m in t.dev && m != n ==> t.dev[m] == Device(DOWN, 0, 0))
      && (forall m :: m in t.links.users && m != n ==> t.links.users[m] == [])
  {
    hide Consistent, Linked, ParseRequest, Boot, Tick, Connect;
    FirstUp(names, e, d, n);
    var h := Hear(Boot(names), 0, d.from);
    Started(h, e, 0, d.from, n);
    ConnectKeeps(h, e, 0, d.from, n);
    IdleTick(Connect(h, e, 0, d.from, n).0, e, 0);
  }

  lemma HeardDown(s: State, e: Env, d: Datagram, n: Name)
    requires Safe(s) && Known(s, n) && ParseRequest(d.text) == IsDown(n)
    ensures Receive(s, e, 0, d) == ToDown(s, e, n)
  {
    hide ParseRequest, ToDown, Consistent, Linked;
  }

  lemma Stubborn(s: State, e: Env, n: Name)
    requires Known(s, n) && s.dev[n].status == CONNECTING
    requires e.world(s.ran, LinkForceDown).Exit? && e.world(s.ran, LinkForceDown) != Exit(0)
    ensures var t := ToDown(s, e, n).0;
      t.links == s.links && t.dev == s.dev[n := s.dev[n].(status := DOWN)] && t.heard == s.heard
  {
  }

  /** A link_force_down that exits 1, say, when the peer reports a CONNECTING device down leaves
      it DOWN with its user. */
  lemma StubbornRun(names: seq<Name>, e: Env, up: Datagram, down: Datagram, n: Name)
    requires e.retries >= 0 && e.clientTimeout >= 0 && e.connectTimeout >= 0 && n in names
    requires ParseRequest(up.text) == BringUp(n) && ParseRequest(down.text) == IsDown(n)
    requires e.world(0, LinkUp).Exit? && e.world(1, LinkForceDown).Exit? && e.world(1, LinkForceDown) != Exit(0)
    ensures var t := Run(Boot(names), e, [Input(0, Some(up)), Input(0, Some(down))]);
      Known(t, n) && t.dev[n].status == DOWN && t.links.users[n] == [up.from] && !UsersMatch(t)
  {
    hide Consistent, Linked, ParseRequest, Boot, Run, Tick, ToDown, Receive;
    var (i, j) := (Input(0, Some(up)), Input(0, Some(down)));
    Brought(names, e, up, n);
    var s := Pass(Boot(names), e, i);
    Stubborn(s, e, n);
    HeardDown(s, e, down, n);
    AlterKeeps(s, e, 0, n, DOWN);
    IdleTick(ToDown(s, e, n).0, e, 0);
    RunTwo(Boot(names), e, i, j);
    assert !Matched(ToDown(s, e, n).0.dev[n].status, s.links.users[n]);
  }

  /** The same command in answer to a FORCE_DOWN, which succeeds: the device is DOWN without users,
      and the client still has it in its list. */
  lemma StubbornOffRun(names: seq<Name>, e: Env, up: Datagram, off: Datagram, n: Name)
    requires e.retries >= 0 && e.clientTimeout >= 0 && e.connectTimeout >= 0 && n in names && off.from == up.from
    requires ParseRequest(up.text) == BringUp(n) && ParseRequest(off.text) == ForceOff(n)
    requires e.world(0, LinkUp).Exit? && e.world(1, LinkForceDown).Exit? && e.world(1, LinkForceDown) != Exit(0)
    ensures var t := Run(Boot(names), e, [Input(0, Some(up)), Input(0, Some(off))]);
      && Known(t, n) && t.dev[n].status == DOWN && t.links.users[n] == []
      && Present(t, up.from) && n in t.links.wants[up.from] && !Mirror(t.links)
  {
    hide Consistent, Linked, ParseRequest, Boot, Run, Tick, Serve;
    var (i, j, a) := (Input(0, Some(up)), Input(0, Some(off)), up.from);
    Brought(names, e, up, n);
    var s := Pass(Boot(names), e, i);
    Again(s, e, off);
    StubbornOff(s, e, a, n);
    var t := Receive(s, e, 0, off).0;
    IdleTick(t, e, 0);
    RunTwo(Boot(names), e, i, j);
    assert a !in t.links.users[n];
  }

  lemma StubbornOff(s: State, e: Env, a: Addr, n: Name)
    requires Safe(s) && n in s.dev && a in s.heard && s.dev[n].status == CONNECTING && n in s.links.wants[a]
    requires e.world(s.ran, LinkForceDown).Exit? && e.world(s.ran, LinkForceDown) != Exit(0)
    ensures var (t, rc) := Serve(s, e, 0, a, ForceOff(n));
      && rc.Ok? && t.links == ClearUsers(s.links, n) && t.dev == s.dev[n := s.dev[n].(status := DOWN)]
      && t.heard == s.heard
  {
    hide Linked;
  }

  // ---------- A link_down whose failure is swallowed ----------

  /** The peer's ISUP of the only CONNECTING device. */
  lemma Risen(s: State, e: Env, d: Datagram, n: Name)
    requires Safe(s) && Known(s, n) && s.dev[n].status == CONNECTING && ParseRequest(d.text) == IsUp(n)
    requires e.clientTimeout >= 0 && forall a :: a in s.heard ==> s.heard[a] == 0
    requires forall m :: m in s.dev && m != n ==> s.dev[m].status == DOWN
    ensures var t := Pass(s, e, Input(0, Some(d)));
      t.links == s.links && t.heard == s.heard && t.ran == s.ran && t.dev == s.dev[n := t.dev[n]]
      && t.dev[n].status == UP
  {
    hide Consistent, Linked, ParseRequest, Tick;
    IdleTick(Receive(s, e, 0, d).0, e, 0);
  }

  /** The last user of an UP device is removed, link_down fails with ENODEV, and nobody hears of it. */
  lemma {:induction false} RemoveSwallowed(s: State, e: Env, now: int, a: Addr, ds: seq<Name>, n: Name)
    requires Present(s, a) && Known(s, n) && NoDup(ds) && (forall m :: m in ds ==> Known(s, m))
    requires s.dev[n].status == UP && forall m :: m in s.links.users && m != n ==> s.links.users[m] == []
    requires n in ds ==> s.links.users[n] == [a] && e.world(s.ran, LinkDown) == Failed(ENODEV)
    ensures var (t, rc) := RemoveFromAll(s, e, now, a, ds);
      && rc.Ok? && t.dev == s.dev
      && t.links.users == if n in ds then s.links.users[n := []] else s.links.users
    decreases |ds|
  {
    if ds == [] {
    } else {
      var (m, more) := (ds[0], ds[1..]);
      assert Known(s, m) && forall k :: k in ds <==> k == m || k in more;
      assert NoDup(more) && m !in more;
      var s1 := Disconnect(s, e, now, a, m).0;
      DisconnectSwallowed(s, e, now, a, m, n, m == n || n in more);
      hide Disconnect;
      RemoveSwallowed(s1, e, now, a, more, n);
    }
  }

  lemma DisconnectSwallowed(s: State, e: Env, now: int, a: Addr, m: Name, n: Name, last: bool)
    requires Present(s, a) && Known(s, n) && Known(s, m) && s.dev[n].status == UP
    requires forall k :: k in s.links.users && k != n ==> s.links.users[k] == []
    requires last ==> s.links.users[n] == [a] && e.world(s.ran, LinkDown) == Failed(ENODEV)
    requires m == n ==> last
    ensures var (t, rc) := Disconnect(s, e, now, a, m);
      && t.dev == s.dev && (rc.Ok? || rc == Err(ENODEV))
      && (if m == n then t.links.users == s.links.users[n := []] else t.links.users == s.links.users && t.ran == s.ran)
  {
    if m != n {
      assert s.links.users[m := []] == s.links.users;
    }
  }

  lemma OnlyOne(cs: seq<Addr>, a: Addr)
    requires NoDup(cs) && a in cs && forall b :: b in cs ==> b == a
    ensures cs == [a]
  {
    var w := Without(cs, a);
    assert multiset(w) == multiset{} by {
      forall b ensures b !in multiset(w) {
        assert b in multiset(w) <==> b in w;
      }
    }
    assert |multiset(w)| == |w| && cs[0] in cs;
  }

  lemma OnlyClient(s: State, a: Addr)
    requires Safe(s) && s.heard.Keys == {a}
    ensures s.links.clis == [a]
  {
    forall b ensures b in s.links.clis <==> b == a {
      assert b in s.heard.Keys <==> b in s.links.wants.Keys;
    }
    OnlyOne(s.links.clis, a);
  }

  lemma AgeSwallowed(s: State, e: Env, now: int, a: Addr, n: Name)
    requires Present(s, a) && Known(s, n) && s.heard == map[a := 0] && now > e.clientTimeout && s.links.clis == [a]
    requires NoDup(s.links.devs) && n in s.links.devs && forall m :: m in s.links.devs ==> Known(s, m)
    requires s.dev[n].status == UP && s.links.users[n] == [a] && e.world(s.ran, LinkDown) == Failed(ENODEV)
    requires forall m :: m in s.links.users && m != n ==> s.links.users[m] == []
    ensures var (t, rc) := AgeClients(s, e, now, [a]);
      && rc.Ok? && t.dev == s.dev && t.links.clis == [] && t.heard == map[]
      && t.links.users == s.links.users[n := []]
  {
    hide RemoveFromAll;
    RemoveSwallowed(s, e, now, a, s.links.devs, n);
    var s1 := Forget(RemoveFromAll(s, e, now, a, s.links.devs).0, a);
    assert [a][0] == a && [a][1..] == [];
    assert Silent(s, e, now, a);
    assert AgeClients(s1, e, now, []) == (s1, Ok);
  }

  /** The tick in which the only client of an UP device has been silent for too long. */
  lemma SilentTick(s: State, e: Env, now: int, a: Addr, n: Name)
    requires Safe(s) && Known(s, n) && s.heard == map[a := 0] && now > e.clientTimeout
    requires s.dev[n].status == UP && (forall m :: m in s.dev && m != n ==> s.dev[m].status == DOWN)
    requires s.links.users[n] == [a] && forall m :: m in s.links.users && m != n ==> s.links.users[m] == []
    requires e.world(s.ran, LinkDown) == Failed(ENODEV)
    ensures var t := Tick(s, e, now);
      t.dev == s.dev && t.links.clis == [] && t.heard == map[] && t.links.users == s.links.users[n := []]
  {
    hide Consistent, Linked, AgeClients, SweepDevices, NoDup, Overdue;
    NoDups(s);
    OnlyClient(s, a);
    assert Present(s, a);
    AgeClientsKeeps(s, e, now, s.links.clis);
    AgeSwallowed(s, e, now, a, n);
    SweepNothing(AgeClients(s, e, now, [a]).0, e, now);
  }

  lemma SweepNothing(s: State, e: Env, now: int)
    requires Safe(s) && forall m :: m in s.dev ==> s.dev[m].status == UP || s.dev[m].status == DOWN
    ensures forall n :: n in s.links.devs ==> Known(s, n)
    ensures SweepDevices(s, e, now, s.links.devs) == (s, Ok)
  {
    NoDups(s);
    hide Consistent, Linked;
    NothingOverdue(s, e, now, s.links.devs);
  }

  /** An UP, an ISUP, and a client that falls silent, whose removal makes link_down fail with ENODEV:
      the sweep succeeds and leaves a device UP without any client, and any later UP of it is
      refused. */
  lemma StrandedRun(names: seq<Name>, e: Env, up: Datagram, isup: Datagram, T: int, n: Name)
    requires e.retries >= 0 && e.clientTimeout >= 0 && e.connectTimeout >= 0 && n in names && T > e.clientTimeout
    requires ParseRequest(up.text) == BringUp(n) && ParseRequest(isup.text) == IsUp(n)
    requires e.world(0, LinkUp).Exit? && e.world(1, LinkDown) == Failed(ENODEV)
    ensures var t := Run(Boot(names), e, [Input(0, Some(up)), Input(0, Some(isup)), Input(T, None)]);
      && Known(t, n) && t.dev[n].status == UP && t.links.users[n] == [] && t.links.clis == []
      && forall now, d: Datagram :: ParseRequest(d.text) == BringUp(n) ==>
           var (r, rc) := Receive(t, e, now, d);
           rc == Err(EINVAL) && r.dev[n].status == UP && r.links.users[n] == []
  {
    hide Consistent, Linked, ParseRequest, Boot, Run, Tick, Receive;
    var (i, j, k) := (Input(0, Some(up)), Input(0, Some(isup)), Input(T, None));
    Brought(names, e, up, n);
    var s := Pass(Boot(names), e, i);
    Risen(s, e, isup, n);
    var s1 := Pass(s, e, j);
    SilentTick(s1, e, T, up.from, n);
    RunThree(Boot(names), e, i, j, k);
    var t := Tick(s1, e, T);
    forall now, d: Datagram | ParseRequest(d.text) == BringUp(n)
      ensures var (r, rc) := Receive(t, e, now, d);
        rc == Err(EINVAL) && r.dev[n].status == UP && r.links.users[n] == []
    {
      Refused(t, e, now, d, n);
    }
  }

  lemma RunThree(s: State, e: Env, i: Input, j: Input, k: Input)
    requires Safe(s)
    ensures Run(s, e, [i, j, k]) == Pass(Pass(Pass(s, e, i), e, j), e, k)
  {
    assert [i, j, k][1..] == [j, k];
    RunTwo(Pass(s, e, i), e, j, k);
  }

  /** An UP of a device that is UP without users. */
  lemma Refused(s: State, e: Env, now: int, d: Datagram, n: Name)
    requires Safe(s) && Known(s, n) && s.dev[n].status == UP && s.links.users[n] == []
    requires ParseRequest(d.text) == BringUp(n)
    ensures var (t, rc) := Receive(s, e, now, d);
      rc == Err(EINVAL) && t.dev[n].status == UP && t.links.users[n] == []
  {
    hide ParseRequest, Consistent, Linked;
    HearKeeps(s, now, d.from);
  }
}
