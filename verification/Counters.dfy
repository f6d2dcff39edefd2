/** Runs in which link_force_down exits 0 and g_retries is not negative, whatever link_up and link_down
    return: the attempt counters stay in bounds. */
module Counters {
  import opened Collections
  import opened Manager
  import opened Safety
  import opened MainLoop
  import opened WellBehaved

  ghost predicate Sound(s: State, e: Env) {
    Safe(s) && Counted(s, e)
  }

  /** Only the counter of `n` may be out of bounds, and by no more than a fresh start needs. */
  ghost predicate CountedBut(s: State, e: Env, n: Name) {
    && (forall m :: m in s.dev && m != n && s.dev[m].status == CONNECTING ==> -1 <= s.dev[m].retries < e.retries)
    && (n in s.dev ==> s.dev[n].retries <= e.retries || s.dev[n].status != CONNECTING)
  }

  lemma AttemptCounted(s: State, e: Env, now: int, n: Name)
    requires Forceful(e) && Known(s, n) && CountedBut(s, e, n) && s.dev[n].retries <= e.retries
    ensures Counted(Attempt(s, e, now, n).0, e)
  {
    hide ToDown;
    ToDownCounted(SetRetries(s, n, s.dev[n].retries - 1), e, n);
  }

  lemma ToDownCounted(s: State, e: Env, n: Name)
    requires Forceful(e) && Known(s, n) && CountedBut(s, e, n)
    ensures Counted(ToDown(s, e, n).0, e)
  {
    hide Wipe;
    assert e.world(s.ran, LinkForceDown) == Exit(0);
  }

  lemma ConnectingCounted(s: State, e: Env, now: int, n: Name)
    requires Forceful(e) && Known(s, n) && CountedBut(s, e, n)
    ensures Counted(ToConnecting(s, e, now, n).0, e)
  {
    hide Attempt;
    if s.dev[n].status == CONNECTING {
      AttemptCounted(s, e, now, n);
    } else if s.dev[n].status != UP {
      var s1 := if s.dev[n].status == DISCONNECTING then ForceDown(s, e, n).0 else s;
      AttemptCounted(SetRetries(s1, n, e.retries), e, now, n);
    }
  }

  lemma AlterCounted(s: State, e: Env, now: int, n: Name, to: Status)
    requires Forceful(e) && Known(s, n) && CountedBut(s, e, n)
    ensures Counted(Alter(s, e, now, n, to).0, e)
  {
    hide ToConnecting, ToDisconnecting, ToDown;
    ConnectingCounted(s, e, now, n);
    DisconnectingCounted(s, e, now, n);
    ToDownCounted(s, e, n);
  }

  lemma DisconnectingCounted(s: State, e: Env, now: int, n: Name)
    requires Forceful(e) && Known(s, n) && CountedBut(s, e, n)
    ensures Counted(ToDisconnecting(s, e, now, n).0, e)
  {
    hide Wipe;
    assert e.world(s.ran, LinkForceDown) == Exit(0);
  }

  lemma ConnectCounted(s: State, e: Env, now: int, a: Addr, n: Name)
    requires Forceful(e) && Known(s, n) && Present(s, a) && Counted(s, e)
    ensures Counted(Connect(s, e, now, a, n).0, e)
  {
    hide Alter;
    AlterCounted(SetRetries(s, n, e.retries), e, now, n, CONNECTING);
  }

  lemma DisconnectCounted(s: State, e: Env, now: int, a: Addr, n: Name)
    requires Forceful(e) && Known(s, n) && Present(s, a) && Counted(s, e)
    ensures Counted(Disconnect(s, e, now, a, n).0, e)
  {
    hide Alter;
    AlterCounted(s.(links := DropUser(s.links, a, n)), e, now, n, DISCONNECTING);
  }

  lemma {:induction false} RemoveFromAllCounted(s: State, e: Env, now: int, a: Addr, ds: seq<Name>)
    requires Forceful(e) && Counted(s, e) && Present(s, a) && forall n :: n in ds ==> Known(s, n)
    ensures Counted(RemoveFromAll(s, e, now, a, ds).0, e)
    decreases |ds|
  {
    hide Disconnect, Counted;
    if ds == [] {
    } else {
      assert Known(s, ds[0]) && forall n :: n in ds[1..] ==> Known(s, n);
      DisconnectCounted(s, e, now, a, ds[0]);
      var (s1, rc) := Disconnect(s, e, now, a, ds[0]);
      if rc.Ok? || rc.errno == ENODEV {
        RemoveFromAllCounted(s1, e, now, a, ds[1..]);
      }
    }
  }

  lemma {:induction false} AgeClientsCounted(s: State, e: Env, now: int, cs: seq<Addr>)
    requires Forceful(e) && Counted(s, e) && NoDup(cs) && forall a :: a in cs ==> Present(s, a)
    requires forall n :: n in s.links.devs ==> Known(s, n)
    ensures Counted(AgeClients(s, e, now, cs).0, e)
    decreases |cs|
  {
    hide RemoveFromAll;
    if cs == [] {
    } else {
      assert Present(s, cs[0]) && forall a :: a in cs[1..] ==> Present(s, a) && a != cs[0];
      if Silent(s, e, now, cs[0]) {
        RemoveFromAllCounted(s, e, now, cs[0], s.links.devs);
        var (s1, rc) := RemoveFromAll(s, e, now, cs[0], s.links.devs);
        if rc.Ok? {
          AgeClientsCounted(Forget(s1, cs[0]), e, now, cs[1..]);
        }
      } else {
        AgeClientsCounted(s, e, now, cs[1..]);
      }
    }
  }

  lemma {:induction false} SweepCounted(s: State, e: Env, now: int, ds: seq<Name>)
    requires Forceful(e) && Counted(s, e) && forall n :: n in ds ==> Known(s, n)
    ensures Counted(SweepDevices(s, e, now, ds).0, e)
    decreases |ds|
  {
    hide Alter, DeviceOverdue;
    if ds == [] {
    } else {
      assert Known(s, ds[0]) && forall n :: n in ds[1..] ==> Known(s, n);
      if Overdue(s, e, now, ds[0]) {
        AlterCounted(s, e, now, ds[0], s.dev[ds[0]].status);
        var (s1, rc) := Alter(s, e, now, ds[0], s.dev[ds[0]].status);
        if rc.Ok? {
          SweepCounted(s1, e, now, ds[1..]);
        }
      } else {
        SweepCounted(s, e, now, ds[1..]);
      }
    }
  }

  lemma ServeCounted(s: State, e: Env, now: int, a: Addr, q: Request)
    requires Forceful(e) && Sound(s, e) && a in s.heard && FromClient(q)
    ensures Counted(Serve(s, e, now, a, q).0, e)
  {
    hide Connect, Disconnect, Alter, Linked, Consistent;
    WantsKnown(s, a);
    match q
    case BringUp(n) => if n in s.dev { ConnectCounted(s, e, now, a, n); }
    case TakeDown(n) => if n in s.links.wants[a] { DisconnectCounted(s, e, now, a, n); }
    case ForceOff(n) => if n in s.dev { AlterCounted(s, e, now, n, DOWN); }
    case _ =>
  }

  lemma NoticeCounted(s: State, e: Env, now: int, q: Request)
    requires Forceful(e) && Sound(s, e) && (q.IsUp? || q.IsDown? || q.BadPeer?)
    ensures Counted(Notice(s, e, now, q).0, e)
  {
    hide Alter, Linked, Consistent;
    match q
    case IsUp(n) => if n in s.dev { AlterCounted(s, e, now, n, UP); }
    case IsDown(n) => if n in s.dev { AlterCounted(s, e, now, n, DOWN); }
    case BadPeer =>
  }

  lemma AnsweredSound(s: State, e: Env, i: Input)
    requires Forceful(e) && Sound(s, e)
    ensures Sound(Answered(s, e, i), e)
  {
    hide ParseRequest, Serve, Notice, Linked, Consistent;
    if i.datagram.Some? {
      var (d, q) := (i.datagram.value, ParseRequest(i.datagram.value.text));
      if FromClient(q) {
        HearKeeps(s, i.now, d.from);
        ServeCounted(Hear(s, i.now, d.from), e, i.now, d.from, q);
      } else if !q.BadPrefix? {
        NoticeCounted(s, e, i.now, q);
      }
    }
  }

  lemma TickSound(s: State, e: Env, now: int)
    requires Forceful(e) && Sound(s, e)
    ensures Sound(Tick(s, e, now), e)
  {
    AgeClientsKeeps(s, e, now, s.links.clis);
    AgeClientsCounted(s, e, now, s.links.clis);
    var s1 := AgeClients(s, e, now, s.links.clis).0;
    hide AgeClients;
    SweepCounted(s1, e, now, s1.links.devs);
  }

  /** On every such run the counters of CONNECTING devices stay between -1 and g_retries - 1. */
  lemma {:induction false} RunSound(s: State, e: Env, inputs: seq<Input>)
    requires Forceful(e) && Sound(s, e)
    ensures Sound(Run(s, e, inputs), e)
    decreases |inputs|
  {
    hide Sound, Answered, Tick, Linked, Consistent;
    if inputs == [] {
    } else {
      assert Safe(s) by { SoundSafe(s, e); }
      AnsweredSound(s, e, inputs[0]);
      TickSound(Answered(s, e, inputs[0]), e, inputs[0].now);
      RunSound(Pass(s, e, inputs[0]), e, inputs[1..]);
    }
  }

  lemma SoundSafe(s: State, e: Env)
    requires Sound(s, e)
    ensures Safe(s)
  {
  }

  lemma BootSound(names: seq<Name>, e: Env)
    ensures Sound(Boot(names), e)
  {
  }
}
