/** Whatever the commands do, a device is UP because the peer said so, and its uptime counts from
    the moment at which it did. */
module Uptime {
  import opened Collections
  import opened Manager
  import opened Safety
  import opened MainLoop
  import opened Trace
  import opened Text
  import opened Wire

  /** Every device that is UP in `t` already was in `s`, for as long. */
  ghost predicate NoneRose(s: State, t: State) {
    forall n :: n in t.dev && t.dev[n].status == UP
                ==> n in s.dev && s.dev[n].status == UP && t.dev[n].since == s.dev[n].since
  }

  /** No status change but to UP makes a device UP, or restarts the clock of one that is. */
  lemma AlterNoneRose(r: State, s: State, e: Env, now: int, n: Name, to: Status)
    requires NoneRose(r, s) && Known(s, n) && to != UP
    ensures NoneRose(r, Alter(s, e, now, n, to).0)
  {
    hide Alter;
    AlterStatus(s, e, now, n, to);
    AlterKeepsUp(s, e, now, n, to);
  }

  lemma AlterKeepsUp(s: State, e: Env, now: int, n: Name, to: Status)
    requires Known(s, n) && to != UP
    ensures var f := Alter(s, e, now, n, to).0.dev[n];
      f.status == UP ==> s.dev[n].status == UP && f.since == s.dev[n].since
  {
    hide Wipe;
  }

  lemma NoneRoseClosed(r: State, e: Env, times: set<int>)
    ensures Closed(s => NoneRose(r, s), e, times)
  {
    hide NoneRose, Alter;
    var P := s => NoneRose(r, s);
    forall s, now, n, to | now in times && to != UP && P(s) && Known(s, n) ensures P(Alter(s, e, now, n, to).0) {
      AlterNoneRose(r, s, e, now, n, to);
    }
    forall s, t | P(s) && Quiet(s, t) ensures P(t) {
      QuietNoneRose(r, s, t);
    }
  }

  lemma QuietNoneRose(r: State, s: State, t: State)
    requires NoneRose(r, s) && Quiet(s, t)
    ensures NoneRose(r, t)
  {
  }

  lemma TickNoneRose(s: State, e: Env, now: int)
    requires Safe(s)
    ensures NoneRose(s, Tick(s, e, now))
  {
    hide Tick, Closed, Linked, Consistent;
    NoneRoseClosed(s, e, {now});
    TickClosed(t => NoneRose(s, t), {now}, s, e, now);
  }

  ghost predicate SaysUp(d: Datagram, n: Name) {
    ParseRequest(d.text) == IsUp(n)
  }

  lemma ReceiveRose(s: State, e: Env, now: int, d: Datagram, n: Name)
    requires Safe(s) && n in s.dev && Receive(s, e, now, d).0.dev[n].status == UP
    ensures var f := Receive(s, e, now, d).0.dev[n];
      if s.dev[n].status == UP then f.since == s.dev[n].since
      else SaysUp(d, n) && s.dev[n].status == CONNECTING && f.since == now
  {
    hide ParseRequest, Serve, Linked, Consistent, Closed;
    if !ParseRequest(d.text).IsUp? {
      NoneRoseClosed(s, e, {now});
      ReceiveClosed(t => NoneRose(s, t), {now}, s, e, now, d);
    }
  }

  /** In one pass a device becomes UP only if the pass received the peer's ISUP of it while it was
      CONNECTING; its clock starts then and does not restart while it is UP. */
  lemma PassRose(s: State, e: Env, i: Input, n: Name)
    requires Safe(s) && n in s.dev
    ensures var f := Pass(s, e, i).dev[n];
      f.status == UP ==>
        if s.dev[n].status == UP then f.since == s.dev[n].since
        else i.datagram.Some? && SaysUp(i.datagram.value, n) && s.dev[n].status == CONNECTING && f.since == i.now
  {
    hide Tick, Receive, SaysUp, Linked, Consistent;
    var s1 := Answered(s, e, i);
    TickNoneRose(s1, e, i.now);
    if i.datagram.Some? && s1.dev[n].status == UP {
      ReceiveRose(s, e, i.now, i.datagram.value, n);
    }
  }

  lemma {:induction false} RunSnoc(s: State, e: Env, inputs: seq<Input>, i: Input)
    requires Safe(s)
    ensures Run(s, e, inputs + [i]) == Pass(Run(s, e, inputs), e, i)
    decreases |inputs|
  {
    hide Pass, Linked, Consistent;
    var all := inputs + [i];
    if inputs == [] {
      assert all == [i] && all[1..] == [];
      assert Run(Pass(s, e, i), e, []) == Pass(s, e, i);
    } else {
      assert all[0] == inputs[0] && all[1..] == inputs[1..] + [i];
      RunSnoc(Pass(s, e, inputs[0]), e, inputs[1..], i);
    }
  }

  /** The pass `k` received the peer's ISUP of a CONNECTING device, which is UP ever since, and its
      clock shows when that was. */
  ghost predicate UpFrom(names: seq<Name>, e: Env, inputs: seq<Input>, n: Name, k: nat)
    requires n in names
  {
    && k < |inputs| && inputs[k].datagram.Some? && SaysUp(inputs[k].datagram.value, n)
    && Run(Boot(names), e, inputs[..k]).dev[n].status == CONNECTING
    && (forall j :: k < j <= |inputs| ==> Run(Boot(names), e, inputs[..j]).dev[n].status == UP)
    && Run(Boot(names), e, inputs).dev[n].since == inputs[k].now
  }

  /** A device that is UP at the end of a run has been UP without a break since the pass `k`, which
      received the peer's ISUP of it while it was CONNECTING, and its clock shows when that was. */
  lemma {:induction false} UpSince(names: seq<Name>, e: Env, inputs: seq<Input>, n: Name) returns (k: nat)
    requires n in names
    ensures Run(Boot(names), e, inputs).dev[n].status == UP ==> UpFrom(names, e, inputs, n, k)
    decreases |inputs|
  {
    hide Run, Boot, SaysUp, Pass, Linked, Consistent;
    BootDown(names, e, n);
    k := 0;
    if inputs == [] || Run(Boot(names), e, inputs).dev[n].status != UP {
      return;
    }
    var (most, i) := (inputs[..|inputs| - 1], inputs[|inputs| - 1]);
    assert inputs == most + [i] && inputs[..|inputs|] == inputs;
    var s := Run(Boot(names), e, most);
    RunSnoc(Boot(names), e, most, i);
    PassRose(s, e, i, n);
    if s.dev[n].status == UP {
      k := UpSince(names, e, most, n);
      assert inputs[..k] == most[..k];
      forall j | k < j < |inputs| ensures Run(Boot(names), e, inputs[..j]).dev[n].status == UP {
        assert inputs[..j] == most[..j];
      }
    } else {
      k := |inputs| - 1;
    }
  }

  /** The uptime that a pass broadcasts of an UP device is the time since the pass, this one or an
      earlier one, that received the peer's ISUP of it. */
  lemma UptimeShown(names: seq<Name>, e: Env, inputs: seq<Input>, i: Input, n: Name) returns (k: nat)
    requires n in names
    ensures var (all, d) := (inputs + [i], Answered(Run(Boot(names), e, inputs), e, i).dev[n]);
      d.status == UP ==>
        && k < |all| && all[k].datagram.Some? && SaysUp(all[k].datagram.value, n)
        && forall users :: ShownOf(d, users, i.now) == Shown(UP, ToInt32(i.now - all[k].now), users)
  {
    hide Run, Boot, SaysUp, ToInt32, Receive, Linked, Consistent;
    var s := Run(Boot(names), e, inputs);
    k := 0;
    if Answered(s, e, i).dev[n].status != UP {
      return;
    }
    if i.datagram.Some? {
      ReceiveRose(s, e, i.now, i.datagram.value, n);
    }
    if s.dev[n].status == UP {
      k := UpSince(names, e, inputs, n);
      assert (inputs + [i])[k] == inputs[k];
    } else {
      k := |inputs|;
      assert (inputs + [i])[k] == i;
    }
  }

  lemma BootDown(names: seq<Name>, e: Env, n: Name)
    requires n in names
    ensures Run(Boot(names), e, []) == Boot(names) && Boot(names).dev[n].status == DOWN
  {
  }
}
