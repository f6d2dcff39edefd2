/** What the clients read off the server's messages, traced back to the server's lists on whole
    runs. */
module EndToEnd {
  import opened Collections
  import opened Manager
  import opened Safety
  import opened MainLoop
  import opened WellBehaved
  import opened Relation
  import opened Limits
  import opened Requests
  import opened Text
  import opened Wire
  import C = CClient
  import J = JavaClient

  // ---------- The reply to CLIENT_STATUS ----------

  /** The server's answer to the client's question, on any run. */
  lemma Asked(s: State, e: Env, now: int, d: Datagram)
    requires Safe(s) && ParseRequest(d.text) == AskClientStatus
    ensures var t := Receive(s, e, now, d).0;
      && Safe(t) && Present(t, d.from) && (forall n :: n in t.dev ==> Known(t, n))
      && t.links.users == s.links.users && t.links.wants == s.links.wants[d.from := t.links.wants[d.from]]
      && ReplyTo(t, d.from, AskClientStatus, now) == Some(ClientStatusText(t.links.wants[d.from]))
      && (d.from in s.links.wants ==> t.links == s.links)
  {
    hide ParseRequest, ClientStatusText;
  }

  /** On every run, whatever the commands do, the Java client reads off the reply to CLIENT_STATUS
      that it is CONNECTED exactly for the devices in its list on the server, and so for every
      device that counts it as a user. */
  lemma ReplyTruth(names: seq<Name>, e: Env, inputs: seq<Input>, now: int, d: Datagram, n: Name, padding: string)
    requires (forall m :: m in names ==> J.Visible(m)) && AllBlank(padding) && d.text == "CLIENT CLIENT_STATUS"
    ensures var t := Receive(Run(Boot(names), e, inputs), e, now, d).0;
      && Present(t, d.from) && (forall m :: m in t.dev ==> Known(t, m))
      && var reply := ReplyTo(t, d.from, ParseRequest(d.text), now);
      && reply.Some?
      && J.Refreshed(reply.value + padding, n)
         == Some(if n in t.links.wants[d.from] then J.CONNECTED else J.DISCONNECTED)
      && (n in t.dev && d.from in t.links.users[n] ==> n in t.links.wants[d.from])
  {
    hide ParseRequest, Receive, ReplyTo, Run, Boot, J.Refreshed, J.Visible;
    AskText(d.text);
    RepliesTruly(names, e, inputs, now, d, n, padding);
  }

  lemma AskText(text: string)
    requires text == "CLIENT CLIENT_STATUS"
    ensures ParseRequest(text) == AskClientStatus
  {
    hide ParseRequest;
    ParseClientStatus("");
    assert text == "CLIENT CLIENT_STATUS" + "";
  }

  lemma RepliesTruly(names: seq<Name>, e: Env, inputs: seq<Input>, now: int, d: Datagram, n: Name, padding: string)
    requires (forall m :: m in names ==> J.Visible(m)) && AllBlank(padding) && ParseRequest(d.text) == AskClientStatus
    ensures var t := Receive(Run(Boot(names), e, inputs), e, now, d).0;
      && Present(t, d.from) && (forall m :: m in t.dev ==> Known(t, m))
      && var reply := ReplyTo(t, d.from, AskClientStatus, now);
      && reply.Some?
      && J.Refreshed(reply.value + padding, n)
         == Some(if n in t.links.wants[d.from] then J.CONNECTED else J.DISCONNECTED)
      && (n in t.dev && d.from in t.links.users[n] ==> n in t.links.wants[d.from])
  {
    hide J.Refreshed, ClientStatusText, Run, Boot, Receive, ReplyTo, ParseRequest, J.Visible;
    var s := Run(Boot(names), e, inputs);
    Asked(s, e, now, d);
    var t := Receive(s, e, now, d).0;
    var wants := t.links.wants[d.from];
    forall i | 0 <= i < |wants| ensures J.Visible(wants[i]) {
      assert wants[i] in wants && wants[i] in t.links.users;
    }
    J.RefreshedExact(wants, padding, n);
  }

  /** On well-behaved runs the Java client reads CONNECTED for exactly the devices that count it
      as a user. */
  lemma ReplyCounts(names: seq<Name>, e: Env, inputs: seq<Input>, now: int, d: Datagram, n: Name, padding: string)
    requires (forall m :: m in names ==> J.Visible(m)) && AllBlank(padding) && d.text == "CLIENT CLIENT_STATUS"
    requires WellBehavedEnv(e)
    ensures var t := Receive(Run(Boot(names), e, inputs), e, now, d).0;
      && Present(t, d.from) && (forall m :: m in t.dev ==> Known(t, m))
      && var reply := ReplyTo(t, d.from, ParseRequest(d.text), now);
      && reply.Some?
      && (J.Refreshed(reply.value + padding, n) == Some(J.CONNECTED) <==> n in t.dev && d.from in t.links.users[n])
  {
    hide ParseRequest, Receive, ReplyTo, Run, Boot, J.Refreshed, J.Visible, WellBehavedEnv;
    AskText(d.text);
    RepliesCount(names, e, inputs, now, d, n, padding);
  }

  lemma RepliesCount(names: seq<Name>, e: Env, inputs: seq<Input>, now: int, d: Datagram, n: Name, padding: string)
    requires (forall m :: m in names ==> J.Visible(m)) && AllBlank(padding) && ParseRequest(d.text) == AskClientStatus
    requires WellBehavedEnv(e)
    ensures var t := Receive(Run(Boot(names), e, inputs), e, now, d).0;
      && Present(t, d.from) && (forall m :: m in t.dev ==> Known(t, m))
      && var reply := ReplyTo(t, d.from, AskClientStatus, now);
      && reply.Some?
      && (J.Refreshed(reply.value + padding, n) == Some(J.CONNECTED) <==> n in t.dev && d.from in t.links.users[n])
  {
    hide J.Refreshed, ClientStatusText, Run, Boot, Receive, ReplyTo, ParseRequest, J.Visible, WellBehavedEnv, Mirror,
         UsersMatch, Counted;
    var s := Run(Boot(names), e, inputs);
    RunGood(names, e, inputs);
    ReceiveGood(s, e, now, d);
    Asked(s, e, now, d);
    RepliesTruly(names, e, inputs, now, d, n, padding);
    WantsPair(Receive(s, e, now, d).0, e, d.from, n);
  }

  /** Why the commands must be well-behaved: when the link_force_down of a FORCE_DOWN exits with
      another status than 0, the client goes on to read CONNECTED for a device that is DOWN and counts
      no user. */
  lemma ReplyFooled(names: seq<Name>, e: Env, a: Addr, port: int, n: Name, padding: string)
    requires (forall m :: m in names ==> J.Visible(m)) && AllBlank(padding)
    requires e.retries >= 0 && e.clientTimeout >= 0 && e.connectTimeout >= 0 && n in names
    requires e.world(0, LinkUp).Exit? && e.world(1, LinkForceDown).Exit? && e.world(1, LinkForceDown) != Exit(0)
    ensures var inputs := [Input(0, Some(Datagram(a, port, "CLIENT UP " + n))),
                           Input(0, Some(Datagram(a, port, "CLIENT FORCE_DOWN " + n)))];
      var (s, ask) := (Run(Boot(names), e, inputs), Datagram(a, port, "CLIENT CLIENT_STATUS"));
      var t := Receive(s, e, 0, ask).0;
      && Present(t, a) && (forall m :: m in t.dev ==> Known(t, m)) && Known(s, n)
      && s.dev[n].status == DOWN && t.links.users[n] == []
      && var reply := ReplyTo(t, a, ParseRequest(ask.text), 0);
      reply.Some? && J.Refreshed(reply.value + padding, n) == Some(J.CONNECTED)
  {
    hide ParseRequest, Receive, ReplyTo, Run, Boot, J.Refreshed, J.Visible;
    ParseNamed(n);
    AskText("CLIENT CLIENT_STATUS");
    RepliesFooled(names, e, Datagram(a, port, "CLIENT UP " + n), Datagram(a, port, "CLIENT FORCE_DOWN " + n),
                  Datagram(a, port, "CLIENT CLIENT_STATUS"), n, padding);
  }

  lemma RepliesFooled(names: seq<Name>, e: Env, up: Datagram, off: Datagram, ask: Datagram, n: Name, padding: string)
    requires (forall m :: m in names ==> J.Visible(m)) && AllBlank(padding)
    requires e.retries >= 0 && e.clientTimeout >= 0 && e.connectTimeout >= 0 && n in names
    requires off.from == up.from && ask.from == up.from
    requires ParseRequest(up.text) == BringUp(n) && ParseRequest(off.text) == ForceOff(n)
    requires ParseRequest(ask.text) == AskClientStatus
    requires e.world(0, LinkUp).Exit? && e.world(1, LinkForceDown).Exit? && e.world(1, LinkForceDown) != Exit(0)
    ensures var s := Run(Boot(names), e, [Input(0, Some(up)), Input(0, Some(off))]);
      var t := Receive(s, e, 0, ask).0;
      && Present(t, ask.from) && (forall m :: m in t.dev ==> Known(t, m)) && Known(s, n)
      && s.dev[n].status == DOWN && t.links.users[n] == []
      && var reply := ReplyTo(t, ask.from, AskClientStatus, 0);
      reply.Some? && J.Refreshed(reply.value + padding, n) == Some(J.CONNECTED)
  {
    hide J.Refreshed, ClientStatusText, Run, Boot, Receive, ReplyTo, ParseRequest, J.Visible;
    var inputs := [Input(0, Some(up)), Input(0, Some(off))];
    StubbornOffRun(names, e, up, off, n);
    Asked(Run(Boot(names), e, inputs), e, 0, ask);
    RepliesTruly(names, e, inputs, 0, ask, n, padding);
  }

  // ---------- Status broadcasts ----------

  /** No device has more users than fit an int. */
  ghost predicate FewUsers(s: State) {
    forall n :: n in s.links.users ==> |s.links.users[n]| <= INT_MAX
  }

  lemma DisplayPrintable(s: State, now: int)
    requires Safe(s) && FewUsers(s) && forall n :: n in s.dev ==> Clean(n, J.DELIMS)
    ensures C.Printable(Display(s, now), J.DELIMS) && C.NamesOf(Display(s, now)) == s.links.devs
  {
    hide Clean;
    var devs := Display(s, now);
    forall i | 0 <= i < |devs| ensures Clean(devs[i].0, J.DELIMS) && C.Showable(devs[i].1) {
      var n := s.links.devs[i];
      assert n in s.links.devs && Known(s, n);
    }
    assert C.NamesOf(devs) == s.links.devs;
  }

  /** What a client may conclude about a device from one line of a broadcast. */
  ghost predicate Told(s: State, n: Name, st: Status, time: int, users: int, now: int)
    requires Known(s, n)
  {
    && st == s.dev[n].status
    && (st == UP ==> time == ToInt32(now - s.dev[n].since) && users == |s.links.users[n]| >= 1)
    && (st != UP ==> time == 0 && users == 0)
    && ((st == DOWN || st == DISCONNECTING) <==> forall a :: a in s.links.wants ==> n !in s.links.wants[a])
  }

  lemma ShownTold(s: State, e: Env, now: int, n: Name)
    requires Good(s, e) && n in s.dev
    ensures var sh := ShownOf(s.dev[n], |s.links.users[n]|, now);
      Told(s, n, sh.status, sh.time, sh.users, now)
  {
    hide Good;
    GoodFacts(s, e, n);
    var users := s.links.users[n];
    if users != [] {
      var a := users[0];
      assert a in users;
      WantsPair(s, e, a, n);
    }
    forall a | a in s.links.wants && n in s.links.wants[a] ensures a in users {
      WantsPair(s, e, a, n);
    }
  }

  lemma GoodFacts(s: State, e: Env, n: Name)
    requires Good(s, e) && n in s.dev
    ensures Known(s, n) && Matched(s.dev[n].status, s.links.users[n]) && s.heard.Keys == s.links.wants.Keys
    ensures forall a :: a in s.links.users[n] ==> a in s.heard
  {
  }

  /** The Java client knows the server's devices and can tell their names apart. */
  ghost predicate Ready(s: State, list: seq<J.Tracked>, fold: J.Folding) {
    && (forall n :: n in s.dev ==> Clean(n, J.DELIMS) && J.Knows(list, n, fold))
    && (forall m, n :: m in s.dev && n in s.dev && m != n ==> J.Folded(m, fold) != J.Folded(n, fold))
  }

  lemma ReadyDisplay(s: State, e: Env, now: int, list: seq<J.Tracked>, fold: J.Folding)
    requires Good(s, e) && FewUsers(s) && Ready(s, list, fold)
    ensures var devs := Display(s, now);
      C.Printable(devs, J.DELIMS) && (forall k :: 0 <= k < |devs| ==> J.Knows(list, devs[k].0, fold))
      && J.AllDiffer(devs, fold)
  {
    hide Clean, J.Knows, J.Folded, ShownOf;
    DisplayPrintable(s, now);
    var devs := Display(s, now);
    assert |devs| == |s.links.devs|;
    forall i | 0 <= i < |devs| ensures J.Knows(list, devs[i].0, fold) {
      assert s.links.devs[i] in s.links.devs;
    }
    forall i, j | 0 <= i < j < |devs| ensures J.Folded(devs[i].0, fold) != J.Folded(devs[j].0, fold) {
      assert s.links.devs[i] != s.links.devs[j];
      assert s.links.devs[i] in s.links.devs && s.links.devs[j] in s.links.devs;
    }
  }

  lemma DisplayAt(s: State, e: Env, now: int, n: Name) returns (k: nat)
    requires Good(s, e) && n in s.dev
    ensures var devs := Display(s, now);
      k < |devs| && Known(s, n) && devs[k] == (n, ShownOf(s.dev[n], |s.links.users[n]|, now))
  {
    hide ShownOf;
    assert n in s.links.devs;
    k :| 0 <= k < |s.links.devs| && s.links.devs[k] == n;
  }

  /** Both clients know the device `n` as the server showed it: the C client under its name, the Java
      client in the first entry that had its name, case aside, in the list before. */
  ghost predicate BothKnow(c: seq<C.Entry>, list: seq<J.Tracked>, j: seq<J.Tracked>, n: Name, fold: J.Folding,
                           sh: Shown) {
    && C.Get(c, n) == Some(C.EntryOf((n, sh)))
    && |j| == |list| && J.Knows(list, n, fold)
    && forall i :: 0 <= i < |list| && J.First(list, i, n, fold) ==>
         j[i] == J.Tracked(list[i].name, Some(sh.status), sh.time, sh.users)
  }

  lemma BothRead(table: seq<C.Entry>, list: seq<J.Tracked>, devs: seq<(Name, Shown)>, padding: string,
                 fold: J.Folding, k: nat)
    requires C.Printable(devs, J.DELIMS) && (forall i :: 0 <= i < |devs| ==> J.Knows(list, devs[i].0, fold))
    requires J.AllDiffer(devs, fold) && AllBlank(padding) && k < |devs|
    ensures var text := BroadcastText(devs);
      var (c, j) := (C.Dispatch(table, text), J.Receive(list, text + padding, fold));
      c.Updated? && j.Updated? && BothKnow(c.table, list, j.list, devs[k].0, fold, devs[k].1)
  {
    hide J.Receive, J.Folded, J.First, J.Knows, BroadcastText, C.Dispatch, C.Get, C.PutAll;
    J.DifferNames(devs, fold);
    assert C.Printable(devs, C.DELIMS);
    C.RoundTrip(table, devs);
    J.RoundTrip(list, devs, padding, fold);
  }

  lemma AnsweredGood(names: seq<Name>, e: Env, inputs: seq<Input>, i: Input)
    requires WellBehavedEnv(e)
    ensures var t := Answered(Run(Boot(names), e, inputs), e, i);
      Good(t, e) && forall n :: n in t.dev <==> n in names
  {
    hide Good, Run, Boot, Receive;
    RunGood(names, e, inputs);
    var s := Run(Boot(names), e, inputs);
    if i.datagram.Some? {
      ReceiveGood(s, e, i.now, i.datagram.value);
    }
  }

  /** On well-behaved runs, both clients read off the broadcast of any pass what is true of every
      device of the server: its status, its uptime and user count, and whether any client wants it. */
  lemma BroadcastTruth(names: seq<Name>, e: Env, inputs: seq<Input>, i: Input, n: Name,
                       table: seq<C.Entry>, list: seq<J.Tracked>, padding: string, fold: J.Folding)
    requires WellBehavedEnv(e) && AllBlank(padding) && n in names
    ensures var t := Answered(Run(Boot(names), e, inputs), e, i);
      FewUsers(t) && Ready(t, list, fold) ==> (
        && (forall m :: m in t.links.devs ==> Known(t, m))
        && var text := BroadcastText(Display(t, i.now));
        var (c, j) := (C.Dispatch(table, text), J.Receive(list, text + padding, fold));
        && c.Updated? && j.Updated? && Known(t, n)
        && exists sh :: (
             && BothKnow(c.table, list, j.list, n, fold, sh)
             && Told(t, n, sh.status, sh.time, sh.users, i.now)))
  {
    hide J.Receive, C.Dispatch, Display, BroadcastText, Ready, FewUsers, Run, Boot, Answered, Good, BothKnow, Told;
    var t := Answered(Run(Boot(names), e, inputs), e, i);
    AnsweredGood(names, e, inputs, i);
    if FewUsers(t) && Ready(t, list, fold) {
      ReadyDisplay(t, e, i.now, list, fold);
      var k := DisplayAt(t, e, i.now, n);
      ShownTold(t, e, i.now, n);
      BothRead(table, list, Display(t, i.now), padding, fold, k);
    }
  }
}
