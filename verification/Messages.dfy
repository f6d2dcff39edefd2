/** What each message does, by its text: the sender's record, the operation that follows, and its return
    code.  The operations themselves are taken apart in Table. */
module Messages {
  import opened Collections
  import opened Manager
  import opened Safety
  import opened MainLoop
  import opened Text
  import opened Wire
  import opened Requests
  import opened Table

  /** The sender of any client message is known from then on, at the end of g_clients if it is new, and
      was heard now. */
  ghost predicate HeardOf(s: State, h: State, now: int, a: Addr) {
    && h.dev == s.dev && h.ran == s.ran && h.log == s.log && h.heard == s.heard[a := now]
    && h.links.devs == s.links.devs && h.links.users == s.links.users
    && (if a in s.heard then h.links == s.links
        else h.links.clis == s.links.clis + [a] && h.links.wants == s.links.wants[a := []])
  }

  lemma HearOf(s: State, now: int, a: Addr)
    requires Safe(s)
    ensures HeardOf(s, Hear(s, now, a), now, a) && Safe(Hear(s, now, a)) && a in Hear(s, now, a).heard
  {
    HearKeeps(s, now, a);
  }

  /** A client's request, from the parsed text on. */
  lemma Requested(s: State, e: Env, now: int, d: Datagram)
    requires Safe(s) && FromClient(ParseRequest(d.text))
    ensures var h := Hear(s, now, d.from);
      && HeardOf(s, h, now, d.from) && Safe(h) && d.from in h.heard
      && Receive(s, e, now, d) == Serve(h, e, now, d.from, ParseRequest(d.text))
  {
    HearOf(s, now, d.from);
    hide ParseRequest, Serve, Notice, Consistent, Linked, HeardOf;
  }

  /** PING, DEVICES and CLIENT_STATUS, and STATUS of a known device, only note that the client is there. */
  lemma AskedOnly(s: State, e: Env, now: int, a: Addr, port: int, rest: string)
    requires Safe(s)
    ensures forall text :: text in {"CLIENT PING" + rest, "CLIENT DEVICES" + rest, "CLIENT CLIENT_STATUS" + rest} ==>
      var (t, rc) := Receive(s, e, now, Datagram(a, port, text));
      rc == Ok && HeardOf(s, t, now, a)
    ensures var (t, rc) := Receive(s, e, now, Datagram(a, port, "CLIENT STATUS " + rest));
      rc == (if rest in s.dev then Ok else Err(ENODEV)) && HeardOf(s, t, now, a)
  {
    hide ParseRequest, Receive, Consistent, Linked, HeardOf;
    ParseNamed(rest);
    forall text | text in {"CLIENT PING" + rest, "CLIENT DEVICES" + rest, "CLIENT CLIENT_STATUS" + rest}
      ensures var (t, rc) := Receive(s, e, now, Datagram(a, port, text)); rc == Ok && HeardOf(s, t, now, a)
    {
      Requested(s, e, now, Datagram(a, port, text));
    }
    Requested(s, e, now, Datagram(a, port, "CLIENT STATUS " + rest));
    assert Hear(s, now, a).dev == s.dev;
  }

  /** UP of a known device connects, DOWN of one in the client's list disconnects; else ENODEV. */
  lemma UpOrDown(s: State, e: Env, now: int, a: Addr, port: int, n: Name)
    requires Safe(s)
    ensures var h := Hear(s, now, a);
      && HeardOf(s, h, now, a) && Safe(h) && Present(h, a)
      && (n in s.dev ==> Known(h, n))
      && Receive(s, e, now, Datagram(a, port, "CLIENT UP " + n))
         == (if n in s.dev then Connect(h, e, now, a, n) else (h, Err(ENODEV)))
      && (a in s.heard && n in s.links.wants[a] ==> Known(h, n))
      && Receive(s, e, now, Datagram(a, port, "CLIENT DOWN " + n))
         == (if a in s.heard && n in s.links.wants[a] then Disconnect(h, e, now, a, n) else (h, Err(ENODEV)))
  {
    hide ParseRequest, Receive, Connect, Disconnect;
    ParseNamed(n);
    Requested(s, e, now, Datagram(a, port, "CLIENT UP " + n));
    Requested(s, e, now, Datagram(a, port, "CLIENT DOWN " + n));
  }

  /** FORCE_DOWN: a DISCONNECTING device is DOWN at once, any other behind a link_force_down that does not
      return -1.  The device then has no users, but it leaves the clients' lists only if it exits 0. */
  lemma ForcedOff(s: State, e: Env, now: int, a: Addr, port: int, n: Name)
    requires Safe(s)
    ensures var ((t, rc), h, r) :=
        (Receive(s, e, now, Datagram(a, port, "CLIENT FORCE_DOWN " + n)), Hear(s, now, a),
         e.world(s.ran, LinkForceDown));
      && HeardOf(s, h, now, a)
      && if n !in s.dev then rc == Err(ENODEV) && t == h
         else
           var (d, u) := (s.dev[n], s.links.users[n := []]);
           if d.status == DISCONNECTING then
             && rc == Ok && t.dev == s.dev[n := Device(DOWN, d.since, d.retries)] && t.ran == s.ran
             && t.links == h.links.(users := u)
           else if r.Failed? then
             rc == Err(r.errno) && t.dev == s.dev && t.ran == s.ran + 1 && t.links == h.links
           else
             && rc == Ok && t.dev == s.dev[n := Device(DOWN, d.since, d.retries)] && t.ran == s.ran + 1
             && t.links.devs == s.links.devs && t.links.clis == h.links.clis && t.links.users == u
             && (if r.code == 0 then WipedOf(t.links, h.links, n) else t.links.wants == h.links.wants)
  {
    hide ParseRequest, Receive, Consistent, Linked, Alter;
    ParseNamed(n);
    Requested(s, e, now, Datagram(a, port, "CLIENT FORCE_DOWN " + n));
    var h := Hear(s, now, a);
    if n in s.dev {
      ServedOff(h, e, now, a, n);
    }
  }

  lemma ServedOff(s: State, e: Env, now: int, a: Addr, n: Name)
    requires Safe(s) && a in s.heard && n in s.dev
    ensures Known(s, n)
    ensures var ((t, rc), d, r, u) :=
        (Serve(s, e, now, a, ForceOff(n)), s.dev[n], e.world(s.ran, LinkForceDown), s.links.users[n := []]);
      if d.status == DISCONNECTING then
        && rc == Ok && t.dev == s.dev[n := Device(DOWN, d.since, d.retries)] && t.ran == s.ran
        && t.links == s.links.(users := u)
      else if r.Failed? then
        rc == Err(r.errno) && t.dev == s.dev && t.ran == s.ran + 1 && t.links == s.links
      else
        && rc == Ok && t.dev == s.dev[n := Device(DOWN, d.since, d.retries)] && t.ran == s.ran + 1
        && t.links.devs == s.links.devs && t.links.clis == s.links.clis && t.links.users == u
        && (if r.code == 0 then WipedOf(t.links, s.links, n) else t.links.wants == s.links.wants)
  {
    hide Alter, Consistent, Linked;
    if s.dev[n].status == DISCONNECTING {
      DownFromDisconnecting(s, e, now, n);
    } else {
      DownFromOther(s, e, now, n);
      var t := Alter(s, e, now, n, DOWN).0;
      assert s.dev[n := s.dev[n]] == s.dev;
      assert s.links.users[n := []][n := []] == s.links.users[n := []];
    }
  }

  /** The peer's notices: ISUP takes a CONNECTING device UP and starts its uptime; of any other known
      device it is taken for granted.  ISDOWN asks for DOWN. */
  lemma Noticed(s: State, e: Env, now: int, a: Addr, port: int, n: Name)
    requires Safe(s)
    ensures n in s.dev ==> Known(s, n)
    ensures var (t, rc) := Receive(s, e, now, Datagram(a, port, "NOTIFY ISUP " + n));
      if n !in s.dev then (t, rc) == (s, Err(ENODEV))
      else
        && rc == Ok
        && (if s.dev[n].status == CONNECTING
            then Became(s, t, n, Device(UP, now, s.dev[n].retries), 0, [Moved(n, CONNECTING, UP)], false)
            else t == s)
    ensures Receive(s, e, now, Datagram(a, port, "NOTIFY ISDOWN " + n))
            == if n in s.dev then Alter(s, e, now, n, DOWN) else (s, Err(ENODEV))
  {
    hide ParseRequest, Serve, Alter, Consistent, Linked;
    ParseNotice(n);
    if n in s.dev {
      UpFromAny(s, e, now, n);
    }
  }

  /** Any other text is refused with ENOTSUP; one with the clients' prefix still notes its sender. */
  lemma Refused(s: State, e: Env, now: int, d: Datagram)
    requires Safe(s)
    requires "CLIENT " <= d.text ==>
      && !("CLIENT PING" <= d.text) && !("CLIENT DEVICES" <= d.text) && !("CLIENT UP " <= d.text)
      && !("CLIENT DOWN " <= d.text) && !("CLIENT FORCE_DOWN " <= d.text) && !("CLIENT STATUS " <= d.text)
      && !("CLIENT CLIENT_STATUS" <= d.text)
    requires "NOTIFY " <= d.text ==> !("NOTIFY ISUP " <= d.text) && !("NOTIFY ISDOWN " <= d.text)
    ensures var (t, rc) := Receive(s, e, now, d);
      rc == Err(ENOTSUP) && if "CLIENT " <= d.text then HeardOf(s, t, now, d.from) else t == s
  {
    hide ParseRequest, Consistent, Linked, HeardOf;
    ParseOther(d.text);
    if "CLIENT " <= d.text {
      Requested(s, e, now, d);
    }
  }

  /** The reply to STATUS is the device's line; an unknown device gets none. */
  lemma StatusReply(s: State, e: Env, now: int, a: Addr, port: int, n: Name)
    requires Safe(s)
    ensures var d := Datagram(a, port, "CLIENT STATUS " + n);
      var t := Receive(s, e, now, d).0;
      && Present(t, a) && (forall m :: m in t.dev ==> Known(t, m))
      && var reply := ReplyTo(t, a, ParseRequest(d.text), now);
      if n !in s.dev then reply == None
      else
        && Known(s, n)
        && var text := match s.dev[n].status
                       case DOWN => "DOWN"
                       case CONNECTING => "CONNECTING"
                       case DISCONNECTING => "DISCONNECTING"
                       case UP => "UP " + DecInt(ToInt32(now - s.dev[n].since)) + " " + DecInt(|s.links.users[n]|);
        reply == Some("SERVER STATUS " + (n + "\t" + text))
  {
    hide ParseRequest, Receive, DecInt, ToInt32;
    ParseNamed(n);
    AskedOnly(s, e, now, a, port, n);
    var d := Datagram(a, port, "CLIENT STATUS " + n);
    var t := Receive(s, e, now, d).0;
    if n in s.dev {
      StatusLineIs(s.dev[n], n, |s.links.users[n]|, now);
    }
  }

  lemma StatusLineIs(d: Device, n: Name, users: nat, now: int)
    ensures StatusLine(n, ShownOf(d, users, now))
            == n + "\t" + (match d.status
                           case DOWN => "DOWN"
                           case CONNECTING => "CONNECTING"
                           case DISCONNECTING => "DISCONNECTING"
                           case UP => "UP " + DecInt(ToInt32(now - d.since)) + " " + DecInt(users))
  {
    hide DecInt, ToInt32;
    var sh := ShownOf(d, users, now);
    if d.status == UP {
      var (x, y) := (DecInt(sh.time), DecInt(sh.users));
      assert "UP " + (x + " " + y) == "UP " + x + " " + y;
    } else {
      assert StatusText(sh) == StatusWord(d.status);
    }
  }
}
