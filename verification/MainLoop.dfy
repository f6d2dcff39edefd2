/** The main loop of the server, its runs, and its configuration: every state of a run is safe. */
module MainLoop {
  import opened Collections
  import opened Manager
  import opened Safety

  /** process_command on a received datagram. */
  function Receive(s: State, e: Env, now: int, d: Datagram): (r: (State, Rc))
    requires Safe(s)
    ensures Safe(r.0) && r.0.dev.Keys == s.dev.Keys && r.0.links.devs == s.links.devs
  {
    var q := ParseRequest(d.text);
    if FromClient(q) then
      HearKeeps(s, now, d.from);
      ServeKeeps(Hear(s, now, d.from), e, now, d.from, q);
      Serve(Hear(s, now, d.from), e, now, d.from, q)
    else if q.BadPrefix? then (s, Err(ENOTSUP))
    else
      NoticeKeeps(s, e, now, q);
      Notice(s, e, now, q)
  }

  /** timeout_old_clients and then timeout_old_devices; an error of the first does not stop the
      second. */
  function Tick(s: State, e: Env, now: int): (t: State)
    requires Safe(s)
    ensures Safe(t) && t.dev.Keys == s.dev.Keys && t.links.devs == s.links.devs
  {
    AgeClientsKeeps(s, e, now, s.links.clis);
    var s1 := AgeClients(s, e, now, s.links.clis).0;
    SweepDevicesKeeps(s1, e, now, s1.links.devs);
    SweepDevices(s1, e, now, s1.links.devs).0
  }

  /** The state behind the message of a pass, if there is one: the server broadcasts it. */
  function Answered(s: State, e: Env, i: Input): (t: State)
    requires Safe(s)
    ensures Safe(t) && t.dev.Keys == s.dev.Keys && t.links.devs == s.links.devs
  {
    if i.datagram.Some? then Receive(s, e, i.now, i.datagram.value).0 else s
  }

  /** One pass of the main loop. */
  function Pass(s: State, e: Env, i: Input): (t: State)
    requires Safe(s)
    ensures Safe(t) && t.dev.Keys == s.dev.Keys && t.links.devs == s.links.devs
  {
    Tick(Answered(s, e, i), e, i.now)
  }

  /** Every run of the main loop, from any safe state, with any inputs and any commands. */
  function Run(s: State, e: Env, inputs: seq<Input>): (t: State)
    requires Safe(s)
    ensures Safe(t) && t.dev.Keys == s.dev.Keys && t.links.devs == s.links.devs
    decreases |inputs|
  {
    if inputs == [] then s else Run(Pass(s, e, inputs[0]), e, inputs[1..])
  }

  /** add_device on g_devices while the configuration is read: a name already there is refused. */
  function Configured(s: State, n: Name): State {
    if n in s.dev then s
    else s.(links := s.links.(devs := s.links.devs + [n], users := s.links.users[n := []]),
            dev := s.dev[n := Device(DOWN, 0, 0)])
  }

  /** Nothing has happened yet. */
  ghost predicate Unused(s: State) {
    && Safe(s) && s.links.wants == map[] && s.ran == 0 && s.log == []
    && forall n :: n in s.dev ==> s.dev[n] == Device(DOWN, 0, 0) && s.links.users[n] == []
  }

  lemma BlankUnused()
    ensures Unused(Blank())
  {
  }

  lemma UnusedSafe(s: State)
    requires Unused(s)
    ensures Safe(s)
  {
  }

  lemma ConfiguredUnused(s: State, n: Name)
    requires Unused(s)
    ensures Unused(Configured(s, n)) && Configured(s, n).dev.Keys == s.dev.Keys + {n}
  {
    hide Consistent, Linked;
    if n !in s.dev { ConfiguredKeeps(s, n); }
  }

  lemma ConfiguredKeeps(s: State, n: Name)
    requires Safe(s) && n !in s.dev
    ensures Safe(Configured(s, n))
  {
  }

  function Configure(s: State, names: seq<Name>): (t: State)
    requires Unused(s)
    ensures Unused(t)
    ensures forall n :: n in t.dev <==> n in s.dev || n in names
    decreases |names|
  {
    if names == [] then s
    else
      ConfiguredUnused(s, names[0]);
      Configure(Configured(s, names[0]), names[1..])
  }

  /** The server when it enters its main loop. */
  function Boot(names: seq<Name>): (t: State)
    ensures Unused(t)
    ensures forall n :: n in t.dev <==> n in names
  {
    Configure(Blank(), names)
  }

  lemma {:induction false} ConfigureOrder(s: State, names: seq<Name>)
    requires Unused(s) && NoDup(names) && forall n :: n in names ==> n !in s.dev
    ensures Configure(s, names).links.devs == s.links.devs + names
    decreases |names|
  {
    hide Unused;
    if names == [] {
    } else {
      assert names[0] in names;
      ConfiguredUnused(s, names[0]);
      ConfigureOrder(Configured(s, names[0]), names[1..]);
      assert [names[0]] + names[1..] == names;
    }
  }

  /** g_devices keeps the order of the configuration. */
  lemma BootOrder(names: seq<Name>)
    requires NoDup(names)
    ensures Boot(names).links.devs == names
  {
    ConfigureOrder(Blank(), names);
  }
}
