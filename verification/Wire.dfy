/** The texts that the server sends, as functions of its state. */
module Wire {
  import opened Collections
  import opened Manager
  import opened Text

  /** What a status line shows of a device: uptime and user count only while it is UP. */
  datatype Shown = Shown(status: Status, time: int, users: int)

  /** time() - connect_time, cast to int, and the length of the client list. */
  function ShownOf(d: Device, users: int, now: int): Shown {
    if d.status == UP then Shown(UP, ToInt32(now - d.since), users) else Shown(d.status, 0, 0)
  }

  function StatusWord(st: Status): string {
    match st
    case DOWN => "DOWN"
    case UP => "UP "
    case CONNECTING => "CONNECTING"
    case DISCONNECTING => "DISCONNECTING"
  }

  /** The part of a status line behind the tab. */
  function StatusText(sh: Shown): string {
    StatusWord(sh.status) + if sh.status == UP then DecInt(sh.time) + " " + DecInt(sh.users) else ""
  }

  /** print_device_status. */
  function StatusLine(n: Name, sh: Shown): string {
    n + "\t" + StatusText(sh)
  }

  function Lines(devs: seq<(Name, Shown)>): string {
    if devs == [] then ""
    else StatusLine(devs[0].0, devs[0].1) + "\n" + Lines(devs[1..])
  }

  const BROADCAST_STATUS := "BROADCAST STATUS "

  /** broadcast_status_message. */
  function BroadcastText(devs: seq<(Name, Shown)>): string {
    BROADCAST_STATUS + Lines(devs)
  }

  /** What the server shows of each of its devices, in the order of g_devices. */
  function Display(s: State, now: int): (r: seq<(Name, Shown)>)
    requires forall n :: n in s.links.devs ==> Known(s, n)
    ensures |r| == |s.links.devs|
    ensures forall i :: 0 <= i < |r| ==> (
              && Known(s, s.links.devs[i])
              && r[i] == (s.links.devs[i], ShownOf(s.dev[s.links.devs[i]], |s.links.users[s.links.devs[i]]|, now)))
  {
    seq(|s.links.devs|, i requires 0 <= i < |s.links.devs| =>
      assert s.links.devs[i] in s.links.devs && Known(s, s.links.devs[i]);
      (s.links.devs[i], ShownOf(s.dev[s.links.devs[i]], |s.links.users[s.links.devs[i]]|, now)))
  }

  const SERVER_CLIENT_STATUS := "SERVER CLIENT_STATUS "

  /** The names behind the first, each behind a tab. */
  function Tabbed(ns: seq<Name>): string {
    if ns == [] then "" else "\t" + ns[0] + Tabbed(ns[1..])
  }

  /** send_client_status. */
  function ClientStatusText(wants: seq<Name>): string {
    SERVER_CLIENT_STATUS + if wants == [] then "" else wants[0] + Tabbed(wants[1..])
  }

  const SERVER_STATUS_PREFIX := "SERVER STATUS "

  /** What process_client sends back, once it has served a request; DEVICES is not modelled. */
  function ReplyTo(s: State, a: Addr, q: Request, now: int): Option<string>
    requires a in s.links.wants && forall n :: n in s.dev ==> Known(s, n)
  {
    match q
    case AskClientStatus => Some(ClientStatusText(s.links.wants[a]))
    case AskStatus(n) =>
      if n !in s.dev then None
      else
        assert Known(s, n);
        Some(SERVER_STATUS_PREFIX + StatusLine(n, ShownOf(s.dev[n], |s.links.users[n]|, now)))
    case _ => None
  }

  // ---------- The builders' loops ----------

  lemma LinesNone()
    ensures Lines([]) == ""
  {
  }

  lemma {:induction false} LinesSnoc(devs: seq<(Name, Shown)>, d: (Name, Shown))
    ensures Lines(devs + [d]) == Lines(devs) + StatusLine(d.0, d.1) + "\n"
  {
    if devs == [] {
      assert [d][1..] == [] && devs + [d] == [d];
      assert Lines([d]) == StatusLine(d.0, d.1) + "\n" + "";
    } else {
      assert (devs + [d])[1..] == devs[1..] + [d];
      LinesSnoc(devs[1..], d);
    }
  }

  lemma {:induction false} TabbedSnoc(ns: seq<Name>, n: Name)
    ensures Tabbed(ns + [n]) == Tabbed(ns) + "\t" + n
  {
    if ns == [] {
      assert [n][1..] == [] && ns + [n] == [n];
    } else {
      assert (ns + [n])[1..] == ns[1..] + [n];
      TabbedSnoc(ns[1..], n);
    }
  }

  /** The broadcast and the reply, from their first characters on. */
  lemma BroadcastGrows(devs: seq<(Name, Shown)>, n: Name, sh: Shown)
    ensures BroadcastText([]) == "BROADCAST STATUS "
    ensures BroadcastText(devs + [(n, sh)]) == BroadcastText(devs) + StatusLine(n, sh) + "\n"
  {
    hide StatusLine;
    LinesNone();
    LinesSnoc(devs, (n, sh));
  }

  lemma ClientStatusGrows(wants: seq<Name>, n: Name)
    ensures ClientStatusText([]) == "SERVER CLIENT_STATUS "
    ensures ClientStatusText([n]) == "SERVER CLIENT_STATUS " + n
    ensures wants != [] ==> ClientStatusText(wants + [n]) == ClientStatusText(wants) + "\t" + n
  {
    assert [n][1..] == [] && Tabbed([]) == "" && n + "" == n;
    if wants != [] {
      TabbedSnoc(wants[1..], n);
      assert (wants + [n])[1..] == wants[1..] + [n];
    }
  }
}
