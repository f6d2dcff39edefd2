/** The C client's parser of status broadcasts, and that it reads back what the server printed. */
module CClient {
  import opened Collections
  import opened Manager
  import opened Text
  import opened Wire

  /** The client's device_t: name, status, connect_time and no_users. */
  datatype Entry = Entry(name: string, status: Status, time: int, users: int)

  /** Where get_device finds the name; the length of the list when it does not. */
  function Index(table: seq<Entry>, n: string): (i: nat)
    ensures i <= |table| && (i < |table| ==> table[i].name == n)
    ensures forall j :: 0 <= j < i ==> table[j].name != n
  {
    if table == [] || table[0].name == n then 0 else 1 + Index(table[1..], n)
  }

  /** An unknown device is appended, zeroed but for its name. */
  function Admit(table: seq<Entry>, n: string): (t: seq<Entry>)
    ensures Index(t, n) < |t|
  {
    if Index(table, n) < |table| then table
    else
      var t := table + [Entry(n, DOWN, 0, 0)];
      assert t[|table|].name == n;
      t
  }

  /** The conversion of an unsigned long to time_t. */
  function ToTime(x: nat): (r: int)
    requires x <= ULONG_MAX
    ensures -0x8000_0000_0000_0000 <= r <= 0x7FFF_FFFF_FFFF_FFFF && (x - r) % 0x1_0000_0000_0000_0000 == 0
  {
    if x > 0x7FFF_FFFF_FFFF_FFFF then x - ULONG_SIZE else x
  }

  /** Where strchr finds a space. */
  function FindSpace(s: string): (k: nat)
    ensures k <= |s|
  {
    if s == [] || s[0] == ' ' then 0 else 1 + FindSpace(s[1..])
  }

  /** The if-cascade over the status; None when the code would step outside of the string, which
      takes an UP without both of its parameters.  An unknown status changes nothing. */
  function ReadStatus(st: string, e: Entry): Option<Entry> {
    if "UP" <= st then
      if |st| < 3 then None
      else
        var x := st[3..];
        if FindSpace(x) == |x| then None
        else Some(Entry(e.name, UP, ToTime(StrToUl(x)), StrToUl(x[FindSpace(x) + 1..]) % 0x1_0000_0000))
    else if st == "DOWN" then Some(Entry(e.name, DOWN, 0, 0))
    else if st == "CONNECTING" then Some(Entry(e.name, CONNECTING, 0, 0))
    else if st == "DISCONNECTING" then Some(Entry(e.name, DISCONNECTING, 0, 0))
    else Some(e)
  }

  function Update(table: seq<Entry>, n: string, st: string): Option<seq<Entry>> {
    var t := Admit(table, n);
    var i := Index(t, n);
    match ReadStatus(st, t[i])
    case None => None
    case Some(e) => Some(t[i := e])
  }

  /** The loop over the tokens; a name without a status ends it. */
  function Parse(table: seq<Entry>, tokens: seq<string>): Option<seq<Entry>>
    decreases |tokens|
  {
    if |tokens| < 2 then Some(table)
    else
      match Update(table, tokens[0], tokens[1])
      case None => None
      case Some(t) => Parse(t, tokens[2..])
  }

  const DELIMS: set<char> := {'\n', '\t'}

  const BROADCAST_INIT := "BROADCAST INIT"
  const BROADCAST_QUIT := "BROADCAST QUIT"

  /** What came of a broadcast.  Dropped asks for the removal of the server itself; Beyond means
      that the parser stepped outside of the text. */
  datatype Outcome = Forgotten | Dropped | Updated(table: seq<Entry>) | Beyond | Unrecognised

  function Dispatch(table: seq<Entry>, text: string): Outcome {
    if BROADCAST_INIT <= text then Forgotten
    else if BROADCAST_QUIT <= text then Dropped
    else if BROADCAST_STATUS <= text then
      match Parse(table, Tokens(text[|BROADCAST_STATUS|..], DELIMS))
      case Some(t) => Updated(t)
      case None => Beyond
    else Unrecognised
  }

  /** The table behind the broadcast. */
  function TableAfter(table: seq<Entry>, what: Outcome): seq<Entry> {
    match what
    case Forgotten => []
    case Updated(t) => t
    case _ => table
  }

  /** The client's server_t, as far as status broadcasts go. */
  class RemoteServer {
    var devices: seq<Entry>

    constructor ()
      ensures devices == []
    {
      devices := [];
    }

    /** get_device, and add_device when it finds nothing. */
    method Lookup(n: string) returns (i: nat)
      modifies this
      ensures devices == Admit(old(devices), n) && i == Index(devices, n) && i < |devices|
    {
      i := 0;
      while i < |devices| && devices[i].name != n
        invariant i <= |devices| && devices == old(devices)
        invariant forall j :: 0 <= j < i ==> devices[j].name != n
      {
        i := i + 1;
      }
      if i == |devices| {
        devices := devices + [Entry(n, DOWN, 0, 0)];
      }
    }

    /** process_status_message; false where the code would step outside of a string. */
    method ProcessStatusMessage(message: string) returns (ok: bool)
      modifies this
      ensures match Parse(old(devices), Tokens(message, DELIMS))
              case Some(t) => ok && devices == t
              case None => !ok
    {
      hide ReadStatus, Tokens, Admit, Index;
      var toke := new Tokenizer(message, DELIMS);
      ghost var left := toke.Rest();
      var name := toke.Next();
      while name.Some?
        invariant toke.Valid() && fresh(toke)
        invariant Parse(old(devices), Tokens(message, DELIMS)) == Parse(devices, left)
        invariant if name.Some? then left == [name.value] + toke.Rest() else left == []
        decreases |left|
      {
        var status := toke.Next();
        if status.None? {
          return true;
        }
        assert left == [name.value, status.value] + toke.Rest();
        left := left[2..];
        var i := Lookup(name.value);
        var e := ReadStatus(status.value, devices[i]);
        if e.None? {
          return false;
        }
        devices := devices[i := e.value];
        name := toke.Next();
      }
      ok := true;
    }

    /** BROADCAST INIT: remove devices from the head of the list until it is empty. */
    method ForgetDevices()
      modifies this
      ensures devices == []
    {
      while devices != []
      {
        devices := devices[1..];
      }
    }

    /** process_command, once the server that sent the broadcast has been looked up. */
    method ProcessCommand(text: string) returns (what: Outcome)
      modifies this
      ensures what == Dispatch(old(devices), text)
      ensures what != Beyond ==> devices == TableAfter(old(devices), what)
    {
      hide Parse, Tokens;
      if BROADCAST_INIT <= text {
        ForgetDevices();
        what := Forgotten;
      } else if BROADCAST_QUIT <= text {
        what := Dropped;
      } else if BROADCAST_STATUS <= text {
        var ok := ProcessStatusMessage(text[|BROADCAST_STATUS|..]);
        what := if ok then Updated(devices) else Beyond;
      } else {
        what := Unrecognised;
      }
    }
  }

  // ---------- Which broadcast it is ----------

  lemma BroadcastTexts()
    ensures BROADCAST_INIT == "BROADCAST INIT" && BROADCAST_QUIT == "BROADCAST QUIT"
    ensures BROADCAST_STATUS == "BROADCAST STATUS "
  {
  }

  /** An INIT makes the client forget the devices, a QUIT asks for the removal of the server, a STATUS is
      taken apart, and any other text is refused. */
  lemma DispatchExact(table: seq<Entry>, rest: string, text: string)
    ensures Dispatch(table, "BROADCAST INIT" + rest) == Forgotten
    ensures Dispatch(table, "BROADCAST QUIT" + rest) == Dropped
    ensures Dispatch(table, "BROADCAST STATUS " + rest)
            == match Parse(table, Tokens(rest, {'\n', '\t'})) { case Some(t) => Updated(t) case None => Beyond }
    ensures !("BROADCAST INIT" <= text) && !("BROADCAST QUIT" <= text) && !("BROADCAST STATUS " <= text)
            ==> Dispatch(table, text) == Unrecognised
  {
    hide Parse, Tokens;
    BroadcastTexts();
    IsPrefix(BROADCAST_INIT, rest);
    IsPrefix(BROADCAST_QUIT, rest);
    NotPrefix(BROADCAST_INIT, BROADCAST_QUIT, rest, 10);
    IsPrefix(BROADCAST_STATUS, rest);
    NotPrefix(BROADCAST_INIT, BROADCAST_STATUS, rest, 10);
    NotPrefix(BROADCAST_QUIT, BROADCAST_STATUS, rest, 10);
  }

  // ---------- Reading back what the server printed ----------

  /** What a server can show: parameters only with UP, and those fit an int. */
  predicate Showable(sh: Shown) {
    && INT_MIN <= sh.time <= INT_MAX && 0 <= sh.users <= INT_MAX
    && (sh.status != UP ==> sh.time == 0 && sh.users == 0)
  }

  lemma DecIntChars(i: int)
    ensures DecInt(i) != [] && forall k :: 0 <= k < |DecInt(i)| ==> DecInt(i)[k] == '-' || '0' <= DecInt(i)[k] <= '9'
  {
  }

  lemma StatusTextClean(sh: Shown)
    ensures Clean(StatusText(sh), DELIMS)
  {
    DecIntChars(sh.time);
    DecIntChars(sh.users);
  }

  lemma {:induction false} FindSpaceIn(a: string, b: string)
    requires forall k :: 0 <= k < |a| ==> a[k] != ' '
    ensures FindSpace(a + " " + b) == |a|
  {
    if a == [] {
      assert ([] + " " + b)[0] == ' ';
    } else {
      assert (a + " " + b)[1..] == a[1..] + " " + b;
      FindSpaceIn(a[1..], b);
    }
  }

  lemma ReadUp(x: string, y: string, e: Entry)
    requires forall k :: 0 <= k < |x| ==> x[k] != ' '
    ensures ReadStatus("UP " + (x + " " + y), e)
         == Some(Entry(e.name, UP, ToTime(StrToUl(x + " " + y)), StrToUl(y) % 0x1_0000_0000))
  {
    hide StrToUl;
    var (st, p) := ("UP " + (x + " " + y), x + " " + y);
    assert st[3..] == p && st[0] == 'U' && st[1] == 'P';
    FindSpaceIn(x, y);
    assert p[|x| + 1..] == y;
  }

  lemma ReadBackUp(time: int, users: int, e: Entry)
    requires INT_MIN <= time <= INT_MAX && 0 <= users <= INT_MAX
    ensures ReadStatus("UP " + (DecInt(time) + " " + DecInt(users)), e) == Some(Entry(e.name, UP, time, users))
  {
    hide DecInt, StrToUl, ReadStatus;
    var (x, y) := (DecInt(time), DecInt(users));
    DecIntChars(time);
    ReadUp(x, y, e);
    assert x + (" " + y) == x + " " + y && y + [] == y;
    StrToUlDec(time, " " + y);
    StrToUlDec(users, []);
  }

  lemma ReadBack(sh: Shown, e: Entry)
    requires Showable(sh)
    ensures ReadStatus(StatusText(sh), e) == Some(Entry(e.name, sh.status, sh.time, sh.users))
  {
    hide DecInt, ReadStatus;
    if sh.status == UP {
      ReadBackUp(sh.time, sh.users, e);
    } else {
      ReadOther(sh.status, e);
      assert StatusText(sh) == StatusWord(sh.status);
    }
  }

  lemma ReadOther(st: Status, e: Entry)
    requires st != UP
    ensures ReadStatus(StatusWord(st), e) == Some(Entry(e.name, st, 0, 0))
  {
    assert StatusWord(st)[0] != "UP"[0];
  }

  lemma LineTokens(n: Name, sh: Shown, rest: string)
    requires Clean(n, DELIMS)
    ensures Tokens(StatusLine(n, sh) + "\n" + rest, DELIMS) == [n, StatusText(sh)] + Tokens(rest, DELIMS)
  {
    var st := StatusText(sh);
    StatusTextClean(sh);
    assert StatusLine(n, sh) + "\n" + rest == n + ['\t'] + (st + ['\n'] + rest);
    TokenThen(n, '\t', st + ['\n'] + rest, DELIMS);
    TokenThen(st, '\n', rest, DELIMS);
  }

  /** Names that can be told apart on the wire. */
  ghost predicate Printable(devs: seq<(Name, Shown)>, delims: set<char>) {
    forall i :: 0 <= i < |devs| ==> Clean(devs[i].0, delims) && Showable(devs[i].1)
  }

  function Put(table: seq<Entry>, n: Name, sh: Shown): seq<Entry> {
    var t := Admit(table, n);
    t[Index(t, n) := Entry(n, sh.status, sh.time, sh.users)]
  }

  function PutAll(table: seq<Entry>, devs: seq<(Name, Shown)>): seq<Entry>
    decreases |devs|
  {
    if devs == [] then table else PutAll(Put(table, devs[0].0, devs[0].1), devs[1..])
  }

  lemma {:induction false} ParseLines(table: seq<Entry>, devs: seq<(Name, Shown)>)
    requires Printable(devs, DELIMS)
    ensures Parse(table, Tokens(Lines(devs), DELIMS)) == Some(PutAll(table, devs))
    decreases |devs|
  {
    if devs == [] {
    } else {
      var (n, sh) := (devs[0].0, devs[0].1);
      LineTokens(n, sh, Lines(devs[1..]));
      var t := Admit(table, n);
      ReadBack(sh, t[Index(t, n)]);
      var tokens := [n, StatusText(sh)] + Tokens(Lines(devs[1..]), DELIMS);
      assert tokens[2..] == Tokens(Lines(devs[1..]), DELIMS);
      ParseLines(Put(table, n, sh), devs[1..]);
    }
  }

  /** The server's broadcast is taken for a status message, and for no other. */
  lemma DispatchStatus(table: seq<Entry>, devs: seq<(Name, Shown)>)
    requires Printable(devs, DELIMS)
    ensures Dispatch(table, BroadcastText(devs)) == Updated(PutAll(table, devs))
  {
    hide PutAll, Lines, Tokens, Parse, Printable;
    ParseLines(table, devs);
    IsPrefix(BROADCAST_STATUS, Lines(devs));
    NotPrefix(BROADCAST_INIT, BROADCAST_STATUS, Lines(devs), 10);
    NotPrefix(BROADCAST_QUIT, BROADCAST_STATUS, Lines(devs), 10);
  }

  // ---------- Any other status ----------

  lemma {:induction false} FirstSpace(s: string, k: nat)
    requires k <= |s| && (forall i :: 0 <= i < k ==> s[i] != ' ') && (k < |s| ==> s[k] == ' ')
    ensures FindSpace(s) == k
  {
    if k == 0 {
    } else {
      FirstSpace(s[1..], k - 1);
    }
  }

  /** An UP needs a space behind position 3, the first of which ends the uptime; without one the code
      steps outside of the string.  A status that is none of the four leaves the entry as it was. */
  lemma ReadExact(st: string, e: Entry, k: nat)
    requires "UP" <= st ==> 3 <= k <= |st| && forall i :: 3 <= i < k ==> st[i] != ' '
    ensures st == "UP" ==> ReadStatus(st, e).None?
    ensures "UP" <= st && k == |st| ==> ReadStatus(st, e).None?
    ensures "UP" <= st && k < |st| && st[k] == ' ' ==>
      ReadStatus(st, e) == Some(Entry(e.name, UP, ToTime(StrToUl(st[3..])), StrToUl(st[k + 1..]) % 0x1_0000_0000))
    ensures !("UP" <= st) && st !in {"DOWN", "CONNECTING", "DISCONNECTING"} ==> ReadStatus(st, e) == Some(e)
  {
    hide StrToUl, ToTime;
    if "UP" <= st && (k < |st| ==> st[k] == ' ') {
      FirstSpace(st[3..], k - 3);
      if k < |st| {
        assert st[3..][k - 3 + 1..] == st[k + 1..];
      }
    }
  }

  /** A device that the client hears of for the first time, with a status that it does not know. */
  lemma UpdateStrange(table: seq<Entry>, n: string, st: string)
    requires forall i :: 0 <= i < |table| ==> table[i].name != n
    requires !("UP" <= st) && st !in {"DOWN", "CONNECTING", "DISCONNECTING"}
    ensures Update(table, n, st) == Some(table + [Entry(n, DOWN, 0, 0)])
  {
    var added := Entry(n, DOWN, 0, 0);
    IndexIs(table, n, |table|);
    IndexIs(table + [added], n, |table|);
    ReadExact(st, added, 0);
    assert (table + [added])[|table| := added] == table + [added];
  }

  /** A name without a status at the end changes nothing. */
  lemma {:induction false} ParseOdd(table: seq<Entry>, tokens: seq<string>, n: string)
    requires |tokens| % 2 == 0
    ensures Parse(table, tokens + [n]) == Parse(table, tokens)
    decreases |tokens|
  {
    hide Update;
    if tokens == [] {
    } else {
      assert (tokens + [n])[2..] == tokens[2..] + [n];
      var t := Update(table, tokens[0], tokens[1]);
      if t.Some? {
        ParseOdd(t.value, tokens[2..], n);
      }
    }
  }

  // ---------- What a broadcast does to the client's table ----------

  function Names(table: seq<Entry>): (r: seq<string>)
    ensures |r| == |table| && forall i :: 0 <= i < |r| ==> r[i] == table[i].name
  {
    seq(|table|, i requires 0 <= i < |table| => table[i].name)
  }

  function NamesOf(devs: seq<(Name, Shown)>): (r: seq<string>)
    ensures |r| == |devs| && forall i :: 0 <= i < |r| ==> r[i] == devs[i].0
  {
    seq(|devs|, i requires 0 <= i < |devs| => devs[i].0)
  }

  /** What the client knows about a device. */
  function Get(table: seq<Entry>, n: string): Option<Entry> {
    if Index(table, n) < |table| then Some(table[Index(table, n)]) else None
  }

  function EntryOf(d: (Name, Shown)): Entry {
    Entry(d.0, d.1.status, d.1.time, d.1.users)
  }

  lemma IndexIs(table: seq<Entry>, n: string, i: nat)
    requires i <= |table| && (i < |table| ==> table[i].name == n)
    requires forall j :: 0 <= j < i ==> table[j].name != n
    ensures Index(table, n) == i
  {
  }

  lemma IndexNames(table: seq<Entry>, n: string)
    ensures Index(table, n) < |table| <==> n in Names(table)
  {
    if n in Names(table) {
      var i :| 0 <= i < |Names(table)| && Names(table)[i] == n;
      assert table[i].name == n;
    }
    if Index(table, n) < |table| {
      assert Names(table)[Index(table, n)] == n;
    }
  }

  /** Putting one device changes what is known of it and nothing else, and appends its name if it
      is new. */
  lemma PutGet(table: seq<Entry>, n: Name, sh: Shown, m: string)
    ensures Get(Put(table, n, sh), m) == if m == n then Some(EntryOf((n, sh))) else Get(table, m)
  {
    var (a, t) := (Admit(table, n), Put(table, n, sh));
    IndexIs(t, n, Index(a, n));
    if m != n {
      var i := Index(table, m);
      if i < |table| { IndexIs(t, m, i); } else { IndexIs(t, m, |t|); }
    }
  }

  lemma PutNames(table: seq<Entry>, n: Name, sh: Shown)
    ensures Names(Put(table, n, sh)) == Names(table) + if n in Names(table) then [] else [n]
  {
    IndexNames(table, n);
    if n !in Names(table) {
      IndexIs(Admit(table, n), n, |table|);
    }
  }

  lemma {:induction false} PutAllGet(table: seq<Entry>, devs: seq<(Name, Shown)>, m: string)
    requires NoDup(NamesOf(devs))
    ensures m !in NamesOf(devs) ==> Get(PutAll(table, devs), m) == Get(table, m)
    ensures forall i :: 0 <= i < |devs| && devs[i].0 == m ==> Get(PutAll(table, devs), m) == Some(EntryOf(devs[i]))
    decreases |devs|
  {
    if devs == [] {
    } else {
      var (n, sh) := (devs[0].0, devs[0].1);
      assert NamesOf(devs) == [n] + NamesOf(devs[1..]);
      PutGet(table, n, sh, m);
      PutAllGet(Put(table, n, sh), devs[1..], m);
      assert NamesOf(devs)[0] == n && n !in NamesOf(devs[1..]);
    }
  }

  ghost function NameSet(table: seq<Entry>): set<string> {
    set n | n in Names(table)
  }

  lemma NamesAfter(known: seq<string>, after: seq<string>, n: string, rest: seq<string>, g: set<string>, h: set<string>)
    requires after == known + (if n in known then [] else [n]) && n !in rest
    requires (forall m :: m in g <==> m in known) && (forall m :: m in h <==> m in after)
    ensures after + Minus(rest, h) == known + Minus([n] + rest, g)
  {
    MinusSame(rest, h, g);
    assert ([n] + rest)[1..] == rest;
  }

  lemma {:induction false} PutAllNames(table: seq<Entry>, devs: seq<(Name, Shown)>)
    requires NoDup(NamesOf(devs))
    ensures Names(PutAll(table, devs)) == Names(table) + Minus(NamesOf(devs), NameSet(table))
    decreases |devs|
  {
    hide Put;
    if devs == [] {
      assert NamesOf(devs) == [];
    } else {
      var (n, sh, rest) := (devs[0].0, devs[0].1, NamesOf(devs[1..]));
      assert NamesOf(devs) == [n] + rest && NamesOf(devs)[1..] == rest;
      var t := Put(table, n, sh);
      PutNames(table, n, sh);
      PutAllNames(t, devs[1..]);
      assert n !in rest by { assert NamesOf(devs)[0] == n; }
      NamesAfter(Names(table), Names(t), n, rest, NameSet(table), NameSet(t));
    }
  }

  /** Parsing a rendered broadcast sets each device it names to what the server showed, appends
      the devices that were unknown, in their order, and leaves what is known of any other. */
  lemma RoundTrip(table: seq<Entry>, devs: seq<(Name, Shown)>)
    requires Printable(devs, DELIMS) && NoDup(NamesOf(devs))
    ensures var t := PutAll(table, devs);
      && Dispatch(table, BroadcastText(devs)) == Updated(t)
      && (forall i :: 0 <= i < |devs| ==> Get(t, devs[i].0) == Some(EntryOf(devs[i])))
      && (forall m :: m !in NamesOf(devs) ==> Get(t, m) == Get(table, m))
      && Names(t) == Names(table) + Minus(NamesOf(devs), NameSet(table))
  {
    hide Dispatch, BroadcastText, PutAll;
    DispatchStatus(table, devs);
    PutAllNames(table, devs);
    forall i | 0 <= i < |devs| ensures Get(PutAll(table, devs), devs[i].0) == Some(EntryOf(devs[i])) {
      PutAllGet(table, devs, devs[i].0);
    }
    forall m | m !in NamesOf(devs) ensures Get(PutAll(table, devs), m) == Get(table, m) {
      PutAllGet(table, devs, m);
    }
  }

  /** The server's devices as entries of the client. */
  function EntriesOf(devs: seq<(Name, Shown)>): (r: seq<Entry>)
    ensures |r| == |devs|
    ensures forall i :: 0 <= i < |r| ==>
      r[i] == Entry(devs[i].0, devs[i].1.status, devs[i].1.time, devs[i].1.users)
  {
    seq(|devs|, i requires 0 <= i < |devs| => EntryOf(devs[i]))
  }

  lemma EmptyTable(devs: seq<(Name, Shown)>)
    requires Printable(devs, DELIMS) && NoDup(NamesOf(devs))
    ensures Dispatch([], BroadcastText(devs)) == Updated(EntriesOf(devs))
  {
    hide PutAll, BroadcastText, Dispatch, Printable;
    RoundTrip([], devs);
    var t := PutAll([], devs);
    MinusNone(NamesOf(devs), NameSet([]));
    assert Names([]) == [] && Names(t) == NamesOf(devs);
    forall i | 0 <= i < |devs| ensures t[i] == EntryOf(devs[i]) {
      Positions(t, i);
      assert Names(t)[i] == NamesOf(devs)[i];
    }
    assert t == EntriesOf(devs);
  }

  /** Whatever the client knew before: after an INIT and one broadcast its table is the server's, in the
      server's order. */
  lemma FreshTable(table: seq<Entry>, rest: string, devs: seq<(Name, Shown)>)
    requires Printable(devs, DELIMS) && NoDup(NamesOf(devs))
    ensures var t := TableAfter(table, Dispatch(table, "BROADCAST INIT" + rest));
      TableAfter(t, Dispatch(t, BroadcastText(devs))) == EntriesOf(devs)
  {
    hide Dispatch, BroadcastText, Printable;
    DispatchExact(table, rest, "");
    EmptyTable(devs);
  }

  /** The same of the client itself, which gets the two messages one behind the other. */
  method Restart(server: RemoteServer, rest: string, devs: seq<(Name, Shown)>)
    requires Printable(devs, DELIMS) && NoDup(NamesOf(devs))
    modifies server
    ensures server.devices == EntriesOf(devs)
  {
    hide Dispatch, BroadcastText, Printable;
    ghost var table := server.devices;
    DispatchExact(table, rest, "");
    EmptyTable(devs);
    var init := server.ProcessCommand("BROADCAST INIT" + rest);
    var status := server.ProcessCommand(BroadcastText(devs));
  }

  lemma Positions(t: seq<Entry>, i: nat)
    requires NoDup(Names(t)) && i < |t|
    ensures Get(t, t[i].name) == Some(t[i])
  {
    forall j | 0 <= j < i ensures t[j].name != t[i].name { assert Names(t)[j] != Names(t)[i]; }
    IndexIs(t, t[i].name, i);
  }
}
