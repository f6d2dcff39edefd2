/** The Java client's parsers of status broadcasts and of the CLIENT_STATUS reply. */
module JavaClient {
  import opened Collections
  import opened Manager
  import opened Text
  import opened Wire
  import C = CClient

  // ---------- Status broadcasts ----------

  /** linkDevice, as far as updateDeviceStatus goes; the status is UNKNOWN until the first one. */
  datatype Tracked = Tracked(name: string, status: Option<Status>, time: int, users: int)

  /** The characters that equalsIgnoreCase does not tell from others, each with the one that stands for
      it: any table will do. */
  type Folding = map<char, char>

  function Fold(c: char, fold: Folding): char {
    if c in fold then fold[c] else c
  }

  /** equalsIgnoreCase. */
  predicate SameName(a: string, b: string, fold: Folding) {
    |a| == |b| && forall i :: 0 <= i < |a| ==> Fold(a[i], fold) == Fold(b[i], fold)
  }

  /** The name with every character replaced by the one that stands for it. */
  function Folded(n: string, fold: Folding): (r: string)
    ensures |r| == |n| && forall i :: 0 <= i < |n| ==> r[i] == if n[i] in fold then fold[n[i]] else n[i]
  {
    seq(|n|, i requires 0 <= i < |n| => Fold(n[i], fold))
  }

  /** Where getDevice finds the name; the length of the list when it throws. */
  function Find(list: seq<Tracked>, n: string, fold: Folding): (i: nat)
    ensures i <= |list| && (i < |list| ==> SameName(list[i].name, n, fold))
    ensures forall j :: 0 <= j < i ==> !SameName(list[j].name, n, fold)
  {
    if list == [] || SameName(list[0].name, n, fold) then 0 else 1 + Find(list[1..], n, fold)
  }

  /** linkDeviceStates.getValue. */
  function StateOf(word: string): Option<Status> {
    if word == "DOWN" then Some(DOWN)
    else if word == "UP" then Some(UP)
    else if word == "CONNECTING" then Some(CONNECTING)
    else if word == "DISCONNECTING" then Some(DISCONNECTING)
    else None
  }

  /** The two parameters of an UP; None when a token is missing or is not a number. */
  function Parameters(tokens: seq<string>): Option<(int, int)> {
    if |tokens| < 2 then None
    else
      match (ParseInt(tokens[0]), ParseInt(tokens[1]))
      case (Some(x), Some(y)) => Some((x, y))
      case _ => None
  }

  /** updateDeviceStatus: the list it leaves, and whether it got to the end without an exception.
      An invalid state is skipped together with its name. */
  function UpdateAll(list: seq<Tracked>, tokens: seq<string>, fold: Folding): (seq<Tracked>, bool)
    decreases |tokens|
  {
    if tokens == [] then (list, true)
    else if |tokens| == 1 then (list, false)
    else
      var (n, st, i) := (tokens[0], StateOf(tokens[1]), Find(list, tokens[0], fold));
      if st.None? then UpdateAll(list, tokens[2..], fold)
      else if i == |list| then (list, false)
      else if st.value == UP then
        var p := Parameters(tokens[2..]);
        if p.None? then (list, false)
        else UpdateAll(list[i := Tracked(list[i].name, st, p.value.0, p.value.1)], tokens[4..], fold)
      else UpdateAll(list[i := Tracked(list[i].name, st, 0, 0)], tokens[2..], fold)
  }

  const DELIMS: set<char> := {' ', '\n', '\t'}

  /** What parseMessage came to; Thrown is an exception, after which the list is what
      updateDeviceStatus has made of it. */
  datatype Outcome = Reinitialised | Dropped | Updated(list: seq<Tracked>) | Thrown(list: seq<Tracked>)

  function Dispatch(list: seq<Tracked>, tokens: seq<string>, fold: Folding): Outcome {
    if |tokens| < 2 || tokens[0] != "BROADCAST" then Thrown(list)
    else if tokens[1] == "INIT" then Reinitialised
    else if tokens[1] == "QUIT" then Dropped
    else if tokens[1] != "STATUS" then Thrown(list)
    else
      var (l, ok) := UpdateAll(list, tokens[2..], fold);
      if ok then Updated(l) else Thrown(l)
  }

  /** parseMessage: what the list of devices becomes when a packet holds this text. */
  function Receive(list: seq<Tracked>, packet: string, fold: Folding): Outcome {
    Dispatch(list, Tokens(Trim(packet), DELIMS), fold)
  }

  /** linkServer. */
  class TrackedServer {
    const fold: Folding
    var devices: seq<Tracked>

    constructor (devices: seq<Tracked>, fold: Folding)
      ensures this.devices == devices && this.fold == fold
    {
      this.devices, this.fold := devices, fold;
    }

    /** getDevice finds the first entry whose name has the characters of `n`, case aside; the length of
        the list stands for NoSuchDeviceException. */
    method GetDevice(n: string) returns (i: nat)
      ensures i == Find(devices, n, fold) && i <= |devices|
      ensures i < |devices| ==> Folded(devices[i].name, fold) == Folded(n, fold)
      ensures forall j :: 0 <= j < i ==> Folded(devices[j].name, fold) != Folded(n, fold)
    {
      i := 0;
      while i < |devices| && !SameName(devices[i].name, n, fold)
        invariant i <= |devices| && forall j :: 0 <= j < i ==> !SameName(devices[j].name, n, fold)
      {
        i := i + 1;
      }
      FindIs(devices, n, fold, i);
      forall j | 0 <= j <= i && j < |devices|
        ensures SameName(devices[j].name, n, fold) <==> Folded(devices[j].name, fold) == Folded(n, fold)
      {
        SameNameFolded(devices[j].name, n, fold);
      }
    }

    /** nextToken() and Integer.parseInt; None is an exception. */
    method NextInt(toke: Tokenizer) returns (r: Option<int>)
      requires toke.Valid()
      modifies toke
      ensures toke.Valid()
      ensures old(toke.Rest()) == [] ==> r.None?
      ensures old(toke.Rest()) != [] ==> r == ParseInt(old(toke.Rest())[0]) && toke.Rest() == old(toke.Rest())[1..]
    {
      var t := toke.Next();
      if t.None? {
        return None;
      }
      r := ParseInt(t.value);
    }

    /** updateDeviceStatus; false when it throws. */
    method UpdateDeviceStatus(toke: Tokenizer) returns (ok: bool)
      requires toke.Valid()
      modifies this, toke
      ensures (devices, ok) == UpdateAll(old(devices), old(toke.Rest()), fold)
    {
      hide Tokens, Find, ParseInt, SameName, StateOf;
      ghost var left := toke.Rest();
      var name := toke.Next();
      while name.Some?
        invariant toke.Valid() && UpdateAll(old(devices), old(toke.Rest()), fold) == UpdateAll(devices, left, fold)
        invariant if name.Some? then left == [name.value] + toke.Rest() else left == []
        decreases |left|
      {
        var word := toke.Next();
        if word.None? {
          return false;
        }
        assert left == [name.value, word.value] + toke.Rest();
        var st := StateOf(word.value);
        if st.Some? {
          var i := GetDevice(name.value);
          if i == |devices| {
            return false;
          }
          ghost var params := toke.Rest();
          var time, users := 0, 0;
          if st.value == UP {
            var x := NextInt(toke);
            if x.None? {
              return false;
            }
            var y := NextInt(toke);
            if y.None? {
              return false;
            }
            time, users := x.value, y.value;
            assert left[4..] == toke.Rest() && left[2..] == params;
          }
          devices := devices[i := Tracked(devices[i].name, st, time, users)];
          left := if st.value == UP then left[4..] else left[2..];
        } else {
          left := left[2..];
        }
        name := toke.Next();
      }
      ok := true;
    }

    /** parseMessage. */
    method ParseMessage(packet: string) returns (what: Outcome)
      modifies this
      ensures what == Receive(old(devices), packet, fold)
      ensures match what
              case Updated(l) => devices == l
              case Thrown(l) => devices == l
              case _ => devices == old(devices)
    {
      hide Tokens, Trim, UpdateAll;
      var toke := new Tokenizer(Trim(packet), DELIMS);
      ghost var all := toke.Rest();
      var first := toke.Next();
      if first.None? || first.value != "BROADCAST" {
        return Thrown(devices);
      }
      var message := toke.Next();
      if message.None? {
        return Thrown(devices);
      }
      assert all == [first.value, message.value] + toke.Rest() && all[2..] == toke.Rest();
      if message.value == "INIT" {
        what := Reinitialised;
      } else if message.value == "QUIT" {
        what := Dropped;
      } else if message.value == "STATUS" {
        var ok := UpdateDeviceStatus(toke);
        what := if ok then Updated(devices) else Thrown(devices);
      } else {
        what := Thrown(devices);
      }
    }
  }

  lemma FindIs(list: seq<Tracked>, n: string, fold: Folding, i: nat)
    requires i <= |list| && (i < |list| ==> SameName(list[i].name, n, fold))
    requires forall j :: 0 <= j < i ==> !SameName(list[j].name, n, fold)
    ensures Find(list, n, fold) == i
  {
  }

  // ---------- Reading back what the server printed ----------

  /** The tokens of a status behind the name. */
  function Words(sh: Shown): seq<string> {
    match sh.status
    case UP => ["UP", DecInt(sh.time), DecInt(sh.users)]
    case st => [StatusWord(st)]
  }

  lemma WordTokens(w: string, rest: string)
    requires Clean(w, DELIMS)
    ensures Tokens(w + ("\n" + rest), DELIMS) == [w] + Tokens(rest, DELIMS)
    ensures Tokens(w + (" " + rest), DELIMS) == [w] + Tokens(rest, DELIMS)
  {
    TokenThen(w, '\n', rest, DELIMS);
    TokenThen(w, ' ', rest, DELIMS);
    assert w + ['\n'] + rest == w + ("\n" + rest) && w + [' '] + rest == w + (" " + rest);
  }

  lemma StatusTokens(sh: Shown, rest: string)
    ensures Tokens(StatusText(sh) + ("\n" + rest), DELIMS) == Words(sh) + Tokens(rest, DELIMS)
  {
    hide DecInt, Tokens;
    C.DecIntChars(sh.time);
    C.DecIntChars(sh.users);
    if sh.status == UP {
      var (x, y) := (DecInt(sh.time), DecInt(sh.users));
      WordTokens(y, rest);
      WordTokens(x, y + ("\n" + rest));
      WordTokens("UP", x + (" " + (y + ("\n" + rest))));
      assert StatusText(sh) + ("\n" + rest) == "UP" + (" " + (x + (" " + (y + ("\n" + rest)))));
    } else {
      WordTokens(StatusWord(sh.status), rest);
      assert StatusText(sh) == StatusWord(sh.status);
    }
  }

  lemma LineTokens(n: Name, sh: Shown, rest: string)
    requires Clean(n, DELIMS)
    ensures Tokens(StatusLine(n, sh) + "\n" + rest, DELIMS) == [n] + Words(sh) + Tokens(rest, DELIMS)
  {
    hide Tokens, StatusText, Words;
    var st := StatusText(sh);
    TokenThen(n, '\t', st + ("\n" + rest), DELIMS);
    StatusTokens(sh, rest);
    assert StatusLine(n, sh) + "\n" + rest == n + ['\t'] + (st + ("\n" + rest));
  }

  function TrackedOf(name: string, sh: Shown): Tracked {
    Tracked(name, Some(sh.status), sh.time, sh.users)
  }

  lemma StateOfWord(st: Status)
    ensures StateOf(if st == UP then "UP" else StatusWord(st)) == Some(st)
  {
  }

  lemma ParametersOf(time: int, users: int, tokens: seq<string>)
    requires INT_MIN <= time <= INT_MAX && INT_MIN <= users <= INT_MAX
    ensures Parameters([DecInt(time), DecInt(users)] + tokens) == Some((time, users))
  {
    hide DecInt, ParseInt;
    ParseIntDec(time);
    ParseIntDec(users);
  }

  lemma UpdateUp(list: seq<Tracked>, n: Name, up: string, params: seq<string>, fold: Folding)
    requires Find(list, n, fold) < |list| && StateOf(up) == Some(UP) && Parameters(params).Some?
    ensures var i := Find(list, n, fold);
      var p := Parameters(params).value;
      |params| >= 2
      && UpdateAll(list, [n, up] + params, fold)
         == UpdateAll(list[i := Tracked(list[i].name, Some(UP), p.0, p.1)], params[2..], fold)
  {
    hide ParseInt, Find, StateOf;
    var all := [n, up] + params;
    assert all[2..] == params && all[4..] == params[2..];
  }

  lemma UpdateOther(list: seq<Tracked>, n: Name, word: string, st: Status, tokens: seq<string>, fold: Folding)
    requires Find(list, n, fold) < |list| && StateOf(word) == Some(st) && st != UP
    ensures var i := Find(list, n, fold);
      UpdateAll(list, [n, word] + tokens, fold)
      == UpdateAll(list[i := Tracked(list[i].name, Some(st), 0, 0)], tokens, fold)
  {
    hide Find, StateOf, Parameters;
    assert ([n, word] + tokens)[2..] == tokens;
  }

  lemma WordsUp(sh: Shown, n: Name, up: string, tokens: seq<string>)
    requires sh.status == UP && up == "UP"
    ensures [n] + Words(sh) + tokens == [n, up] + ([DecInt(sh.time), DecInt(sh.users)] + tokens)
  {
    hide DecInt;
  }

  /** One line of a broadcast sets the device that it names. */
  lemma UpdateLine(list: seq<Tracked>, n: Name, sh: Shown, tokens: seq<string>, fold: Folding)
    requires C.Showable(sh) && Find(list, n, fold) < |list|
    ensures var i := Find(list, n, fold);
      UpdateAll(list, [n] + Words(sh) + tokens, fold)
      == UpdateAll(list[i := TrackedOf(list[i].name, sh)], tokens, fold)
  {
    hide DecInt, Find, StateOf, StatusWord, UpdateAll, Parameters, Words, SameName;
    StateOfWord(sh.status);
    if sh.status == UP {
      var (up, params) := ("UP", [DecInt(sh.time), DecInt(sh.users)] + tokens);
      WordsUp(sh, n, up, tokens);
      ParametersOf(sh.time, sh.users, tokens);
      UpdateUp(list, n, up, params, fold);
      assert params[2..] == tokens;
    } else {
      var w := StatusWord(sh.status);
      UpdateOther(list, n, w, sh.status, tokens, fold);
      WordsOther(sh);
      assert [n] + [w] + tokens == [n, w] + tokens;
    }
  }

  lemma WordsOther(sh: Shown)
    requires sh.status != UP
    ensures Words(sh) == [StatusWord(sh.status)]
  {
    hide StatusWord;
  }

  lemma UpdateMiss(list: seq<Tracked>, n: Name, sh: Shown, tokens: seq<string>, fold: Folding)
    requires Find(list, n, fold) == |list|
    ensures UpdateAll(list, [n] + Words(sh) + tokens, fold) == (list, false)
  {
    hide DecInt, Find, StateOf, StatusWord, Parameters, SameName;
    StateOfWord(sh.status);
    var all := [n] + Words(sh) + tokens;
    assert all[0] == n && all[1] == if sh.status == UP then "UP" else StatusWord(sh.status);
  }

  /** A state that is none of the four is skipped together with its name; a name alone, and an UP without
      two ints behind it, end in an exception. */
  lemma UpdateMalformed(list: seq<Tracked>, tokens: seq<string>, fold: Folding)
    requires tokens != []
    ensures |tokens| == 1 ==> UpdateAll(list, tokens, fold) == (list, false)
    ensures |tokens| >= 2 && tokens[1] !in {"DOWN", "UP", "CONNECTING", "DISCONNECTING"}
            ==> UpdateAll(list, tokens, fold) == UpdateAll(list, tokens[2..], fold)
    ensures |tokens| >= 2 && tokens[1] == "UP"
            && (|tokens| < 4 || ParseInt(tokens[2]).None? || ParseInt(tokens[3]).None?)
            ==> UpdateAll(list, tokens, fold) == (list, false)
  {
    hide ParseInt, Find;
  }

  // ---------- What a broadcast does to the list ----------

  /** Every device of the broadcast is in the list. */
  ghost predicate AllFound(list: seq<Tracked>, devs: seq<(Name, Shown)>, fold: Folding) {
    forall i :: 0 <= i < |devs| ==> Find(list, devs[i].0, fold) < |list|
  }

  /** No two devices of the broadcast have names that differ in case only. */
  ghost predicate Distinct(devs: seq<(Name, Shown)>, fold: Folding) {
    forall i, j :: 0 <= i < j < |devs| ==> !SameName(devs[i].0, devs[j].0, fold)
  }

  function PutAll(list: seq<Tracked>, devs: seq<(Name, Shown)>, fold: Folding): seq<Tracked>
    decreases |devs|
  {
    if devs == [] then list
    else
      var i := Find(list, devs[0].0, fold);
      PutAll(if i < |list| then list[i := TrackedOf(list[i].name, devs[0].1)] else list, devs[1..], fold)
  }

  /** Setting one device keeps the names, so that every name is found where it was. */
  lemma SetFind(list: seq<Tracked>, i: nat, sh: Shown, m: string, fold: Folding)
    requires i < |list|
    ensures Find(list[i := TrackedOf(list[i].name, sh)], m, fold) == Find(list, m, fold)
  {
    var l := list[i := TrackedOf(list[i].name, sh)];
    hide SameName;
    assert forall j :: 0 <= j < |l| ==> l[j].name == list[j].name;
    FindIs(l, m, fold, Find(list, m, fold));
  }

  lemma {:induction false} UpdateLines(list: seq<Tracked>, devs: seq<(Name, Shown)>, fold: Folding)
    requires C.Printable(devs, DELIMS) && AllFound(list, devs, fold)
    ensures UpdateAll(list, Tokens(Lines(devs), DELIMS), fold) == (PutAll(list, devs, fold), true)
    decreases |devs|
  {
    hide Words, StatusLine, Clean, SameName, Find;
    if devs == [] {
      assert Tokens("", DELIMS) == [];
    } else {
      var (n, sh, rest) := (devs[0].0, devs[0].1, devs[1..]);
      var i := Find(list, n, fold);
      LineTokens(n, sh, Lines(rest));
      UpdateLine(list, n, sh, Tokens(Lines(rest), DELIMS), fold);
      var l := list[i := TrackedOf(list[i].name, sh)];
      forall k | 0 <= k < |rest| ensures Find(l, rest[k].0, fold) < |l| {
        assert rest[k] == devs[k + 1];
        SetFind(list, i, sh, rest[k].0, fold);
      }
      UpdateLines(l, rest, fold);
    }
  }

  lemma PutAllFound(list: seq<Tracked>, n: Name, sh: Shown, devs: seq<(Name, Shown)>, fold: Folding)
    requires AllFound(list, devs, fold) && Find(list, n, fold) < |list|
    ensures var l := list[Find(list, n, fold) := TrackedOf(list[Find(list, n, fold)].name, sh)];
      AllFound(l, devs, fold) && forall i :: 0 <= i < |devs| ==> Find(l, devs[i].0, fold) == Find(list, devs[i].0, fold)
  {
    hide Find, SameName;
    var k := Find(list, n, fold);
    forall i | 0 <= i < |devs|
      ensures Find(list[k := TrackedOf(list[k].name, sh)], devs[i].0, fold) == Find(list, devs[i].0, fold)
    {
      SetFind(list, k, sh, devs[i].0, fold);
    }
  }

  /** A broadcast leaves the names, and the devices that it does not name. */
  lemma {:induction false} PutAllLeaves(list: seq<Tracked>, devs: seq<(Name, Shown)>, fold: Folding, k: nat)
    requires AllFound(list, devs, fold) && k < |list|
    ensures |PutAll(list, devs, fold)| == |list| && PutAll(list, devs, fold)[k].name == list[k].name
    ensures (forall i :: 0 <= i < |devs| ==> Find(list, devs[i].0, fold) != k)
            ==> PutAll(list, devs, fold)[k] == list[k]
    decreases |devs|
  {
    hide Find, SameName;
    if devs == [] {
    } else {
      var (n, sh, rest) := (devs[0].0, devs[0].1, devs[1..]);
      var i := Find(list, n, fold);
      PutAllFound(list, n, sh, rest, fold);
      PutAllLeaves(list[i := TrackedOf(list[i].name, sh)], rest, fold, k);
    }
  }

  lemma SameFind(list: seq<Tracked>, a: string, b: string, fold: Folding)
    requires Find(list, a, fold) == Find(list, b, fold) < |list|
    ensures SameName(a, b, fold)
  {
    hide Find;
  }

  /** Each device that the broadcast names is what the server showed. */
  lemma {:induction false} PutAllSets(list: seq<Tracked>, devs: seq<(Name, Shown)>, fold: Folding, k: nat)
    requires AllFound(list, devs, fold) && Distinct(devs, fold) && k < |devs|
    ensures var i := Find(list, devs[k].0, fold);
      |PutAll(list, devs, fold)| == |list|
      && PutAll(list, devs, fold)[i] == TrackedOf(list[i].name, devs[k].1)
    decreases |devs|
  {
    hide Find, SameName;
    var (n, sh, rest) := (devs[0].0, devs[0].1, devs[1..]);
    var i := Find(list, n, fold);
    var l := list[i := TrackedOf(list[i].name, sh)];
    PutAllFound(list, n, sh, rest, fold);
    if k == 0 {
      forall j | 0 <= j < |rest| ensures Find(l, rest[j].0, fold) != i {
        assert rest[j] == devs[j + 1];
        if Find(list, rest[j].0, fold) == i {
          SameFind(list, n, rest[j].0, fold);
        }
      }
      PutAllLeaves(l, rest, fold, i);
    } else {
      assert rest[k - 1] == devs[k];
      PutAllSets(l, rest, fold, k - 1);
    }
  }

  // ---------- Names, case aside ----------

  lemma SameNameFolded(a: string, b: string, fold: Folding)
    ensures SameName(a, b, fold) <==> Folded(a, fold) == Folded(b, fold)
  {
    var (x, y) := (Folded(a, fold), Folded(b, fold));
    if x == y {
      forall i | 0 <= i < |a| ensures Fold(a[i], fold) == Fold(b[i], fold) {
        assert x[i] == y[i];
      }
    }
    if SameName(a, b, fold) {
      assert forall i :: 0 <= i < |x| ==> x[i] == y[i];
    }
  }

  /** Entry `i` is the first one with the name `n`, case aside. */
  ghost predicate First(list: seq<Tracked>, i: nat, n: string, fold: Folding) {
    && i < |list| && Folded(list[i].name, fold) == Folded(n, fold)
    && forall j :: 0 <= j < i ==> Folded(list[j].name, fold) != Folded(n, fold)
  }

  ghost predicate Knows(list: seq<Tracked>, n: string, fold: Folding) {
    exists i :: 0 <= i < |list| && Folded(list[i].name, fold) == Folded(n, fold)
  }

  /** No two names of the broadcast differ in case only. */
  ghost predicate AllDiffer(devs: seq<(Name, Shown)>, fold: Folding) {
    forall i, j :: 0 <= i < j < |devs| ==> Folded(devs[i].0, fold) != Folded(devs[j].0, fold)
  }

  lemma FirstFind(list: seq<Tracked>, n: string, fold: Folding)
    ensures forall i :: 0 <= i < |list| ==> (First(list, i, n, fold) <==> i == Find(list, n, fold))
    ensures Knows(list, n, fold) <==> Find(list, n, fold) < |list|
  {
    hide SameName, Folded;
    var k := Find(list, n, fold);
    forall i | 0 <= i < |list|
      ensures SameName(list[i].name, n, fold) <==> Folded(list[i].name, fold) == Folded(n, fold)
    {
      SameNameFolded(list[i].name, n, fold);
    }
  }

  lemma AllKnownFound(list: seq<Tracked>, devs: seq<(Name, Shown)>, fold: Folding)
    ensures AllFound(list, devs, fold) <==> forall k :: 0 <= k < |devs| ==> Knows(list, devs[k].0, fold)
  {
    hide Find, Knows, First;
    forall k | 0 <= k < |devs| ensures Knows(list, devs[k].0, fold) <==> Find(list, devs[k].0, fold) < |list| {
      FirstFind(list, devs[k].0, fold);
    }
  }

  lemma AllDifferDistinct(devs: seq<(Name, Shown)>, fold: Folding)
    ensures AllDiffer(devs, fold) <==> Distinct(devs, fold)
  {
    hide SameName, Folded;
    forall i, j | 0 <= i < j < |devs|
      ensures SameName(devs[i].0, devs[j].0, fold) <==> Folded(devs[i].0, fold) == Folded(devs[j].0, fold)
    {
      SameNameFolded(devs[i].0, devs[j].0, fold);
    }
  }

  // ---------- From the packet to the list ----------

  /** A broadcast ends in one delimiter, which trim takes off with the padding of the packet. */
  lemma BroadcastCore(devs: seq<(Name, Shown)>) returns (core: string, end: char)
    ensures core != [] && core[0] > ' ' && core[|core| - 1] > ' ' && end in DELIMS && end <= ' '
    ensures BroadcastText(devs) == core + [end]
  {
    hide Lines, StatusText;
    if devs == [] {
      LinesNone();
      core, end := "BROADCAST STATUS", ' ';
    } else {
      var (n, sh) := devs[|devs| - 1];
      assert devs == devs[..|devs| - 1] + [(n, sh)];
      LinesSnoc(devs[..|devs| - 1], (n, sh));
      TextEnds(sh);
      core, end := BROADCAST_STATUS + Lines(devs[..|devs| - 1]) + StatusLine(n, sh), '\n';
      assert core[0] == BROADCAST_STATUS[0];
    }
  }

  lemma TextEnds(sh: Shown)
    ensures StatusText(sh) != [] && StatusText(sh)[|StatusText(sh)| - 1] > ' '
  {
    C.DecIntChars(sh.users);
  }

  /** The tokens of a packet that holds a broadcast and is padded with blanks. */
  lemma PacketTokens(devs: seq<(Name, Shown)>, padding: string)
    requires AllBlank(padding)
    ensures Tokens(Trim(BroadcastText(devs) + padding), DELIMS) == ["BROADCAST", "STATUS"] + Tokens(Lines(devs), DELIMS)
  {
    hide Tokens, Trim, Lines;
    var core, end := BroadcastCore(devs);
    assert BroadcastText(devs) + padding == core + ([end] + padding);
    TrimTail(core, [end] + padding);
    TokensEnd(core, end, DELIMS);
    assert BroadcastText(devs) == "BROADCAST" + [' '] + ("STATUS" + [' '] + Lines(devs));
    TokenThen("BROADCAST", ' ', "STATUS" + [' '] + Lines(devs), DELIMS);
    TokenThen("STATUS", ' ', Lines(devs), DELIMS);
  }

  /** A device that the client does not know ends the broadcast with an exception, behind those in
      front of it. */
  lemma {:induction false} UpdateUnknown(list: seq<Tracked>, devs: seq<(Name, Shown)>, fold: Folding, k: nat)
    requires C.Printable(devs, DELIMS) && k < |devs| && Find(list, devs[k].0, fold) == |list|
    requires AllFound(list, devs[..k], fold)
    ensures UpdateAll(list, Tokens(Lines(devs), DELIMS), fold) == (PutAll(list, devs[..k], fold), false)
    decreases |devs|
  {
    hide Words, StatusLine, Clean, SameName, Find, UpdateAll;
    var (n, sh, rest) := (devs[0].0, devs[0].1, devs[1..]);
    var tokens := Tokens(Lines(rest), DELIMS);
    LineTokens(n, sh, Lines(rest));
    if k == 0 {
      UpdateMiss(list, n, sh, tokens, fold);
    } else {
      var i := Find(list, n, fold);
      assert devs[..k][0] == devs[0] && devs[..k][1..] == rest[..k - 1] && rest[k - 1] == devs[k];
      UpdateLine(list, n, sh, tokens, fold);
      var l := list[i := TrackedOf(list[i].name, sh)];
      SetFind(list, i, sh, devs[k].0, fold);
      FoundThen(list, devs, fold, k);
      UpdateUnknown(l, rest, fold, k - 1);
    }
  }

  lemma FoundThen(list: seq<Tracked>, devs: seq<(Name, Shown)>, fold: Folding, k: nat)
    requires 0 < k < |devs| && AllFound(list, devs[..k], fold) && Find(list, devs[0].0, fold) < |list|
    ensures var i := Find(list, devs[0].0, fold);
      AllFound(list[i := TrackedOf(list[i].name, devs[0].1)], devs[1..][..k - 1], fold)
  {
    hide Find;
    assert devs[1..][..k - 1] == devs[..k][1..];
    PutAllFound(list, devs[0].0, devs[0].1, devs[..k][1..], fold);
  }

  lemma FirstUnknown(list: seq<Tracked>, devs: seq<(Name, Shown)>, fold: Folding) returns (k: nat)
    ensures k <= |devs| && AllFound(list, devs[..k], fold) && (k < |devs| ==> Find(list, devs[k].0, fold) == |list|)
  {
    hide Find;
    k := 0;
    while k < |devs| && Find(list, devs[k].0, fold) < |list|
      invariant k <= |devs| && AllFound(list, devs[..k], fold)
    {
      k := k + 1;
    }
  }

  /** The packet of a broadcast, from its tokens on: the devices in front of the first unknown one. */
  lemma ReceiveUpTo(list: seq<Tracked>, devs: seq<(Name, Shown)>, padding: string, fold: Folding, k: nat)
    requires C.Printable(devs, DELIMS) && AllBlank(padding) && k <= |devs| && AllFound(list, devs[..k], fold)
    requires k < |devs| ==> Find(list, devs[k].0, fold) == |list|
    ensures var l := PutAll(list, devs[..k], fold);
      Receive(list, BroadcastText(devs) + padding, fold) == if k == |devs| then Updated(l) else Thrown(l)
  {
    hide Tokens, Trim, Lines, PutAll, UpdateAll, Find;
    PacketTokens(devs, padding);
    var rest := Tokens(Lines(devs), DELIMS);
    assert (["BROADCAST", "STATUS"] + rest)[2..] == rest;
    if k == |devs| {
      assert devs[..k] == devs;
      UpdateLines(list, devs, fold);
    } else {
      UpdateUnknown(list, devs, fold, k);
    }
  }

  /** The client gets through a broadcast exactly when it knows all of its devices. */
  lemma ReceiveExact(list: seq<Tracked>, devs: seq<(Name, Shown)>, padding: string, fold: Folding)
    requires C.Printable(devs, DELIMS) && AllBlank(padding)
    ensures Receive(list, BroadcastText(devs) + padding, fold).Updated?
            <==> forall k :: 0 <= k < |devs| ==> Knows(list, devs[k].0, fold)
  {
    hide Receive, Find, PutAll, Knows, C.Printable;
    AllKnownFound(list, devs, fold);
    var k := FirstUnknown(list, devs, fold);
    ReceiveUpTo(list, devs, padding, fold, k);
    assert devs[..|devs|] == devs;
  }

  lemma PutAllExact(list: seq<Tracked>, devs: seq<(Name, Shown)>, fold: Folding)
    requires AllFound(list, devs, fold) && Distinct(devs, fold)
    ensures var l := PutAll(list, devs, fold);
      && |l| == |list|
      && (forall k :: 0 <= k < |devs| ==>
            var i := Find(list, devs[k].0, fold); l[i] == TrackedOf(list[i].name, devs[k].1))
      && (forall i :: 0 <= i < |list| && (forall k :: 0 <= k < |devs| ==> Find(list, devs[k].0, fold) != i)
            ==> l[i] == list[i])
  {
    hide PutAll, SameName, Find, BroadcastText;
    var l := PutAll(list, devs, fold);
    assert |l| == |list| by {
      if list == [] {
        assert devs != [] ==> Find(list, devs[0].0, fold) < |list|;
        PutAllNone(list, fold);
      } else {
        PutAllLeaves(list, devs, fold, 0);
      }
    }
    forall i | 0 <= i < |list| && (forall k :: 0 <= k < |devs| ==> Find(list, devs[k].0, fold) != i)
      ensures l[i] == list[i]
    {
      PutAllLeaves(list, devs, fold, i);
    }
    forall k | 0 <= k < |devs|
      ensures var i := Find(list, devs[k].0, fold); l[i] == TrackedOf(list[i].name, devs[k].1)
    {
      PutAllSets(list, devs, fold, k);
    }
  }

  lemma PutAllNone(list: seq<Tracked>, fold: Folding)
    ensures PutAll(list, [], fold) == list
  {
  }

  /** For each of the devices the first entry with its name shows what the server showed, and every other
      entry is as it was; the names are those of before. */
  ghost predicate AsShown(list: seq<Tracked>, l: seq<Tracked>, devs: seq<(Name, Shown)>, fold: Folding) {
    && |l| == |list|
    && (forall i, k :: 0 <= i < |list| && 0 <= k < |devs| && First(list, i, devs[k].0, fold) ==>
          var sh := devs[k].1; l[i] == Tracked(list[i].name, Some(sh.status), sh.time, sh.users))
    && (forall i :: 0 <= i < |list| && (forall k :: 0 <= k < |devs| ==> !First(list, i, devs[k].0, fold))
          ==> l[i] == list[i])
  }

  lemma PutAllShows(list: seq<Tracked>, devs: seq<(Name, Shown)>, fold: Folding)
    requires (forall k :: 0 <= k < |devs| ==> Knows(list, devs[k].0, fold)) && AllDiffer(devs, fold)
    ensures AllFound(list, devs, fold) && AsShown(list, PutAll(list, devs, fold), devs, fold)
  {
    hide PutAll, SameName, Find, First, Knows, Folded, AllFound, Distinct;
    AllKnownFound(list, devs, fold);
    AllDifferDistinct(devs, fold);
    PutAllExact(list, devs, fold);
    forall k | 0 <= k < |devs|
      ensures forall i :: 0 <= i < |list| ==> (First(list, i, devs[k].0, fold) <==> i == Find(list, devs[k].0, fold))
    {
      FirstFind(list, devs[k].0, fold);
    }
  }

  /** Parsing the packet of a broadcast sets, for each device that it names, the first entry with that
      name to what the server showed; it leaves every other entry, and all names, as they were. */
  lemma RoundTrip(list: seq<Tracked>, devs: seq<(Name, Shown)>, padding: string, fold: Folding)
    requires C.Printable(devs, DELIMS) && AllBlank(padding)
    requires forall k :: 0 <= k < |devs| ==> Knows(list, devs[k].0, fold)
    requires forall j, k :: 0 <= j < k < |devs| ==> Folded(devs[j].0, fold) != Folded(devs[k].0, fold)
    ensures var j := Receive(list, BroadcastText(devs) + padding, fold);
      && j.Updated? && |j.list| == |list|
      && (forall i, k :: 0 <= i < |list| && 0 <= k < |devs| && First(list, i, devs[k].0, fold) ==>
            var sh := devs[k].1; j.list[i] == Tracked(list[i].name, Some(sh.status), sh.time, sh.users))
      && (forall i :: 0 <= i < |list| && (forall k :: 0 <= k < |devs| ==> !First(list, i, devs[k].0, fold))
            ==> j.list[i] == list[i])
  {
    hide Receive, PutAll, Find, BroadcastText, First, Knows, Folded, AllFound, C.Printable;
    PutAllShows(list, devs, fold);
    assert devs[..|devs|] == devs;
    ReceiveUpTo(list, devs, padding, fold, |devs|);
  }

  /** When it does not know the device `k`, and knows those in front of it, it throws, and only those in
      front have been set. */
  lemma ReceiveStops(list: seq<Tracked>, devs: seq<(Name, Shown)>, padding: string, fold: Folding, k: nat)
    requires C.Printable(devs, DELIMS) && AllBlank(padding) && k < |devs| && !Knows(list, devs[k].0, fold)
    requires forall i :: 0 <= i < k ==> Knows(list, devs[i].0, fold)
    requires forall i, j :: 0 <= i < j < k ==> Folded(devs[i].0, fold) != Folded(devs[j].0, fold)
    ensures var j := Receive(list, BroadcastText(devs) + padding, fold);
      j.Thrown? && AsShown(list, j.list, devs[..k], fold)
  {
    hide Receive, PutAll, Find, BroadcastText, First, Knows, Folded, AllFound, C.Printable, AsShown;
    PutAllShows(list, devs[..k], fold);
    FirstFind(list, devs[k].0, fold);
    ReceiveUpTo(list, devs, padding, fold, k);
  }

  lemma DifferNames(devs: seq<(Name, Shown)>, fold: Folding)
    requires AllDiffer(devs, fold)
    ensures NoDup(C.NamesOf(devs))
  {
    hide Folded;
  }

  /** Both parsers, given the same broadcast, know the same of each device that it names. */
  lemma ParsersAgree(table: seq<C.Entry>, list: seq<Tracked>, devs: seq<(Name, Shown)>, padding: string,
                     fold: Folding)
    requires C.Printable(devs, DELIMS) && AllBlank(padding)
    requires forall k :: 0 <= k < |devs| ==> Knows(list, devs[k].0, fold)
    requires forall j, k :: 0 <= j < k < |devs| ==> Folded(devs[j].0, fold) != Folded(devs[k].0, fold)
    ensures var (c, j) := (C.Dispatch(table, BroadcastText(devs)), Receive(list, BroadcastText(devs) + padding, fold));
      && c.Updated? && j.Updated? && |j.list| == |list|
      && forall i, k :: 0 <= i < |list| && 0 <= k < |devs| && First(list, i, devs[k].0, fold) ==>
           && C.Get(c.table, devs[k].0).Some?
           && var (e, f) := (C.Get(c.table, devs[k].0).value, j.list[i]);
              f.status == Some(e.status) && f.time == e.time && f.users == e.users
  {
    hide Receive, PutAll, BroadcastText, C.Dispatch, C.Get, C.PutAll, First, Knows, Folded;
    DifferNames(devs, fold);
    assert C.Printable(devs, C.DELIMS);
    C.RoundTrip(table, devs);
    RoundTrip(list, devs, padding, fold);
  }

  // ---------- Which broadcast it is ----------

  /** A packet of two words, padded with blanks. */
  lemma WordPacket(a: string, b: string, padding: string)
    requires Clean(a, DELIMS) && Clean(b, DELIMS) && a[0] > ' ' && b[|b| - 1] > ' ' && AllBlank(padding)
    ensures Tokens(Trim(a + " " + b + padding), DELIMS) == [a, b]
  {
    hide Tokens, Trim;
    TrimTail(a + " " + b, padding);
    TokenThen(a, ' ', b, DELIMS);
    TokensNone(DELIMS);
    TokenFirst(b, [], DELIMS);
    assert b + [] == b && a + " " + b == a + [' '] + b;
  }

  /** An INIT, a QUIT, and what is none of the three broadcasts. */
  lemma ReceiveOther(list: seq<Tracked>, padding: string, packet: string, fold: Folding)
    requires AllBlank(padding)
    ensures Receive(list, "BROADCAST INIT" + padding, fold) == Reinitialised
    ensures Receive(list, "BROADCAST QUIT" + padding, fold) == Dropped
    ensures var words := Tokens(Trim(packet), {' ', '\n', '\t'});
      |words| < 2 || words[0] != "BROADCAST" || words[1] !in {"INIT", "QUIT", "STATUS"}
      ==> Receive(list, packet, fold) == Thrown(list)
  {
    hide Tokens, Trim;
    WordPacket("BROADCAST", "INIT", padding);
    WordPacket("BROADCAST", "QUIT", padding);
    assert "BROADCAST" + " " + "INIT" == "BROADCAST INIT" && "BROADCAST" + " " + "QUIT" == "BROADCAST QUIT";
  }

  // ---------- The reply to CLIENT_STATUS ----------

  datatype ClientState = DISCONNECTED | CONNECTED | UNKNOWN

  const REPLY_DELIMS: set<char> := {' ', '\t'}

  /** What refreshClientStatus makes of the tokens of a reply; None when a token is missing. */
  function Membership(tokens: seq<string>, n: string): Option<ClientState> {
    if tokens == [] then None
    else if tokens[0] != "SERVER" then Some(UNKNOWN)
    else if |tokens| == 1 then None
    else if tokens[1] != "CLIENT_STATUS" then Some(UNKNOWN)
    else if n in tokens[2..] then Some(CONNECTED)
    else Some(DISCONNECTED)
  }

  function Refreshed(packet: string, n: string): Option<ClientState> {
    Membership(Tokens(Trim(packet), REPLY_DELIMS), n)
  }

  /** linkDevice: its name and what it knows of the client's own state. */
  class OwnDevice {
    const name: string
    var clientStatus: ClientState

    constructor (name: string)
      ensures this.name == name && clientStatus == UNKNOWN
    {
      this.name, clientStatus := name, UNKNOWN;
    }

    /** refreshClientStatus with the packet that the server sent, or None when no packet came;
        false when it throws. */
    method RefreshClientStatus(packet: Option<string>) returns (ok: bool)
      modifies this
      ensures packet.None? ==> !ok && clientStatus == UNKNOWN
      ensures packet.Some? ==> match Refreshed(packet.value, name)
                               case Some(st) => ok && clientStatus == st
                               case None => !ok && clientStatus == old(clientStatus)
    {
      hide Tokens, Trim;
      if packet.None? {
        clientStatus := UNKNOWN;
        return false;
      }
      var toke := new Tokenizer(Trim(packet.value), REPLY_DELIMS);
      ghost var all := toke.Rest();
      var first := toke.Next();
      if first.None? {
        return false;
      }
      if first.value != "SERVER" {
        clientStatus := UNKNOWN;
        return true;
      }
      var second := toke.Next();
      if second.None? {
        return false;
      }
      assert all == [first.value, second.value] + toke.Rest() && all[2..] == toke.Rest();
      if second.value != "CLIENT_STATUS" {
        clientStatus := UNKNOWN;
        return true;
      }
      var next := toke.Next();
      while next.Some?
        invariant toke.Valid() && fresh(toke) && clientStatus == old(clientStatus)
        invariant name in all[2..] <==> (next.Some? && next.value == name) || name in toke.Rest()
        invariant next.None? ==> toke.Rest() == []
        decreases next.Some?, |toke.Rest()|
      {
        if next.value == name {
          clientStatus := CONNECTED;
          return true;
        }
        next := toke.Next();
      }
      clientStatus := DISCONNECTED;
      ok := true;
    }
  }

  /** A name without whitespace or control characters. */
  predicate Visible(n: Name) {
    n != [] && forall i :: 0 <= i < |n| ==> n[i] > ' '
  }

  lemma VisibleClean(n: Name)
    requires Visible(n)
    ensures Clean(n, REPLY_DELIMS)
  {
  }

  lemma TabbedNone()
    ensures Tabbed([]) == []
  {
  }

  lemma TabbedFirst(ns: seq<Name>)
    requires ns != []
    ensures Tabbed(ns) == ['\t'] + (ns[0] + Tabbed(ns[1..]))
  {
  }

  lemma {:induction false} TabbedTokens(first: Name, ns: seq<Name>)
    requires Visible(first) && forall i :: 0 <= i < |ns| ==> Visible(ns[i])
    ensures Tokens(first + Tabbed(ns), REPLY_DELIMS) == [first] + ns
    decreases |ns|
  {
    hide Tokens, Clean, Tabbed, Visible;
    VisibleClean(first);
    if ns == [] {
      TabbedNone();
      assert first + [] == first;
      TokenFirst(first, [], REPLY_DELIMS);
      TokensNone(REPLY_DELIMS);
    } else {
      var rest := ns[0] + Tabbed(ns[1..]);
      TabbedTokens(ns[0], ns[1..]);
      TabbedFirst(ns);
      assert first + Tabbed(ns) == first + ['\t'] + rest;
      TokenThen(first, '\t', rest, REPLY_DELIMS);
    }
  }

  lemma {:induction false} TabbedEnds(first: Name, ns: seq<Name>)
    requires Visible(first) && forall i :: 0 <= i < |ns| ==> Visible(ns[i])
    ensures (first + Tabbed(ns))[|first + Tabbed(ns)| - 1] > ' '
    decreases |ns|
  {
    if ns == [] {
    } else {
      var rest := ns[0] + Tabbed(ns[1..]);
      TabbedEnds(ns[0], ns[1..]);
      TabbedFirst(ns);
      assert first + Tabbed(ns) == first + ['\t'] + rest;
    }
  }

  /** The reply is taken apart into the two words and the client's devices, in order. */
  lemma ReplyTokens(wants: seq<Name>, padding: string)
    requires (forall i :: 0 <= i < |wants| ==> Visible(wants[i])) && AllBlank(padding)
    ensures Tokens(Trim(ClientStatusText(wants) + padding), REPLY_DELIMS) == ["SERVER", "CLIENT_STATUS"] + wants
  {
    hide Tokens, Trim, Tabbed;
    var (a, b) := ("SERVER", "CLIENT_STATUS");
    if wants == [] {
      var t := a + [' '] + b;
      assert ClientStatusText(wants) + padding == t + ([' '] + padding);
      TrimTail(t, [' '] + padding);
      TokenThen(a, ' ', b, REPLY_DELIMS);
      TokensNone(REPLY_DELIMS);
      TokenFirst(b, [], REPLY_DELIMS);
      assert b + [] == b;
    } else {
      var names := wants[0] + Tabbed(wants[1..]);
      var t := a + [' '] + (b + [' '] + names);
      assert ClientStatusText(wants) == t;
      TabbedTokens(wants[0], wants[1..]);
      TabbedEnds(wants[0], wants[1..]);
      assert t[|t| - 1] == names[|names| - 1] && t[0] == a[0];
      TrimTail(t, padding);
      TokenThen(a, ' ', b + [' '] + names, REPLY_DELIMS);
      TokenThen(b, ' ', names, REPLY_DELIMS);
    }
  }

  /** On the server's reply the client finds itself CONNECTED to exactly the devices in its list. */
  lemma RefreshedExact(wants: seq<Name>, padding: string, n: Name)
    requires (forall i :: 0 <= i < |wants| ==> Visible(wants[i])) && AllBlank(padding)
    ensures Refreshed(ClientStatusText(wants) + padding, n) == Some(if n in wants then CONNECTED else DISCONNECTED)
  {
    hide Tokens, Trim, Tabbed, ClientStatusText;
    ReplyTokens(wants, padding);
    assert (["SERVER", "CLIENT_STATUS"] + wants)[2..] == wants;
  }

  /** A reply that does not start with the two words leaves the client in the dark, and one that ends
      before the second makes it throw. */
  lemma RefreshedOther(packet: string, n: Name)
    ensures var words := Tokens(Trim(packet), {' ', '\t'});
      && (Refreshed(packet, n).None? <==> words == [] || words == ["SERVER"])
      && (Refreshed(packet, n) == Some(UNKNOWN)
          <==> words != [] && (words[0] != "SERVER" || (|words| > 1 && words[1] != "CLIENT_STATUS")))
  {
    hide Tokens, Trim;
  }
}
