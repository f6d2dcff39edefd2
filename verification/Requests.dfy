/** What the server takes each message for, with the texts of the protocol written out. */
module Requests {
  import opened Manager
  import opened Text

  lemma ClientTexts()
    ensures CLIENT_PREFIX == "CLIENT " && CLIENT_PING == "CLIENT PING" && CLIENT_DEVICES == "CLIENT DEVICES"
    ensures CLIENT_UP == "CLIENT UP " && CLIENT_DOWN == "CLIENT DOWN " && CLIENT_FORCE_DOWN == "CLIENT FORCE_DOWN "
    ensures CLIENT_STATUS == "CLIENT STATUS " && CLIENT_CLIENT_STATUS == "CLIENT CLIENT_STATUS"
  {
  }

  lemma NotifyTexts()
    ensures NOTIFY_PREFIX == "NOTIFY " && NOTIFY_ISUP == "NOTIFY ISUP " && NOTIFY_ISDOWN == "NOTIFY ISDOWN "
  {
  }

  /** A text that starts with a command starts with the prefix of the clients. */
  lemma OfClient(command: string, rest: string)
    requires CLIENT_PREFIX <= command
    ensures CLIENT_PREFIX <= command + rest
  {
  }

  lemma ClientPrefix(text: string)
    ensures FromClient(ParseRequest(text)) <==> "CLIENT " <= text
  {
  }

  lemma ParsePing(rest: string)
    ensures ParseRequest("CLIENT PING" + rest) == Ping
  {
    ClientTexts();
    OfClient(CLIENT_PING, rest);
    IsPrefix(CLIENT_PING, rest);
  }

  lemma ParseDevices(rest: string)
    ensures ParseRequest("CLIENT DEVICES" + rest) == ListDevices
  {
    ClientTexts();
    OfClient(CLIENT_DEVICES, rest);
    IsPrefix(CLIENT_DEVICES, rest);
    NotPrefix(CLIENT_PING, CLIENT_DEVICES, rest, 7);
  }

  lemma ParseUp(n: Name)
    ensures ParseRequest("CLIENT UP " + n) == BringUp(n)
  {
    ClientTexts();
    OfClient(CLIENT_UP, n);
    IsPrefix(CLIENT_UP, n);
    NotPrefix(CLIENT_PING, CLIENT_UP, n, 7);
    NotPrefix(CLIENT_DEVICES, CLIENT_UP, n, 7);
  }

  lemma ParseDown(n: Name)
    ensures ParseRequest("CLIENT DOWN " + n) == TakeDown(n)
  {
    ClientTexts();
    OfClient(CLIENT_DOWN, n);
    IsPrefix(CLIENT_DOWN, n);
    NotPrefix(CLIENT_PING, CLIENT_DOWN, n, 7);
    NotPrefix(CLIENT_DEVICES, CLIENT_DOWN, n, 8);
    NotPrefix(CLIENT_UP, CLIENT_DOWN, n, 7);
  }

  lemma ParseForceDown(n: Name)
    ensures ParseRequest("CLIENT FORCE_DOWN " + n) == ForceOff(n)
  {
    ClientTexts();
    OfClient(CLIENT_FORCE_DOWN, n);
    IsPrefix(CLIENT_FORCE_DOWN, n);
    NotPrefix(CLIENT_PING, CLIENT_FORCE_DOWN, n, 7);
    NotPrefix(CLIENT_DEVICES, CLIENT_FORCE_DOWN, n, 7);
    NotPrefix(CLIENT_UP, CLIENT_FORCE_DOWN, n, 7);
    NotPrefix(CLIENT_DOWN, CLIENT_FORCE_DOWN, n, 7);
  }

  lemma ParseStatus(n: Name)
    ensures ParseRequest("CLIENT STATUS " + n) == AskStatus(n)
  {
    ClientTexts();
    OfClient(CLIENT_STATUS, n);
    IsPrefix(CLIENT_STATUS, n);
    NotPrefix(CLIENT_PING, CLIENT_STATUS, n, 7);
    NotPrefix(CLIENT_DEVICES, CLIENT_STATUS, n, 7);
    NotPrefix(CLIENT_UP, CLIENT_STATUS, n, 7);
    NotPrefix(CLIENT_DOWN, CLIENT_STATUS, n, 7);
    NotPrefix(CLIENT_FORCE_DOWN, CLIENT_STATUS, n, 7);
  }

  lemma ParseClientStatus(rest: string)
    ensures ParseRequest("CLIENT CLIENT_STATUS" + rest) == AskClientStatus
  {
    ClientTexts();
    OfClient(CLIENT_CLIENT_STATUS, rest);
    IsPrefix(CLIENT_CLIENT_STATUS, rest);
    NotPrefix(CLIENT_PING, CLIENT_CLIENT_STATUS, rest, 7);
    NotPrefix(CLIENT_DEVICES, CLIENT_CLIENT_STATUS, rest, 7);
    NotPrefix(CLIENT_UP, CLIENT_CLIENT_STATUS, rest, 7);
    NotPrefix(CLIENT_DOWN, CLIENT_CLIENT_STATUS, rest, 7);
    NotPrefix(CLIENT_FORCE_DOWN, CLIENT_CLIENT_STATUS, rest, 7);
    NotPrefix(CLIENT_STATUS, CLIENT_CLIENT_STATUS, rest, 7);
  }

  /** The clients' requests. */
  lemma ParseNamed(n: Name)
    ensures ParseRequest("CLIENT PING" + n) == Ping
    ensures ParseRequest("CLIENT DEVICES" + n) == ListDevices
    ensures ParseRequest("CLIENT UP " + n) == BringUp(n)
    ensures ParseRequest("CLIENT DOWN " + n) == TakeDown(n)
    ensures ParseRequest("CLIENT FORCE_DOWN " + n) == ForceOff(n)
    ensures ParseRequest("CLIENT STATUS " + n) == AskStatus(n)
    ensures ParseRequest("CLIENT CLIENT_STATUS" + n) == AskClientStatus
  {
    hide ParseRequest;
    ParsePing(n);
    ParseDevices(n);
    ParseUp(n);
    ParseDown(n);
    ParseForceDown(n);
    ParseStatus(n);
    ParseClientStatus(n);
  }

  lemma OfPeer(notice: string, rest: string)
    requires NOTIFY_PREFIX <= notice
    ensures NOTIFY_PREFIX <= notice + rest && !(CLIENT_PREFIX <= notice + rest)
  {
    var (p, t) := (NOTIFY_PREFIX, notice + rest);
    assert p[0] == 'N' && t[0] == p[0] && CLIENT_PREFIX[0] == 'C';
  }

  /** And the peer's notices. */
  lemma ParseNotice(n: Name)
    ensures ParseRequest("NOTIFY ISUP " + n) == IsUp(n)
    ensures ParseRequest("NOTIFY ISDOWN " + n) == IsDown(n)
  {
    NotifyTexts();
    OfPeer(NOTIFY_ISUP, n);
    IsPrefix(NOTIFY_ISUP, n);
    OfPeer(NOTIFY_ISDOWN, n);
    IsPrefix(NOTIFY_ISDOWN, n);
    NotPrefix(NOTIFY_ISUP, NOTIFY_ISDOWN, n, 9);
  }

  /** Every other text is refused. */
  lemma ParseOther(text: string)
    ensures "CLIENT " <= text
            && !("CLIENT PING" <= text) && !("CLIENT DEVICES" <= text) && !("CLIENT UP " <= text)
            && !("CLIENT DOWN " <= text) && !("CLIENT FORCE_DOWN " <= text) && !("CLIENT STATUS " <= text)
            && !("CLIENT CLIENT_STATUS" <= text)
            ==> ParseRequest(text) == BadClient
    ensures "NOTIFY " <= text && !("NOTIFY ISUP " <= text) && !("NOTIFY ISDOWN " <= text)
            ==> ParseRequest(text) == BadPeer
    ensures !("CLIENT " <= text) && !("NOTIFY " <= text) ==> ParseRequest(text) == BadPrefix
  {
    ClientTexts();
    NotifyTexts();
    if "NOTIFY " <= text {
      assert text[0] == "NOTIFY "[0] && "CLIENT "[0] == 'C';
    }
  }

  /** What the server takes for a change of the device is just that text. */
  lemma ParsedFrom(text: string, n: Name)
    ensures ParseRequest(text) == BringUp(n) ==> text == "CLIENT UP " + n
    ensures ParseRequest(text) == TakeDown(n) ==> text == "CLIENT DOWN " + n
    ensures ParseRequest(text) == ForceOff(n) ==> text == "CLIENT FORCE_DOWN " + n
    ensures ParseRequest(text) == AskStatus(n) ==> text == "CLIENT STATUS " + n
    ensures ParseRequest(text) == IsUp(n) ==> text == "NOTIFY ISUP " + n
    ensures ParseRequest(text) == IsDown(n) ==> text == "NOTIFY ISDOWN " + n
  {
    ClientTexts();
    NotifyTexts();
  }
}
