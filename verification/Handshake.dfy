/** The handshake in front of the frames: flavor and authorization strings over two FIFO channels. */
module Handshake {
  import opened Outcomes
  import opened Messages
  import Seqs

  /** One length-prefixed unit on the connection: a handshake string or a protocol frame. */
  datatype Item = Words(text: string) | Frame(frame: OutletFrame)

  /** What the server makes of the credential, and of the user after that. */
  datatype Verdict = Accept(user: string) | Reject(error: string)
  datatype InfoResult = Granted(info: Info) | Refused(error: string)

  const OK := "Ok"

  function FlavorError(flavor: string): string { "ERROR: flavor does not match.  expected '" + flavor + "'" }

  function AuthError(error: string): string { "ERROR: authorization failed: " + error }

  // ----- what each side does, by what it has read

  datatype ClientResult =
    | ClientWaits                  // nothing more to read yet, or the connection broke
    | FlavorFailed(reason: string)
    | AuthGivenUp                  // its own authorization failed before it sent a credential
    | AuthFailed(reason: string)
    | FrameMode                    // both answers were "Ok"; the next item must be Init
    | Connected(info: Info)
    | NoInfo
    | ClientMisread                // a string was expected and a frame came, or the reverse

  /** What the client has written once it has read `x`. It may fail to come up with a credential. */
  function ClientWrites(flavor: string, credential: Option<string>, x: seq<Item>): seq<string> {
    if x == [] || x[0] != Words(OK) || credential.None? then [flavor] else [flavor, credential.value]
  }

  function ClientState(credential: Option<string>, x: seq<Item>): ClientResult {
    if x == [] then ClientWaits
    else if x[0].Frame? then ClientMisread
    else if x[0].text != OK then FlavorFailed(x[0].text)
    else if credential.None? then AuthGivenUp
    else if |x| == 1 then ClientWaits
    else if x[1].Frame? then ClientMisread
    else if x[1].text != OK then AuthFailed(x[1].text)
    else if |x| == 2 then FrameMode
    else if x[2].Words? then ClientMisread
    else if x[2].frame.OutInit? then Connected(x[2].frame.info)
    else NoInfo
  }

  datatype ServerResult =
    | ServerWaits
    | FlavorRefused
    | AuthRefused
    | InfoRefused(user: string)
    | Serving(user: string, info: Info)

  /** What the server has written once it has read `y`. */
  function ServerWrites(flavor: string, verdict: Verdict, info: InfoResult, y: seq<string>): seq<Item> {
    if y == [] then []
    else if y[0] != flavor then [Words(FlavorError(flavor))]
    else if |y| == 1 then [Words(OK)]
    else
      match verdict
      case Reject(error) => [Words(OK), Words(AuthError(error))]
      case Accept(user) =>
        match info
        case Granted(granted) => [Words(OK), Words(OK), Frame(OutInit(granted))]
        case Refused(_) => [Words(OK), Words(OK), Frame(OutClose)]
  }

  function ServerState(flavor: string, verdict: Verdict, info: InfoResult, y: seq<string>): ServerResult {
    if y == [] then ServerWaits
    else if y[0] != flavor then FlavorRefused
    else if |y| == 1 then ServerWaits
    else
      match verdict
      case Reject(_) => AuthRefused
      case Accept(user) =>
        match info
        case Granted(granted) => Serving(user, granted)
        case Refused(_) => InfoRefused(user)
  }

  /** `PortalTcpClient::new` as sequential code, reading its items one after the other. */
  method ClientHandshake(flavor: string, credential: Option<string>, inbox: seq<Item>)
    returns (written: seq<string>, result: ClientResult)
    ensures written == ClientWrites(flavor, credential, inbox)
    ensures result == ClientState(credential, inbox)
  {
    written := [flavor];
    if inbox == [] {
      return written, ClientWaits;
    }
    if inbox[0].Frame? {
      return written, ClientMisread;
    }
    if inbox[0].text != OK {
      return written, FlavorFailed(inbox[0].text);
    }
    if credential.None? {
      return written, AuthGivenUp;
    }
    written := written + [credential.value];
    if |inbox| == 1 {
      return written, ClientWaits;
    }
    if inbox[1].Frame? {
      return written, ClientMisread;
    }
    if inbox[1].text != OK {
      return written, AuthFailed(inbox[1].text);
    }
    if |inbox| == 2 {
      return written, FrameMode;
    }
    match inbox[2] {
      case Words(_) => result := ClientMisread;
      case Frame(OutInit(info)) => result := Connected(info);
      case Frame(_) => result := NoInfo;
    }
  }

  /** `PortalTcpServer::handle` up to the frames, as sequential code. */
  method ServerHandshake(flavor: string, verdict: Verdict, info: InfoResult, inbox: seq<string>)
    returns (written: seq<Item>, result: ServerResult)
    ensures written == ServerWrites(flavor, verdict, info, inbox)
    ensures result == ServerState(flavor, verdict, info, inbox)
  {
    written := [];
    if inbox == [] {
      return written, ServerWaits;
    }
    if inbox[0] != flavor {
      return written + [Words(FlavorError(flavor))], FlavorRefused;
    }
    written := written + [Words(OK)];
    if |inbox| == 1 {
      return written, ServerWaits;
    }
    match verdict {
      case Reject(error) => return written + [Words(AuthError(error))], AuthRefused;
      case Accept(user) =>
        written := written + [Words(OK)];
        match info {
          case Granted(granted) =>
            written, result := written + [Frame(OutInit(granted))], Serving(user, granted);
          case Refused(_) => written, result := written + [Frame(OutClose)], InfoRefused(user);
        }
    }
  }

  // ----- both sides together

  datatype Setup = Setup(
    clientFlavor: string, credential: Option<string>, serverFlavor: string, verdict: Verdict, info: InfoResult)

  /** A connection: what either side has written so far and how much of it the other has read. Either may
      stop writing or reading at any point. */
  datatype Link = Link(toServer: seq<string>, toClient: seq<Item>, readByServer: nat, readByClient: nat)

  const IDLE := Link([], [], 0, 0)

  datatype Turn = ClientWrite | ClientRead | ServerWrite | ServerRead

  predicate Sound(l: Link) { l.readByServer <= |l.toServer| && l.readByClient <= |l.toClient| }

  function ClientMay(s: Setup, l: Link): seq<string>
    requires Sound(l)
  {
    ClientWrites(s.clientFlavor, s.credential, l.toClient[..l.readByClient])
  }

  function ServerMay(s: Setup, l: Link): seq<Item>
    requires Sound(l)
  {
    ServerWrites(s.serverFlavor, s.verdict, s.info, l.toServer[..l.readByServer])
  }

  /** A side can write what its reading so far calls for and it has not written yet. */
  predicate Possible(s: Setup, l: Link, turn: Turn) {
    && Sound(l)
    && match turn
       case ClientWrite => |l.toServer| < |ClientMay(s, l)|
       case ServerWrite => |l.toClient| < |ServerMay(s, l)|
       case ClientRead => l.readByClient < |l.toClient|
       case ServerRead => l.readByServer < |l.toServer|
  }

  function Next(s: Setup, l: Link, turn: Turn): Link
    requires Possible(s, l, turn)
  {
    match turn
    case ClientWrite => l.(toServer := l.toServer + [ClientMay(s, l)[|l.toServer|]])
    case ServerWrite => l.(toClient := l.toClient + [ServerMay(s, l)[|l.toClient|]])
    case ClientRead => l.(readByClient := l.readByClient + 1)
    case ServerRead => l.(readByServer := l.readByServer + 1)
  }

  function Run(s: Setup, turns: seq<Turn>): Option<Link> {
    if turns == [] then Some(IDLE)
    else
      match Run(s, turns[..|turns| - 1])
      case None => None
      case Some(l) =>
        var turn := turns[|turns| - 1];
        if Possible(s, l, turn) then Some(Next(s, l, turn)) else None
  }

  /** Neither side is ever ahead of what the other gave it reason to write. */
  ghost predicate Inv(s: Setup, l: Link) {
    Sound(l) && l.toServer <= ClientMay(s, l) && l.toClient <= ServerMay(s, l)
  }

  /** Reading on never takes back what a side has written. */
  lemma WritesGrow(s: Setup, x: seq<Item>, x': seq<Item>, y: seq<string>, y': seq<string>)
    requires x <= x' && y <= y'
    ensures ClientWrites(s.clientFlavor, s.credential, x) <= ClientWrites(s.clientFlavor, s.credential, x')
    ensures ServerWrites(s.serverFlavor, s.verdict, s.info, y) <= ServerWrites(s.serverFlavor, s.verdict, s.info, y')
  {}

  lemma TurnKeeps(s: Setup, l: Link, turn: Turn)
    requires Inv(s, l) && Possible(s, l, turn)
    ensures Inv(s, Next(s, l, turn))
  {
    match turn
    case ClientWrite => Seqs.CutInside(l.toServer, [ClientMay(s, l)[|l.toServer|]], l.readByServer);
    case ServerWrite => Seqs.CutInside(l.toClient, [ServerMay(s, l)[|l.toClient|]], l.readByClient);
    case ClientRead => ReadKeeps(s, l, l.(readByClient := l.readByClient + 1));
    case ServerRead => ReadKeeps(s, l, l.(readByServer := l.readByServer + 1));
  }

  lemma ReadKeeps(s: Setup, l: Link, l': Link)
    requires Inv(s, l) && Sound(l') && l'.toServer == l.toServer && l'.toClient == l.toClient
    requires l.readByServer <= l'.readByServer && l.readByClient <= l'.readByClient
    ensures Inv(s, l')
  {
    WritesGrow(s, l.toClient[..l.readByClient], l.toClient[..l'.readByClient],
               l.toServer[..l.readByServer], l.toServer[..l'.readByServer]);
  }

  ghost predicate Reached(s: Setup, turns: seq<Turn>, l: Link) { Run(s, turns) == Some(l) }

  lemma {:induction false} RunKeeps(s: Setup, turns: seq<Turn>, l: Link)
    requires Reached(s, turns, l)
    ensures Inv(s, l)
  {
    if turns != [] {
      var before := Run(s, turns[..|turns| - 1]).value;
      RunKeeps(s, turns[..|turns| - 1], before);
      TurnKeeps(s, before, turns[|turns| - 1]);
    }
  }

  /** No error text of the server can be taken for "Ok". */
  lemma ErrorsAreNotOk(flavor: string, error: string)
    ensures FlavorError(flavor) != OK && AuthError(error) != OK
  {
    assert FlavorError(flavor)[0] == 'E' && AuthError(error)[0] == 'E' && OK[0] == 'O';
  }

  /** The client's view of a run and the server's. */
  function ClientView(s: Setup, l: Link): ClientResult
    requires Sound(l)
  {
    ClientState(s.credential, l.toClient[..l.readByClient])
  }

  function ServerView(s: Setup, l: Link): ServerResult
    requires Sound(l)
  {
    ServerState(s.serverFlavor, s.verdict, s.info, l.toServer[..l.readByServer])
  }

  /** Agreement: in every run, whatever its pace and wherever it breaks, the client gets past the handshake
      only if the flavors are equal and the server accepted the very credential it sent; it is connected
      only with the info the server serves; and it never reads a frame for a string or a string for a frame. */
  lemma Agreement(s: Setup, turns: seq<Turn>, l: Link)
    requires Reached(s, turns, l)
    ensures Sound(l)
    ensures var client, server := ClientView(s, l), ServerView(s, l);
            && client != ClientMisread
            && (client.FrameMode? || client.Connected? || client.NoInfo? ==>
                  && s.clientFlavor == s.serverFlavor && s.verdict.Accept? && s.credential.Some?
                  && l.toServer[..l.readByServer] == [s.serverFlavor, s.credential.value])
            && (client.FrameMode? || client.Connected? || client.NoInfo? ==>
                  l.toClient[..2] == [Words("Ok"), Words("Ok")])
            && (client.Connected? ==> server.Serving? && server.info == client.info)
            && (client.NoInfo? ==> server.InfoRefused?)
            && (client.FlavorFailed? ==> server.FlavorRefused? && s.clientFlavor != s.serverFlavor)
            && (client.AuthGivenUp? ==> s.clientFlavor == s.serverFlavor && s.credential.None? && server.ServerWaits?)
            && (client.AuthFailed? ==> server.AuthRefused? && s.clientFlavor == s.serverFlavor && s.verdict.Reject?)
  {
    RunKeeps(s, turns, l);
    var x, y := l.toClient[..l.readByClient], l.toServer[..l.readByServer];
    ErrorsAreNotOk(s.serverFlavor, if s.verdict.Reject? then s.verdict.error else "");
    assert x <= ServerMay(s, l) && y <= ClientMay(s, l);
  }

  /** What a side reads is what the other wrote for that very step: the server's first two strings are the
      client's flavor and credential. */
  lemma ReadsLineUp(s: Setup, turns: seq<Turn>, l: Link)
    requires Reached(s, turns, l)
    ensures Sound(l) && l.toServer[..l.readByServer] <= [s.clientFlavor] + if s.credential.Some? then [s.credential.value] else []
  {
    RunKeeps(s, turns, l);
  }

  /** The client shows its flavor first, and its credential only after it has read an "Ok". */
  lemma CredentialAfterOk(s: Setup, turns: seq<Turn>, l: Link)
    requires Reached(s, turns, l) && l.toServer != []
    ensures l.toServer[0] == s.clientFlavor
    ensures |l.toServer| > 1 ==>
              && |l.toServer| == 2 && s.credential == Some(l.toServer[1])
              && Sound(l) && l.readByClient > 0 && l.toClient[0] == Words("Ok")
  {
    RunKeeps(s, turns, l);
  }

  /** The server says "Ok" first only to a client of its flavor, and a second time only to one it accepts. */
  lemma OkOnlyIfDue(s: Setup, turns: seq<Turn>, l: Link)
    requires Reached(s, turns, l)
    ensures l.toClient != [] && l.toClient[0] == Words("Ok") ==> s.clientFlavor == s.serverFlavor
    ensures |l.toClient| > 1 && l.toClient[1] == Words("Ok") ==> s.verdict.Accept? && l.readByServer == 2
  {
    RunKeeps(s, turns, l);
    ErrorsAreNotOk(s.serverFlavor, if s.verdict.Reject? then s.verdict.error else "");
    var y := l.toServer[..l.readByServer];
    assert y <= ClientMay(s, l);
  }

  lemma Extend(s: Setup, turns: seq<Turn>, l: Link, turn: Turn, l': Link)
    requires Reached(s, turns, l) && Possible(s, l, turn) && Next(s, l, turn) == l'
    ensures Reached(s, turns + [turn], l')
  {
    assert (turns + [turn])[..|turns|] == turns;
  }

  /** One string each way: the client's next one is written and read, then the server's answer. */
  lemma Exchange(s: Setup, turns: seq<Turn>, c: seq<string>, o: seq<Item>, c': seq<string>, o': seq<Item>)
    returns (longer: seq<Turn>)
    requires Reached(s, turns, Link(c, o, |c|, |o|)) && |c'| == |c| + 1 && |o'| == |o| + 1
    requires c <= c' <= ClientWrites(s.clientFlavor, s.credential, o)
    requires o <= o' <= ServerWrites(s.serverFlavor, s.verdict, s.info, c')
    ensures Reached(s, longer, Link(c', o', |c'|, |o'|))
  {
    assert c[..|c|] == c && o[..|o|] == o && c'[..|c'|] == c' && o'[..|o'|] == o';
    Extend(s, turns, Link(c, o, |c|, |o|), ClientWrite, Link(c', o, |c|, |o|));
    longer := turns + [ClientWrite];
    Extend(s, longer, Link(c', o, |c|, |o|), ServerRead, Link(c', o, |c'|, |o|));
    longer := longer + [ServerRead];
    Extend(s, longer, Link(c', o, |c'|, |o|), ServerWrite, Link(c', o', |c'|, |o|));
    longer := longer + [ServerWrite];
    Extend(s, longer, Link(c', o', |c'|, |o|), ClientRead, Link(c', o', |c'|, |o'|));
    longer := longer + [ClientRead];
  }

  lemma StringsExchanged(s: Setup) returns (turns: seq<Turn>)
    requires s.clientFlavor == s.serverFlavor && s.verdict.Accept? && s.credential.Some?
    ensures Reached(s, turns, Link([s.clientFlavor, s.credential.value], [Words(OK), Words(OK)], 2, 2))
  {
    turns := Exchange(s, [], [], [], [s.clientFlavor], [Words(OK)]);
    turns := Exchange(s, turns, [s.clientFlavor], [Words(OK)], [s.clientFlavor, s.credential.value], [Words(OK), Words(OK)]);
  }

  /** The item behind the two strings: Init, or Close when there is no info. */
  lemma ThirdItem(s: Setup, item: Item) returns (turns: seq<Turn>)
    requires s.clientFlavor == s.serverFlavor && s.credential.Some? && s.verdict.Accept?
    requires item == Frame(if s.info.Granted? then OutInit(s.info.info) else OutClose)
    ensures Reached(s, turns, Link([s.clientFlavor, s.credential.value], [Words(OK), Words(OK), item], 2, 3))
  {
    var c, o := [s.clientFlavor, s.credential.value], [Words(OK), Words(OK)];
    var o' := [Words(OK), Words(OK), item];
    assert c[..2] == c && o + [item] == o';
    turns := StringsExchanged(s);
    Extend(s, turns, Link(c, o, 2, 2), ServerWrite, Link(c, o', 2, 2));
    turns := turns + [ServerWrite];
    Extend(s, turns, Link(c, o', 2, 2), ClientRead, Link(c, o', 2, 3));
    turns := turns + [ClientRead];
  }

  // ----- how the handshake ends

  /** How the client must come out of the handshake. */
  function Due(s: Setup): ClientResult {
    if s.clientFlavor != s.serverFlavor then
      FlavorFailed("ERROR: flavor does not match.  expected '" + s.serverFlavor + "'")
    else if s.credential.None? then AuthGivenUp
    else
      match s.verdict
      case Reject(error) => AuthFailed("ERROR: authorization failed: " + error)
      case Accept(_) =>
        match s.info
        case Granted(info) => Connected(info)
        case Refused(_) => NoInfo
  }

  /** And the server, which goes on waiting for a client that gave up. */
  function ServerDue(s: Setup): ServerResult {
    if s.clientFlavor != s.serverFlavor then FlavorRefused
    else if s.credential.None? then ServerWaits
    else
      match s.verdict
      case Reject(_) => AuthRefused
      case Accept(user) =>
        match s.info
        case Granted(info) => Serving(user, info)
        case Refused(_) => InfoRefused(user)
  }

  /** Does nothing remain to be read? */
  predicate Final(result: ClientResult) { !result.ClientWaits? && !result.FrameMode? }

  lemma FlavorFails(s: Setup) returns (turns: seq<Turn>, l: Link)
    requires s.clientFlavor != s.serverFlavor
    ensures Reached(s, turns, l) && Sound(l) && ClientView(s, l) == Due(s) && ServerView(s, l) == ServerDue(s)
  {
    var error := Words(FlavorError(s.serverFlavor));
    ErrorsAreNotOk(s.serverFlavor, "");
    turns := Exchange(s, [], [], [], [s.clientFlavor], [error]);
    l := Link([s.clientFlavor], [error], 1, 1);
  }

  lemma AuthEnds(s: Setup) returns (turns: seq<Turn>, l: Link)
    requires s.clientFlavor == s.serverFlavor && (s.credential.None? || s.verdict.Reject?)
    ensures Reached(s, turns, l) && Sound(l) && ClientView(s, l) == Due(s) && ServerView(s, l) == ServerDue(s)
  {
    turns := Exchange(s, [], [], [], [s.clientFlavor], [Words(OK)]);
    if s.credential.None? {
      l := Link([s.clientFlavor], [Words(OK)], 1, 1);
    } else {
      var error := Words(AuthError(s.verdict.error));
      ErrorsAreNotOk("", s.verdict.error);
      turns := Exchange(s, turns, [s.clientFlavor], [Words(OK)], [s.clientFlavor, s.credential.value], [Words(OK), error]);
      l := Link([s.clientFlavor, s.credential.value], [Words(OK), error], 2, 2);
      assert l.toClient[..2] == l.toClient && l.toServer[..2] == l.toServer;
    }
  }

  /** Every handshake can come to its due end, on both sides. */
  lemma CanEnd(s: Setup) returns (turns: seq<Turn>, l: Link)
    ensures Reached(s, turns, l) && Sound(l) && ClientView(s, l) == Due(s) && ServerView(s, l) == ServerDue(s)
  {
    if s.clientFlavor != s.serverFlavor {
      turns, l := FlavorFails(s);
    } else if s.credential.None? || s.verdict.Reject? {
      turns, l := AuthEnds(s);
    } else {
      var item := Frame(if s.info.Granted? then OutInit(s.info.info) else OutClose);
      turns := ThirdItem(s, item);
      l := Link([s.clientFlavor, s.credential.value], [Words(OK), Words(OK), item], 2, 3);
      assert l.toClient[..3] == l.toClient && l.toServer[..2] == l.toServer;
    }
  }

  /** And to no other, whatever the pace of either side and wherever the connection breaks. */
  lemma EndsAsDue(s: Setup, turns: seq<Turn>, l: Link)
    requires Reached(s, turns, l)
    ensures Sound(l)
    ensures Final(ClientView(s, l)) ==> ClientView(s, l) == Due(s)
    ensures ServerView(s, l) != ServerWaits ==> ServerView(s, l) == ServerDue(s)
  {
    RunKeeps(s, turns, l);
    var x, y := l.toClient[..l.readByClient], l.toServer[..l.readByServer];
    ErrorsAreNotOk(s.serverFlavor, if s.verdict.Reject? then s.verdict.error else "");
    assert x <= ServerMay(s, l) && y <= ClientMay(s, l);
  }

  ghost predicate ClientCanEnd(s: Setup, result: ClientResult) {
    exists turns, l :: Reached(s, turns, l) && Sound(l) && ClientView(s, l) == result
  }

  /** What the client can come out with in the end is exactly what is due. */
  lemma EndsExactly(s: Setup, result: ClientResult)
    requires Final(result)
    ensures ClientCanEnd(s, result) <==> result == Due(s)
  {
    if turns, l :| Reached(s, turns, l) && Sound(l) && ClientView(s, l) == result {
      EndsAsDue(s, turns, l);
    }
    if result == Due(s) {
      var turns, l := CanEnd(s);
    }
  }

  /** The client can connect exactly when the flavors are equal, it has a credential, the credential is
      accepted and the server has an info to serve. */
  lemma CanConnect(s: Setup)
    ensures (exists turns, l :: Reached(s, turns, l) && Sound(l) && ClientView(s, l).Connected?)
            <==> s.clientFlavor == s.serverFlavor && s.credential.Some? && s.verdict.Accept? && s.info.Granted?
  {
    if turns, l :| Reached(s, turns, l) && Sound(l) && ClientView(s, l).Connected? {
      EndsAsDue(s, turns, l);
    }
    var turns, l := CanEnd(s);
  }

  /** It can fail on the flavor exactly when the flavors differ, for the reason this server gives. */
  lemma CanFailFlavor(s: Setup, reason: string)
    ensures ClientCanEnd(s, FlavorFailed(reason))
            <==> s.clientFlavor != s.serverFlavor
                 && reason == "ERROR: flavor does not match.  expected '" + s.serverFlavor + "'"
  {
    EndsExactly(s, FlavorFailed(reason));
  }

  /** It can fail the authorization exactly when the flavors are equal and the credential it sent is rejected,
      for the reason the server gives. */
  lemma CanFailAuth(s: Setup, reason: string)
    ensures ClientCanEnd(s, AuthFailed(reason))
            <==> s.clientFlavor == s.serverFlavor && s.credential.Some? && s.verdict.Reject?
                 && reason == "ERROR: authorization failed: " + s.verdict.error
  {
    EndsExactly(s, AuthFailed(reason));
  }

  /** It can be left without an info exactly when it is accepted and the server has none. */
  lemma CanLackInfo(s: Setup)
    ensures ClientCanEnd(s, NoInfo)
            <==> s.clientFlavor == s.serverFlavor && s.credential.Some? && s.verdict.Accept? && s.info.Refused?
  {
    EndsExactly(s, NoInfo);
  }
}
