/**
 * The handshake end to end: what core puts in the environment, what the module decides
 * from it, what it prints or exits with, and what core makes of that.
 */
module Negotiation {
  import opened Common
  import opened Handshake
  import Text
  import Decimal
  import Runtime
  import RuntimeTrace

  /** The handshake environment; an unset variable is the empty string. */
  datatype Env = Env(protocolMin: string, protocolMax: string, token: string, hostAddr: string, socketDir: string)

  /** The platform the module runs on: its network and how it forms its address. */
  datatype Platform =
    | Windows(nonce: string)      // the hex form of the random suffix
    | Unix(stem: string)          // what filepath.Join makes of the directory and id, up to ".sock"

  function NetworkOf(platform: Platform): string { if platform.Windows? then NETWORK_PIPE else NETWORK_UNIX }

  function ModuleAddr(platform: Platform, id: string, socketDir: string): Option<string> {
    match platform
    case Windows(nonce) => Some("\\\\.\\pipe\\weave-" + id + "-" + nonce)
    case Unix(stem) => if socketDir == "" then None else Some(stem + ".sock")
  }

  // ---- The module's side ----

  datatype ServeError = BadWindow | ProtocolOutOfWindow | IncompleteEnvironment | NoSocketDir | ListenFailed

  /** serve up to its handshake line: the line it prints, or why it gives up. */
  function Serve(env: Env, protocol: uint32, id: string, platform: Platform, listenOk: bool)
    : Result<string, ServeError>
  {
    var window := ParseWindow(env.protocolMin, env.protocolMax);
    if window.Err? then Err(BadWindow)
    else if !Contains(window.value, protocol) then Err(ProtocolOutOfWindow)
    else if env.token == "" || env.hostAddr == "" then Err(IncompleteEnvironment)
    else
      var addr := ModuleAddr(platform, id, env.socketDir);
      if addr.None? then Err(NoSocketDir)
      else if !listenOk then Err(ListenFailed)
      else Ok(Format(Line(protocol, NetworkOf(platform), addr.value)))
  }

  function ExitCode(e: ServeError): int { if e == ProtocolOutOfWindow then EXIT_PROTOCOL_UNSUPPORTED else 1 }

  // ---- Core's side ----

  /** What bufio.Scanner yields for output whose first line ends in a newline. */
  function FirstLine(output: string): string {
    var line := UpToNewline(output);
    if line != "" && line[|line| - 1] == '\r' then line[..|line| - 1] else line
  }

  function UpToNewline(s: string): string {
    if s == "" || s[0] == '\n' then "" else [s[0]] + UpToNewline(s[1..])
  }

  datatype LaunchResult =
    | Refused | ExitedEarly(code: int) | BadLine(error: ParseError) | OutsideWindow | Launched(line: Line)

  function EffectiveWindow(w: Window): Window { if w == Window(0, 0) then Window(1, 1) else w }

  function EnvFor(w: Window, token: string, hostAddr: string, socketDir: string): Env {
    Env(Decimal.Print(w.min), Decimal.Print(w.max), token, hostAddr, socketDir)
  }

  /** StubCore.Launch's decisions on what the module did. */
  function Judge(w: Window, module_: Result<string, ServeError>): LaunchResult {
    match module_
    case Err(e) => if ExitCode(e) == EXIT_PROTOCOL_UNSUPPORTED then Refused else ExitedEarly(ExitCode(e))
    case Ok(printed) =>
      var line := Parse(FirstLine(printed + "\n"));
      if line.Err? then BadLine(line.error)
      else if !Contains(w, line.value.protocol) then OutsideWindow
      else Launched(line.value)
  }

  function Launch(window: Window, token: string, hostAddr: string, socketDir: string,
                  protocol: uint32, id: string, platform: Platform, listenOk: bool): LaunchResult {
    var w := EffectiveWindow(window);
    Judge(w, Serve(EnvFor(w, token, hostAddr, socketDir), protocol, id, platform, listenOk))
  }

  // ---- The theorem ----

  lemma {:induction false} UpToNewlineSpec(s: string)
    ensures '\n' !in UpToNewline(s)
    ensures '\n' !in s <==> UpToNewline(s) == s
  {
    if s != "" {
      UpToNewlineSpec(s[1..]);
      assert s == [s[0]] + s[1..];
    }
  }

  lemma {:induction false} UpToNewlineAppend(a: string, b: string)
    requires '\n' !in a
    ensures UpToNewline(a + b + "\n") == a + UpToNewline(b)
    decreases |a| + |b|
  {
    if a != "" {
      assert a == [a[0]] + a[1..] && (a + b + "\n")[1..] == a[1..] + b + "\n";
      UpToNewlineAppend(a[1..], b);
    } else if b != "" && b[0] != '\n' {
      assert (a + b + "\n")[1..] == "" + b[1..] + "\n";
      UpToNewlineAppend("", b[1..]);
    }
  }

  /** An address core can read off the line. */
  predicate Plain(addr: string) { SEP !in addr && '\n' !in addr }

  predicate IsHex(c: char) { '0' <= c <= '9' || 'a' <= c <= 'f' }

  /** The random suffix is some hex digits. */
  predicate HexNonce(platform: Platform) {
    platform.Windows? ==> platform.nonce != "" && forall i :: 0 <= i < |platform.nonce| ==> IsHex(platform.nonce[i])
  }

  /** Every address ends in ".sock" or in a hex digit, so never in white space. */
  lemma AddrEnds(platform: Platform, id: string, socketDir: string)
    requires ModuleAddr(platform, id, socketDir).Some? && HexNonce(platform)
    ensures var a := ModuleAddr(platform, id, socketDir).value;
      a != "" && !Text.IsSpace(a[|a| - 1])
  {
    var a := ModuleAddr(platform, id, socketDir).value;
    if platform.Unix? {
      assert a[|a| - 1] == 'k';
    } else {
      assert a[|a| - 1] == platform.nonce[|platform.nonce| - 1];
    }
  }

  /** What of an address survives on the line core reads: its first line without trailing white space. */
  function AddrOnLine(addr: string): string { Text.TrimRight(UpToNewline(addr)) }

  /** What core makes of a module's line, in terms of the line itself. */
  function Received(l: Line): Result<Line, ParseError> {
    var addr := AddrOnLine(l.addr);
    if SEP in addr then Err(Malformed) else if addr == "" then Err(EmptyAddress) else Ok(l.(addr := addr))
  }

  /** What every printed line has before its address. */
  function Head(l: Line): string {
    "WEAVE|" + Decimal.Print(LINE_VERSION) + "|" + Decimal.Print(l.protocol) + "|" + l.network + "|"
  }

  lemma HeadOf(l: Line)
    requires l.network == NETWORK_UNIX || l.network == NETWORK_PIPE
    ensures Format(l) == Head(l) + l.addr && Head(l)[0] == 'W' && '\n' !in Head(l)
    ensures Head(l)[|Head(l)| - 1] == SEP
  {
    Decimal.PrintReads(LINE_VERSION);
    Decimal.PrintReads(l.protocol);
  }

  /** The scanner's carriage return is white space anyway. */
  lemma FirstLineTrimmed(output: string)
    ensures Text.TrimRight(FirstLine(output)) == Text.TrimRight(UpToNewline(output))
  {
  }

  lemma TrimSpaceAtStart(s: string)
    requires s != "" && !Text.IsSpace(s[0])
    ensures Text.TrimSpace(s) == Text.TrimRight(s)
  {
  }

  /** What core reads off the line a module prints, for every line whatsoever. */
  lemma LineArrives(l: Line)
    requires 1 <= l.protocol && (l.network == NETWORK_UNIX || l.network == NETWORK_PIPE)
    ensures Parse(FirstLine(Format(l) + "\n")) == Received(l)
  {
    hide Format, Parse, Text.TrimRight, Text.TrimSpace, UpToNewline, FirstLine, Fields;
    var head, rest := Head(l), UpToNewline(l.addr);
    var output := Format(l) + "\n";
    HeadOf(l);
    UpToNewlineAppend(head, l.addr);
    FirstLineTrimmed(output);
    Text.TrimRightAppend(head, rest);
    FirstLineStarts(output, head, rest);
    TrimSpaceAtStart(FirstLine(output));
    OnLine(l, AddrOnLine(l.addr));
    ParseFields(FirstLine(output), l.protocol, l.network, AddrOnLine(l.addr));
  }

  lemma FirstLineStarts(output: string, head: string, rest: string)
    requires UpToNewline(output) == head + rest && head != "" && !Text.IsSpace(head[0]) && head[|head| - 1] == SEP
    ensures FirstLine(output) != "" && FirstLine(output)[0] == head[0]
  {
    if rest == "" { assert head + rest == head; }
  }

  lemma OnLine(l: Line, addr: string)
    ensures Head(l) + addr == Fields(Decimal.Print(LINE_VERSION), Decimal.Print(l.protocol), l.network, addr)
  {
    assert "WEAVE|" == "WEAVE" + "|";
  }

  /** A line whose address does not end in white space arrives unchanged exactly if the address is plain. */
  lemma ReceivedIntact(l: Line)
    requires l.addr != "" && !Text.IsSpace(l.addr[|l.addr| - 1])
    ensures Received(l) == Ok(l) <==> Plain(l.addr)
  {
    UpToNewlineSpec(l.addr);
    if Received(l) == Ok(l) {
      var trail := Text.TrimRightSpec(UpToNewline(l.addr));
      assert forall c :: c in AddrOnLine(l.addr) ==> c in UpToNewline(l.addr);
    }
  }

  /** Why a module may give up although its protocol is in the window. */
  predicate Incomplete(token: string, hostAddr: string, socketDir: string, platform: Platform, listenOk: bool) {
    token == "" || hostAddr == "" || (platform.Unix? && socketDir == "") || !listenOk
  }

  /**
   * Negotiation, for every window, protocol, environment and address: core reports a refusal exactly when
   * the window is one and the protocol outside it; a window that is none, or an incomplete environment, ends
   * in exit code 1; otherwise core launches on the module's own line if and only if the address has no bar
   * and no newline. With a newline it launches on what precedes it, trimmed, unless that is empty or has a bar.
   */
  lemma NegotiationExactly(window: Window, token: string, hostAddr: string, socketDir: string,
                           protocol: uint32, id: string, platform: Platform, listenOk: bool)
    requires HexNonce(platform)
    ensures
      var w := EffectiveWindow(window);
      var r := Launch(window, token, hostAddr, socketDir, protocol, id, platform, listenOk);
      var addr := ModuleAddr(platform, id, socketDir);
      && (r == Refused <==> ValidWindow(w) && !Contains(w, protocol))
      && (!ValidWindow(w) ==> r == ExitedEarly(1))
      && (ValidWindow(w) && Contains(w, protocol) && Incomplete(token, hostAddr, socketDir, platform, listenOk) ==>
            r == ExitedEarly(1))
      && (ValidWindow(w) && Contains(w, protocol) && !Incomplete(token, hostAddr, socketDir, platform, listenOk) ==>
            var l := Line(protocol, NetworkOf(platform), addr.value);
            && (r == Launched(l) <==> Plain(addr.value))
            && r == match Received(l) case Ok(read) => Launched(read) case Err(e) => BadLine(e))
  {
    hide Format, Parse, FirstLine, AddrOnLine;
    var w := EffectiveWindow(window);
    WindowReadsBack(w);
    var addr := ModuleAddr(platform, id, socketDir);
    if ValidWindow(w) && Contains(w, protocol) && addr.Some? {
      var l := Line(protocol, NetworkOf(platform), addr.value);
      AddrEnds(platform, id, socketDir);
      LineArrives(l);
      ReceivedIntact(l);
    }
  }

  /**
   * The refusal in numbers: a module of protocol p is refused exactly by a window with 1 <= min <= max that p
   * lies outside of, or, unless p is 1, by the default window, which a core that names none advertises.
   */
  lemma RefusedExactly(min: uint32, max: uint32, token: string, hostAddr: string, socketDir: string,
                       p: uint32, id: string, platform: Platform, listenOk: bool)
    requires HexNonce(platform)
    ensures Launch(Window(min, max), token, hostAddr, socketDir, p, id, platform, listenOk) == Refused
            <==> if min == 0 && max == 0 then p != 1 else 1 <= min <= max && (p < min || max < p)
  {
    hide Launch, ModuleAddr;
    NegotiationExactly(Window(min, max), token, hostAddr, socketDir, p, id, platform, listenOk);
  }

  /** A line as it goes over the wire, and the exit code and error a refused module leaves with. */
  lemma OnTheWire()
    ensures Format(Line(1, NETWORK_UNIX, "/run/weave/m.sock")) == "WEAVE|1|1|unix|/run/weave/m.sock"
    ensures Format(Line(12, NETWORK_PIPE, "p")) == "WEAVE|1|12|npipe|p"
    ensures ExitCode(ProtocolOutOfWindow) == 78 && ExitCode(BadWindow) == ExitCode(IncompleteEnvironment) == 1
  {
    assert Decimal.Print(1) == "1" && Decimal.Print(12) == "12";
  }

  /** Where modules listen: each pipe has the module's id and its own suffix, each socket lies in core's directory. */
  lemma Addresses(id: string, nonce: string, stem: string, socketDir: string)
    ensures ModuleAddr(Windows(nonce), id, socketDir) == Some(@"\\.\pipe\weave-" + id + "-" + nonce)
    ensures ModuleAddr(Unix(stem), id, socketDir) == if socketDir == "" then None else Some(stem + ".sock")
    ensures NetworkOf(Windows(nonce)) == "npipe" && NetworkOf(Unix(stem)) == "unix"
  {
  }

  /** No two modules, nor two launches with different suffixes, share a pipe. */
  lemma PipesApart(id: string, nonce: string, id': string, nonce': string)
    requires HexNonce(Windows(nonce)) && HexNonce(Windows(nonce')) && |nonce| == |nonce'|
    ensures ModuleAddr(Windows(nonce), id, "") == ModuleAddr(Windows(nonce'), id', "") <==> id == id' && nonce == nonce'
  {
    var lead, a, b := "\\\\.\\pipe\\weave-", id + "-" + nonce, id' + "-" + nonce';
    if lead + id + "-" + nonce == lead + id' + "-" + nonce' {
      assert lead + id + "-" + nonce == lead + a && lead + id' + "-" + nonce' == lead + b;
      assert a == (lead + a)[|lead|..] == (lead + b)[|lead|..] == b;
      assert |id| == |id'| && id == a[..|id|] && nonce == a[|id| + 1..];
    }
  }

  /** For instance, a socket directory with a newline in it makes core dial another socket than the module's. */
  lemma NewlineMisleads()
    ensures Received(Line(1, NETWORK_UNIX, "/a\n.sock")) == Ok(Line(1, NETWORK_UNIX, "/a"))
  {
    var addr := "/a\n.sock";
    assert addr == "/a" + "\n.sock";
    calc {
      UpToNewline(addr);
      { assert addr[1..] == "a\n.sock"; }
      "/" + UpToNewline("a\n.sock");
      { assert "a\n.sock"[1..] == "\n.sock"; }
      "/a";
    }
  }

  /** Once launched, whatever the address, Init carries the protocol the module speaks, so it cannot fail on it. */
  lemma InitAgreesOnProtocol(window: Window, token: string, hostAddr: string, socketDir: string,
                             id: string, platform: Platform, listenOk: bool, seconds: uint32)
    requires HexNonce(platform)
    requires Launch(window, token, hostAddr, socketDir, Runtime.PROTOCOL, id, platform, listenOk).Launched?
    ensures
      var line := Launch(window, token, hostAddr, socketDir, Runtime.PROTOCOL, id, platform, listenOk).line;
      var req := Runtime.InitRequest(id, line.protocol, seconds);
      Runtime.InitVerdict(id, RuntimeTrace.Created, req, true, true) == RuntimeTrace.OK
  {
    hide Launch, ModuleAddr;
    NegotiationExactly(window, token, hostAddr, socketDir, Runtime.PROTOCOL, id, platform, listenOk);
  }
}
