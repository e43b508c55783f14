/** The one-line answer a module prints, and the protocol window core advertises. */
module Handshake {
  import opened Common
  import opened Text
  import Decimal

  const LINE_VERSION: nat := 1
  const EXIT_PROTOCOL_UNSUPPORTED: int := 78
  const NETWORK_UNIX := "unix"
  const NETWORK_PIPE := "npipe"
  const LEGACY_NETWORK_PIPE := "winpipe"
  const SEP: char := '|'

  datatype Line = Line(protocol: uint32, network: string, addr: string)

  datatype ParseError = Malformed | UnsupportedVersion | BadProtocol | UnknownNetwork | EmptyAddress

  function Format(l: Line): string {
    "WEAVE|" + Decimal.Print(LINE_VERSION) + "|" + Decimal.Print(l.protocol) + "|" + l.network + "|" + l.addr
  }

  /** The old spelling of the pipe network is read as the new one. */
  function Normalise(network: string): string {
    if network == LEGACY_NETWORK_PIPE then NETWORK_PIPE else network
  }

  function Parse(s: string): Result<Line, ParseError> {
    var parts := Split(TrimSpace(s), SEP);
    if |parts| != 5 || parts[0] != "WEAVE" then Err(Malformed)
    else
      var v := Decimal.ParseUint(parts[1], TWO_32);
      if v.None? || v.value != LINE_VERSION then Err(UnsupportedVersion)
      else
        var p := Decimal.ParseUint(parts[2], TWO_32);
        if p.None? || p.value == 0 then Err(BadProtocol)
        else
          var network := Normalise(parts[3]);
          if network != NETWORK_UNIX && network != NETWORK_PIPE then Err(UnknownNetwork)
          else if parts[4] == "" then Err(EmptyAddress)
          else Ok(Line(p.value, network, parts[4]))
  }

  // ---- The line grammar, as an independent reference ----

  /** Digits, with any number of leading zeros, for `n`. */
  predicate Numeral(s: string, n: nat) { s != "" && Decimal.AllDigits(s) && Decimal.ValueOf(s) == n }

  /** The five fields, joined by bars. */
  function Fields(version: string, protocol: string, network: string, addr: string): string {
    "WEAVE" + "|" + version + "|" + protocol + "|" + network + "|" + addr
  }

  predicate SaysWith(s: string, l: Line, version: string, protocol: string, network: string) {
    && TrimSpace(s) == Fields(version, protocol, network, l.addr)
    && Numeral(version, LINE_VERSION) && Numeral(protocol, l.protocol) && l.protocol != 0
    && Normalise(network) == l.network && (l.network == NETWORK_UNIX || l.network == NETWORK_PIPE)
    && l.addr != "" && SEP !in l.addr
  }

  /** `s` is, up to white space around it, a line saying `l`. */
  ghost predicate Says(s: string, l: Line) {
    exists version, protocol, network :: SaysWith(s, l, version, protocol, network)
  }

  /** The lines Format writes so that Parse can read them back. */
  predicate Speakable(l: Line) {
    && l.protocol >= 1 && (l.network == NETWORK_UNIX || l.network == NETWORK_PIPE)
    && l.addr != "" && SEP !in l.addr && !IsSpace(l.addr[|l.addr| - 1])
  }

  lemma Join5(a: string, b: string, c: string, d: string, e: string)
    ensures Join([a, b, c, d, e], SEP) == a + "|" + b + "|" + c + "|" + d + "|" + e
  {
    var parts := [a, b, c, d, e];
    assert parts[1..] == [b, c, d, e] && parts[1..][1..] == [c, d, e];
    assert parts[1..][1..][1..] == [d, e] && parts[1..][1..][1..][1..] == [e];
    assert Join([d, e], SEP) == d + "|" + e;
    assert Join([c, d, e], SEP) == c + "|" + (d + "|" + e);
    assert Join([b, c, d, e], SEP) == b + "|" + (c + "|" + (d + "|" + e));
  }

  lemma DigitsFree(s: string)
    requires Decimal.AllDigits(s)
    ensures SEP !in s
  {
  }

  lemma NetworkFree(network: string)
    requires Normalise(network) == NETWORK_UNIX || Normalise(network) == NETWORK_PIPE
    ensures SEP !in network
  {
  }

  /** Parse accepts exactly the lines of the grammar, and reads what they say. */
  lemma ParseExactly(s: string, l: Line)
    ensures Parse(s) == Ok(l) <==> Says(s, l)
  {
    if Parse(s) == Ok(l) { ParseSound(s, l); }
    if Says(s, l) { ParseComplete(s, l); }
  }

  lemma ParseSound(s: string, l: Line)
    requires Parse(s) == Ok(l)
    ensures Says(s, l)
  {
    hide TrimSpace, Split, Join;
    var parts := Split(TrimSpace(s), SEP);
    SplitJoins(TrimSpace(s), SEP);
    assert parts == [parts[0], parts[1], parts[2], parts[3], parts[4]];
    Join5(parts[0], parts[1], parts[2], parts[3], parts[4]);
    assert SaysWith(s, l, parts[1], parts[2], parts[3]);
  }

  /** The fields come apart as they were put together, up to bars in the address. */
  lemma FieldsSplit(version: string, protocol: string, network: string, addr: string)
    requires SEP !in version && SEP !in protocol && SEP !in network
    ensures Split(Fields(version, protocol, network, addr), SEP)
            == ["WEAVE", version, protocol, network] + Split(addr, SEP)
  {
    hide Split;
    var s3 := network + "|" + addr;
    var s2 := protocol + "|" + s3;
    var s1 := version + "|" + s2;
    SplitFirst(network, addr, SEP);
    SplitFirst(protocol, s3, SEP);
    SplitFirst(version, s2, SEP);
    SplitFirst("WEAVE", s1, SEP);
    assert Fields(version, protocol, network, addr) == "WEAVE" + "|" + s1;
  }

  lemma ParseComplete(s: string, l: Line)
    requires Says(s, l)
    ensures Parse(s) == Ok(l)
  {
    hide TrimSpace, Split, Join;
    var version, protocol, network :| SaysWith(s, l, version, protocol, network);
    DigitsFree(version);
    DigitsFree(protocol);
    NetworkFree(network);
    FieldsSplit(version, protocol, network, l.addr);
    SplitPart(l.addr, SEP);
  }

  /** What Parse makes of five fields of which the first four are in order, whatever the fifth is. */
  lemma ParseFields(s: string, protocol: uint32, network: string, addr: string)
    requires TrimSpace(s) == Fields(Decimal.Print(LINE_VERSION), Decimal.Print(protocol), network, addr)
    requires 1 <= protocol && (network == NETWORK_UNIX || network == NETWORK_PIPE)
    ensures Parse(s) == if SEP in addr then Err(Malformed)
                        else if addr == "" then Err(EmptyAddress)
                        else Ok(Line(protocol, network, addr))
  {
    hide TrimSpace, Split, Fields;
    Decimal.PrintReads(LINE_VERSION);
    Decimal.PrintReads(protocol);
    Decimal.ParsePrinted(LINE_VERSION, TWO_32);
    Decimal.ParsePrinted(protocol, TWO_32);
    DigitsFree(Decimal.Print(LINE_VERSION));
    DigitsFree(Decimal.Print(protocol));
    FieldsSplit(Decimal.Print(LINE_VERSION), Decimal.Print(protocol), network, addr);
    SplitWhole(addr, SEP);
    if SEP !in addr { SplitPart(addr, SEP); }
  }

  // ---- Which error for which line ----

  /** Five bar-free fields between white space. */
  predicate FiveFields(s: string, magic: string, version: string, protocol: string, network: string, addr: string) {
    && TrimSpace(s) == magic + "|" + version + "|" + protocol + "|" + network + "|" + addr
    && '|' !in magic && '|' !in version && '|' !in protocol && '|' !in network && '|' !in addr
  }

  lemma FiveFieldsSplit(s: string, magic: string, version: string, protocol: string, network: string, addr: string)
    requires FiveFields(s, magic, version, protocol, network, addr)
    ensures Split(TrimSpace(s), SEP) == [magic, version, protocol, network, addr]
  {
    hide TrimSpace, Split, Join;
    var parts := [magic, version, protocol, network, addr];
    Join5(magic, version, protocol, network, addr);
    assert Free(parts, SEP);
    JoinSplits(parts, SEP);
  }

  /** The first field that is wrong decides; numbers are numerals below 2^32. */
  lemma ParseErrors(s: string, magic: string, version: string, protocol: string, network: string, addr: string)
    requires FiveFields(s, magic, version, protocol, network, addr)
    ensures var r := Parse(s);
      if magic != "WEAVE" then r == Err(Malformed)
      else if !Numeral(version, 1) then r == Err(UnsupportedVersion)
      else if !(exists n :: 0 < n < 0x1_0000_0000 && Numeral(protocol, n)) then r == Err(BadProtocol)
      else if network !in {"unix", "npipe", "winpipe"} then r == Err(UnknownNetwork)
      else if addr == "" then r == Err(EmptyAddress)
      else
        && r.Ok? && Numeral(protocol, r.value.protocol) && r.value.addr == addr
        && r.value.network == (if network == "unix" then "unix" else "npipe")
  {
    hide TrimSpace, Split;
    FiveFieldsSplit(s, magic, version, protocol, network, addr);
    if protocol != "" && Decimal.AllDigits(protocol) { assert Numeral(protocol, Decimal.ValueOf(protocol)); }
  }

  /** Anything else than five fields is malformed. */
  lemma MalformedExactly(s: string)
    ensures Parse(s) == Err(Malformed) <==>
      !(exists version, protocol, network, addr :: FiveFields(s, "WEAVE", version, protocol, network, addr))
  {
    if version, protocol, network, addr :| FiveFields(s, "WEAVE", version, protocol, network, addr) {
      ParseErrors(s, "WEAVE", version, protocol, network, addr);
    }
    var parts := Split(TrimSpace(s), SEP);
    if |parts| == 5 && parts[0] == "WEAVE" {
      hide TrimSpace, Split, Join;
      SplitJoins(TrimSpace(s), SEP);
      assert parts == [parts[0], parts[1], parts[2], parts[3], parts[4]];
      Join5(parts[0], parts[1], parts[2], parts[3], parts[4]);
      assert FiveFields(s, "WEAVE", parts[1], parts[2], parts[3], parts[4]);
    }
  }

  /** Whatever Parse returns can be formatted and parsed again. */
  lemma ParsedIsSpeakable(s: string)
    requires Parse(s).Ok?
    ensures Speakable(Parse(s).value)
  {
    var parts := Split(TrimSpace(s), SEP);
    SplitJoins(TrimSpace(s), SEP);
    JoinEnds(parts, SEP);
    var lead, trail := TrimSpec(s);
  }

  /** The five fields of a printed line; printing adds nothing TrimSpace would remove. */
  lemma FormatFields(l: Line)
    ensures Format(l) == Fields(Decimal.Print(LINE_VERSION), Decimal.Print(l.protocol), l.network, l.addr)
    ensures l.addr != "" && !IsSpace(l.addr[|l.addr| - 1]) ==> TrimSpace(Format(l)) == Format(l)
  {
    var f := Format(l);
    assert "WEAVE|" == "WEAVE" + "|";
    assert f[0] == 'W';
    if l.addr != "" { assert f[|f| - 1] == l.addr[|l.addr| - 1]; }
  }

  lemma SpeakableParses(l: Line)
    requires Speakable(l)
    ensures Parse(Format(l)) == Ok(l)
  {
    hide TrimSpace, Format, Parse, Fields;
    FormatFields(l);
    Decimal.PrintReads(LINE_VERSION);
    Decimal.PrintReads(l.protocol);
    assert SaysWith(Format(l), l, Decimal.Print(LINE_VERSION), Decimal.Print(l.protocol), l.network);
    ParseComplete(Format(l), l);
  }

  /** The exact round-trip domain. */
  lemma RoundTripExactly(l: Line)
    ensures Parse(Format(l)) == Ok(l) <==> Speakable(l)
  {
    if Parse(Format(l)) == Ok(l) { ParsedIsSpeakable(Format(l)); }
    if Speakable(l) { SpeakableParses(l); }
  }

  /** Parsing canonicalises: leading zeros, outer white space and the legacy name are gone for good. */
  lemma ParseCanonicalises(s: string)
    requires Parse(s).Ok?
    ensures Parse(Format(Parse(s).value)) == Parse(s)
  {
    ParsedIsSpeakable(s);
    SpeakableParses(Parse(s).value);
  }

  // ---- The window ----

  datatype Window = Window(min: uint32, max: uint32)

  predicate Contains(w: Window, p: uint32) { p >= w.min && p <= w.max }

  predicate ValidWindow(w: Window) { 1 <= w.min <= w.max }

  datatype WindowError = BadMin | BadMax | InvalidWindow

  function ParseWindow(min: string, max: string): Result<Window, WindowError> {
    var lo := Decimal.ParseUint(min, TWO_32);
    if lo.None? then Err(BadMin)
    else
      var hi := Decimal.ParseUint(max, TWO_32);
      if hi.None? then Err(BadMax)
      else if lo.value == 0 || hi.value < lo.value then Err(InvalidWindow)
      else Ok(Window(lo.value, hi.value))
  }

  /** The two environment values core prints read back as its window, or as an error if it is no window. */
  lemma WindowReadsBack(w: Window)
    ensures ParseWindow(Decimal.Print(w.min), Decimal.Print(w.max))
            == if ValidWindow(w) then Ok(w) else Err(InvalidWindow)
  {
    Decimal.ParsePrinted(w.min, TWO_32);
    Decimal.ParsePrinted(w.max, TWO_32);
  }

  /** The first bound that is no numeral below 2^32 decides, then whether the two make a window. */
  lemma WindowErrors(min: string, max: string)
    ensures var r := ParseWindow(min, max);
      && (r == Err(BadMin) <==> !(exists n :: 0 <= n < 0x1_0000_0000 && Numeral(min, n)))
      && (r == Err(BadMax) ==> exists n :: 0 <= n < 0x1_0000_0000 && Numeral(min, n))
      && (r == Err(BadMax) ==> !(exists n :: 0 <= n < 0x1_0000_0000 && Numeral(max, n)))
      && (r == Err(InvalidWindow) <==>
            exists lo: uint32, hi: uint32 :: Numeral(min, lo) && Numeral(max, hi) && (lo == 0 || hi < lo))
  {
    NumeralRead(min);
    NumeralRead(max);
    if ParseWindow(min, max) == Err(InvalidWindow) {
      var lo: uint32, hi: uint32 := Decimal.ValueOf(min), Decimal.ValueOf(max);
      assert Numeral(min, lo) && Numeral(max, hi);
    }
  }

  lemma NumeralRead(s: string)
    ensures Decimal.ParseUint(s, TWO_32).Some? <==> exists n :: 0 <= n < 0x1_0000_0000 && Numeral(s, n)
    ensures forall n: nat :: Numeral(s, n) && n < TWO_32 ==> Decimal.ParseUint(s, TWO_32) == Some(n)
  {
    if s != "" && Decimal.AllDigits(s) { assert Numeral(s, Decimal.ValueOf(s)); }
  }

  /** Only valid windows are ever read, and only from two numerals. */
  lemma ParsedWindowIsValid(min: string, max: string, w: Window)
    ensures ParseWindow(min, max) == Ok(w) <==> Numeral(min, w.min) && Numeral(max, w.max) && ValidWindow(w)
  {
  }
}
