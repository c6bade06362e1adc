/**
  The port-mapping parser of the management page: what each of its functions returns, the grammar it is
  meant to accept, and the proof that the two agree.
*/
module PortMapping {
  import opened Replies
  import opened PortText

  datatype Kind = EOF | Slash | Colon | Comma | Address | Numbers | Protocol

  /** `Bad` stands for the exception raised on an unexpected character. */
  datatype Token = Token(kind: Kind, text: string) | Bad

  /** The next token of the text still to be read. */
  function Peek(s: string): Token {
    if s == "" then Token(EOF, "")
    else if s[0] == '/' then Token(Slash, "/")
    else if s[0] == ':' then Token(Colon, ":")
    else if s[0] == ',' then Token(Comma, ",")
    else if MatchAddress(s, 3).Some? && MatchAddress(s, 3).value <= |s| then
      Token(Address, s[..MatchAddress(s, 3).value])
    else if DigitRun(s) > 0 then Token(Numbers, s[..DigitRun(s)])
    else if |s| >= 3 && (s[..3] == "tcp" || s[..3] == "udp") then Token(Protocol, s[..3])
    else Bad
  }

  /** What a container port is bound to on the host. */
  datatype Binding = Unbound | HostPort(port: string) | HostAddress(ip: string, hostPort: Option<string>)

  /** A parse step: an exception, or a value and the text still to be read. */
  datatype Parse<+T> = Fail | Done(value: T, rest: string)

  function ParsePort(s: string): Parse<string> {
    var t := Peek(s);
    if t.Token? && t.kind == Numbers && AllDigits(t.text) && 0 < Value(t.text) < 65536 && |t.text| <= |s| then
      Done(t.text, s[|t.text|..])
    else Fail
  }

  function ParseProtocol(s: string): Parse<string> {
    var t := Peek(s);
    if t.Token? && t.kind == Protocol && |t.text| <= |s| then Done(t.text, s[|t.text|..]) else Fail
  }

  /** The protocol, if a slash comes next, added to a port already read. */
  function ParseSuffix(port: string, s: string): Parse<string> {
    var t := Peek(s);
    if t == Bad then Fail
    else if t.kind == Slash then
      match ParseProtocol(s[1..])
      case Fail => Fail
      case Done(p, rest) => Done(port + "/" + p, rest)
    else Done(port, s)
  }

  function ParseContainerPort(s: string): Parse<string> {
    match ParsePort(s)
    case Fail => Fail
    case Done(port, rest) => ParseSuffix(port, rest)
  }

  /** A container port and its binding. `None`: the parser fell through without a result. */
  type Entry = Option<(string, Binding)>

  /** What may follow an address and a colon. */
  function ParseAfterAddress(ip: string, s: string): Parse<Entry> {
    if Peek(s) == Bad then Fail
    else if Peek(s).kind == Numbers then
      match ParsePort(s)
      case Fail => Fail
      case Done(port, s1) =>
        if Peek(s1) != Token(Colon, ":") then Fail
        else
          match ParseContainerPort(s1[1..])
          case Fail => Fail
          case Done(key, rest) => Done(Some((key, HostAddress(ip, Some(port)))), rest)
    else if Peek(s).kind == Colon then
      match ParseContainerPort(s[1..])
      case Fail => Fail
      case Done(key, rest) => Done(Some((key, HostAddress(ip, None))), rest)
    else Done(None, s)
  }

  function ParseAddressMap(s: string): Parse<Entry> {
    var t := Peek(s);
    if t == Bad || t.kind != Address || |t.text| > |s| then Fail
    else
      var s1 := s[|t.text|..];
      if Peek(s1) != Token(Colon, ":") then Fail else ParseAfterAddress(t.text, s1[1..])
  }

  function ParsePortMap(s: string): Parse<Entry> {
    match ParsePort(s)
    case Fail => Fail
    case Done(port, s1) =>
      if Peek(s1) == Token(Colon, ":") then
        match ParseContainerPort(s1[1..])
        case Fail => Fail
        case Done(key, rest) => Done(Some((key, HostPort(port))), rest)
      else
        match ParseSuffix(port, s1)
        case Fail => Fail
        case Done(key, rest) => Done(Some((key, Unbound)), rest)
  }

  /** One element of the list; a result left empty, or text left over, is an error. */
  function ParseElement(s: string): Entry {
    var t := Peek(s);
    if t == Bad then None
    else
      var r := if t.kind == Address then ParseAddressMap(s)
               else if t.kind == Numbers then ParsePortMap(s)
               else Fail;
      if r.Done? && Peek(r.rest) == Token(EOF, "") then r.value else None
  }

  // ---- the grammar

  /** A port, perhaps with a protocol. */
  ghost predicate IsContainerPort(s: string) {
    IsPort(s) || (|s| > 4 && IsPort(s[..|s| - 4]) && (s[|s| - 4..] == "/tcp" || s[|s| - 4..] == "/udp"))
  }

  /** The text of a mapping. */
  function Text(key: string, b: Binding): string {
    match b
    case Unbound => key
    case HostPort(port) => port + ":" + key
    case HostAddress(ip, None) => ip + "::" + key
    case HostAddress(ip, Some(port)) => ip + ":" + port + ":" + key
  }

  ghost predicate WellFormed(key: string, b: Binding) {
    && IsContainerPort(key)
    && match b
       case Unbound => true
       case HostPort(port) => IsPort(port)
       case HostAddress(ip, None) => IsAddress(ip)
       case HostAddress(ip, Some(port)) => IsAddress(ip) && IsPort(port)
  }

  // ---- tokens at the front of a text

  lemma {:induction false} DottedStart(s: string, k: nat)
    requires Dotted(s, k)
    ensures s != "" && IsDigit(s[0])
  {
    if k > 0 {
      var c :| 0 < c < |s| && s[c] == '.' && Octet(s[..c]) && Dotted(s[c + 1..], k - 1);
      assert s[..c][0] == s[0];
    }
  }

  /** A number that neither a digit nor a dot follows is read whole, as a number. */
  lemma PeekNumber(port: string, r: string)
    requires port != "" && AllDigits(port) && (r != "" ==> !IsDigit(r[0]) && r[0] != '.')
    ensures Peek(port + r) == Token(Numbers, port)
  {
    hide Candidates, MatchAddress;
    var s := port + r;
    assert s[..|port|] == port && s[|port|..] == r && s[0] == port[0];
    RunEnds(s, |port|);
    NumberIsNoAddress(s, Candidates(s), 3);
    NoMatch(s);
  }

  lemma NoMatch(s: string)
    requires FirstMatch(s, Candidates(s), 3) == None
    ensures MatchAddress(s, 3) == None
  {
  }

  lemma PeekAddress(ip: string, r: string)
    requires IsAddress(ip) && (r != "" ==> !IsDigit(r[0]))
    ensures Peek(ip + r) == Token(Address, ip)
  {
    hide MatchAddress, Dotted;
    var s := ip + r;
    assert s[..|ip|] == ip && s[|ip|..] == r;
    DottedStart(ip, 3);
    assert s[0] == ip[0];
    MatchComplete(s, |ip|, 3);
  }

  /** What a token says about the text it was read from. */
  lemma PeekSound(s: string)
    ensures Peek(s).Token? ==> |Peek(s).text| <= |s| && s == Peek(s).text + s[|Peek(s).text|..]
    ensures Peek(s).Token? && Peek(s).kind == Address ==> IsAddress(Peek(s).text)
    ensures Peek(s).Token? && Peek(s).kind == Numbers ==> Peek(s).text != "" && AllDigits(Peek(s).text)
    ensures Peek(s).Token? && Peek(s).kind == Protocol ==> Peek(s).text == "tcp" || Peek(s).text == "udp"
    ensures Peek(s).Token? && Peek(s).kind == Slash ==> s != "" && s[0] == '/' && Peek(s).text == "/"
    ensures Peek(s) == Token(Colon, ":") <==> s != "" && s[0] == ':'
    ensures Peek(s) == Token(EOF, "") <==> s == ""
    ensures Peek(s).Token? && Peek(s).kind == Colon ==> Peek(s).text == ":"
    ensures Peek(s).Token? && Peek(s).kind == EOF ==> Peek(s).text == ""
  {
    hide MatchAddress, Dotted, DigitRun;
    MatchSound(s, 3);
  }

  // ---- completeness: every text of the grammar is read back

  lemma ReadPort(port: string, r: string)
    requires IsPort(port) && (r != "" ==> !IsDigit(r[0]) && r[0] != '.')
    ensures ParsePort(port + r) == Done(port, r)
  {
    hide Peek;
    PeekNumber(port, r);
    assert (port + r)[|port|..] == r;
  }

  lemma ReadContainerPort(key: string)
    requires IsContainerPort(key)
    ensures ParseContainerPort(key) == Done(key, "")
    ensures exists port, r :: key == port + r && IsPort(port) && (r == "" || r[0] == '/') && ParseSuffix(port, r) == Done(key, "")
  {
    hide IsPort, ParsePort;
    if IsPort(key) {
      ReadPort(key, "");
      assert key + "" == key;
      assert ParseSuffix(key, "") == Done(key, "");
    } else {
      var n := |key| - 4;
      var port, r := key[..n], key[n..];
      assert key == port + r;
      ReadPort(port, r);
      assert r[1..][..3] == r[1..] && port + "/" + r[1..] == key;
      ReadProtocol(r[1..]);
      assert r[0] == '/';
    }
  }

  lemma ReadProtocol(p: string)
    requires p == "tcp" || p == "udp"
    ensures ParseProtocol(p) == Done(p, "")
  {
    hide MatchAddress;
    assert p[..3] == p && p[3..] == "" && !IsDigit(p[0]);
    MatchStart(p);
  }

  lemma MatchStart(s: string)
    ensures MatchAddress(s, 3).Some? ==> s != "" && IsDigit(s[0])
  {
    hide MatchAddress;
    if MatchAddress(s, 3).Some? {
      MatchSound(s, 3);
      var n := MatchAddress(s, 3).value;
      DottedStart(s[..n], 3);
      assert s[..n][0] == s[0];
    }
  }

  lemma PortComplete(key: string, b: Binding)
    requires WellFormed(key, b) && !b.HostAddress?
    ensures ParseElement(Text(key, b)) == Some((key, b))
  {
    hide Peek, ParsePort, ParseContainerPort, ParseSuffix, IsPort, IsContainerPort, Dotted;
    ReadContainerPort(key);
    PeekSound("");
    if b == Unbound {
      var port, r :| key == port + r && IsPort(port) && (r == "" || r[0] == '/') && ParseSuffix(port, r) == Done(key, "");
      PortStart(port, r);
      PeekSound(r);
    } else {
      var r := ":" + key;
      assert Text(key, b) == b.port + r && r[1..] == key;
      PortStart(b.port, r);
      PeekSound(r);
    }
  }

  /** The text after an address and its colon. */
  function AfterColon(key: string, hostPort: Option<string>): string {
    if hostPort.None? then ":" + key else hostPort.value + (":" + key)
  }

  lemma AfterColonComplete(ip: string, key: string, hostPort: Option<string>)
    requires IsContainerPort(key) && (hostPort.Some? ==> IsPort(hostPort.value))
    ensures ParseAfterAddress(ip, AfterColon(key, hostPort)) == Done(Some((key, HostAddress(ip, hostPort))), "")
  {
    hide Peek, ParsePort, ParseContainerPort, IsPort, IsContainerPort;
    ReadContainerPort(key);
    var r := ":" + key;
    assert r[1..] == key;
    PeekSound(r);
    if hostPort.Some? {
      PortStart(hostPort.value, r);
    }
  }

  lemma AddressComplete(key: string, b: Binding)
    requires WellFormed(key, b) && b.HostAddress?
    ensures ParseElement(Text(key, b)) == Some((key, b))
  {
    hide Peek, ParseAfterAddress, IsPort, IsContainerPort, Dotted, AfterColon, Text;
    var r := ":" + AfterColon(key, b.hostPort);
    AfterColonText(key, b);
    AfterColonComplete(b.ip, key, b.hostPort);
    assert (b.ip + r)[|b.ip|..] == r && r[1..] == AfterColon(key, b.hostPort);
    AddressThen(b.ip, r);
    PeekSound("");
  }

  lemma AfterColonText(key: string, b: Binding)
    requires b.HostAddress?
    ensures Text(key, b) == b.ip + (":" + AfterColon(key, b.hostPort))
  {
    if b.hostPort.None? {
      assert b.ip + "::" + key == b.ip + (":" + (":" + key));
    } else {
      assert b.ip + ":" + b.hostPort.value + ":" + key == b.ip + (":" + (b.hostPort.value + (":" + key)));
    }
  }

  lemma AddressThen(ip: string, r: string)
    requires IsAddress(ip) && r != "" && r[0] == ':'
    ensures Peek(ip + r) == Token(Address, ip) && Peek(r) == Token(Colon, ":")
  {
    hide Peek, Dotted;
    PeekAddress(ip, r);
    PeekSound(r);
  }

  lemma ElementComplete(key: string, b: Binding)
    requires WellFormed(key, b)
    ensures ParseElement(Text(key, b)) == Some((key, b))
  {
    hide ParseElement, Text, WellFormed;
    if b.HostAddress? {
      AddressComplete(key, b);
    } else {
      PortComplete(key, b);
    }
  }

  lemma PortStart(port: string, r: string)
    requires IsPort(port) && (r != "" ==> r[0] == ':' || r[0] == '/')
    ensures Peek(port + r) == Token(Numbers, port) && ParsePort(port + r) == Done(port, r)
  {
    hide Peek, ParsePort;
    PeekNumber(port, r);
    ReadPort(port, r);
  }

  // ---- soundness: whatever is accepted is a text of the grammar

  lemma PortSound(s: string)
    ensures ParsePort(s).Done? ==> IsPort(ParsePort(s).value) && s == ParsePort(s).value + ParsePort(s).rest
  {
    hide Peek;
    PeekSound(s);
  }

  lemma WithProtocol(port: string, p: string, s: string, rest: string)
    requires IsPort(port) && (p == "tcp" || p == "udp") && s == "/" + p + rest
    ensures IsContainerPort(port + "/" + p) && port + s == port + "/" + p + rest
  {
    assert port != "";
    hide IsPort;
    var key := port + "/" + p;
    assert "/" + "tcp" == "/tcp" && "/" + "udp" == "/udp";
    assert |key| - 4 == |port| && key[..|port|] == port && key[|port|..] == "/" + p;
  }

  lemma SuffixSound(port: string, s: string)
    requires IsPort(port)
    ensures var r := ParseSuffix(port, s); r.Done? ==> IsContainerPort(r.value) && port + s == r.value + r.rest
  {
    hide Peek, IsPort, IsContainerPort;
    PeekSound(s);
    var r := ParseSuffix(port, s);
    if r.Done? {
      if Peek(s).kind == Slash {
        PeekSound(s[1..]);
        var p := Peek(s[1..]).text;
        assert s == "/" + p + r.rest;
        WithProtocol(port, p, s, r.rest);
      } else {
        PlainPort(port);
      }
    }
  }

  lemma PlainPort(port: string)
    requires IsPort(port)
    ensures IsContainerPort(port)
  {
  }

  lemma ContainerPortSound(s: string)
    ensures var r := ParseContainerPort(s); r.Done? ==> IsContainerPort(r.value) && s == r.value + r.rest
  {
    hide ParsePort, ParseSuffix, IsPort;
    PortSound(s);
    if ParsePort(s).Done? {
      SuffixSound(ParsePort(s).value, ParsePort(s).rest);
    }
  }

  lemma AddressMapSound(s: string)
    ensures var r := ParseAddressMap(s); r.Done? && r.value.Some? ==>
      WellFormed(r.value.value.0, r.value.value.1) && s == Text(r.value.value.0, r.value.value.1) + r.rest
  {
    hide Peek, ParsePort, ParseContainerPort, IsPort, IsContainerPort, Dotted, Text;
    var r := ParseAddressMap(s);
    if r.Done? && r.value.Some? {
      PeekSound(s);
      var ip := Peek(s).text;
      var s1 := s[|ip|..];
      PeekSound(s1);
      var s2 := s1[1..];
      PeekSound(s2);
      if Peek(s2).kind == Numbers {
        PortSound(s2);
        var s3 := ParsePort(s2).rest;
        PeekSound(s3);
        ContainerPortSound(s3[1..]);
        FullText(s, ip, s2, ParsePort(s2).value, s3[1..], ParseContainerPort(s3[1..]).value, r.rest);
      } else {
        ContainerPortSound(s2[1..]);
        ShortText(s, ip, s2[1..], ParseContainerPort(s2[1..]).value, r.rest);
      }
    }
  }

  lemma FullText(s: string, ip: string, s2: string, port: string, s4: string, key: string, rest: string)
    requires s == ip + (":" + s2) && s2 == port + (":" + s4) && s4 == key + rest
    ensures s == Text(key, HostAddress(ip, Some(port))) + rest
  {
    assert s == ip + ":" + port + ":" + s4;
  }

  lemma ShortText(s: string, ip: string, s4: string, key: string, rest: string)
    requires s == ip + (":" + (":" + s4)) && s4 == key + rest
    ensures s == Text(key, HostAddress(ip, None)) + rest
  {
    assert s == ip + "::" + s4;
  }

  lemma PortMapSound(s: string)
    ensures var r := ParsePortMap(s); r.Done? ==>
      r.value.Some? && WellFormed(r.value.value.0, r.value.value.1) && s == Text(r.value.value.0, r.value.value.1) + r.rest
  {
    hide Peek, ParsePort, ParseContainerPort, ParseSuffix, IsPort, IsContainerPort;
    var r := ParsePortMap(s);
    if r.Done? {
      PortSound(s);
      var port, s1 := ParsePort(s).value, ParsePort(s).rest;
      PeekSound(s1);
      if Peek(s1) == Token(Colon, ":") {
        ContainerPortSound(s1[1..]);
        assert s1 == ":" + s1[1..];
        assert s == port + ":" + ParseContainerPort(s1[1..]).value + r.rest;
      } else {
        SuffixSound(port, s1);
      }
    }
  }

  /**
    The parser accepts an element exactly when it is the text of a well-formed mapping, and then returns
    that mapping: an address with a host port or an empty one, a host port, or nothing, in front of a
    container port with an optional protocol.
  */
  lemma ElementGrammar(s: string, key: string, b: Binding)
    ensures ParseElement(s) == Some((key, b)) <==> WellFormed(key, b) && s == Text(key, b)
  {
    hide Peek, ParseAddressMap, ParsePortMap, WellFormed, Text;
    if WellFormed(key, b) && s == Text(key, b) {
      ElementComplete(key, b);
    }
    if ParseElement(s) == Some((key, b)) {
      AddressMapSound(s);
      PortMapSound(s);
      var r := if Peek(s).kind == Address then ParseAddressMap(s) else ParsePortMap(s);
      PeekSound(r.rest);
      assert Text(key, b) + "" == Text(key, b);
    }
  }

  // ---- the comma-separated list

  /** The parts of a text between commas. */
  function Split(s: string): (parts: seq<string>)
    ensures parts != []
  {
    if s == "" then [""]
    else
      var rest := Split(s[1..]);
      if s[0] == ',' then [""] + rest else [[s[0]] + rest[0]] + rest[1..]
  }

  function Join(parts: seq<string>): string {
    if parts == [] then "" else if |parts| == 1 then parts[0] else parts[0] + "," + Join(parts[1..])
  }

  predicate NoComma(s: string) {
    forall i :: 0 <= i < |s| ==> s[i] != ','
  }

  /** The mappings of all elements, later ones replacing earlier ones for the same container port. */
  function Collect(parts: seq<string>): Option<map<string, Binding>> {
    if parts == [] then Some(map[])
    else
      var n := |parts| - 1;
      var before, last := Collect(parts[..n]), ParseElement(parts[n]);
      if before.None? || last.None? then None
      else Some(before.value[last.value.0 := last.value.1])
  }

  function ParsePortMappings(s: string): Option<map<string, Binding>> {
    Collect(Split(s))
  }

  /** Splitting at commas is the inverse of joining with them. */
  lemma {:induction false} SplitJoin(s: string)
    ensures Join(Split(s)) == s
    ensures forall i :: 0 <= i < |Split(s)| ==> NoComma(Split(s)[i])
  {
    if s != "" {
      var rest := Split(s[1..]);
      SplitJoin(s[1..]);
      assert s == [s[0]] + s[1..];
      if s[0] == ',' {
        assert ([""] + rest)[1..] == rest;
      } else {
        var head := [s[0]] + rest[0];
        assert ([head] + rest[1..])[1..] == rest[1..];
        if |rest| > 1 {
          assert Join([head] + rest[1..]) == [s[0]] + (rest[0] + "," + Join(rest[1..]));
        }
      }
    }
  }

  lemma {:induction false} JoinSplit(parts: seq<string>)
    requires parts != [] && forall i :: 0 <= i < |parts| ==> NoComma(parts[i])
    ensures Split(Join(parts)) == parts
  {
    if |parts| == 1 {
      SplitPlain(parts[0]);
    } else {
      JoinSplit(parts[1..]);
      SplitPrefix(parts[0], Join(parts[1..]));
      assert parts == [parts[0]] + parts[1..];
    }
  }

  lemma {:induction false} SplitPlain(s: string)
    requires NoComma(s)
    ensures Split(s) == [s]
  {
    if s != "" {
      SplitPlain(s[1..]);
      assert s == [s[0]] + s[1..];
    }
  }

  lemma {:induction false} SplitPrefix(p: string, s: string)
    requires NoComma(p)
    ensures Split(p + "," + s) == [p] + Split(s)
  {
    var t := p + "," + s;
    if p == "" {
      assert t[1..] == s;
    } else {
      SplitPrefix(p[1..], s);
      assert t[1..] == p[1..] + "," + s;
      assert p == [p[0]] + p[1..];
      assert ([p[1..]] + Split(s))[1..] == Split(s);
    }
  }

  /** Whether element `j` is the last one for container port `key`. */
  predicate LastFor(parts: seq<string>, key: string, j: nat) {
    && j < |parts| && ParseElement(parts[j]).Some? && ParseElement(parts[j]).value.0 == key
    && forall i :: j < i < |parts| ==> ParseElement(parts[i]).Some? ==> ParseElement(parts[i]).value.0 != key
  }

  /**
    A list is accepted exactly when every element is, and a container port is then mapped to what the
    last element for it says, and to nothing if there is none.
  */
  lemma {:induction false} LastEntryWins(parts: seq<string>, key: string)
    ensures Collect(parts).Some? <==> forall i :: 0 <= i < |parts| ==> ParseElement(parts[i]).Some?
    ensures Collect(parts).Some? ==> (key in Collect(parts).value <==> exists j: nat :: LastFor(parts, key, j))
    ensures Collect(parts).Some? ==> forall j: nat :: LastFor(parts, key, j) ==>
              key in Collect(parts).value && Collect(parts).value[key] == ParseElement(parts[j]).value.1
  {
    hide ParseElement;
    if parts != [] {
      var n := |parts| - 1;
      LastEntryWins(parts[..n], key);
      if Collect(parts).Some? {
        if ParseElement(parts[n]).value.0 == key {
          assert LastFor(parts, key, n);
        } else {
          forall j: nat ensures LastFor(parts, key, j) <==> LastFor(parts[..n], key, j) {
            LastForPrefix(parts, key, j);
          }
        }
      }
    }
  }

  lemma LastForPrefix(parts: seq<string>, key: string, j: nat)
    requires parts != [] && ParseElement(parts[|parts| - 1]).Some? && ParseElement(parts[|parts| - 1]).value.0 != key
    ensures LastFor(parts, key, j) <==> LastFor(parts[..|parts| - 1], key, j)
  {
    hide ParseElement;
    var n := |parts| - 1;
    assert forall i :: 0 <= i < n ==> parts[..n][i] == parts[i];
  }

  // ---- printing

  /** A mapping as the container engine reports it; the address may be absent. */
  datatype Reported = Reported(ip: Option<string>, publicPort: nat, privatePort: nat, kind: Option<string>)

  function FormatMapping(m: Reported): string {
    (if m.ip.Some? && m.ip.value != "" && m.ip.value != "0.0.0.0" then m.ip.value + ":" else "")
    + Decimal(m.publicPort) + ":" + Decimal(m.privatePort)
    + (if m.kind.None? || m.kind.value == "" || m.kind.value == "tcp" then "" else "/" + m.kind.value)
  }

  /** The container port and binding the reported mapping stands for. */
  function ReportedKey(m: Reported): string {
    Decimal(m.privatePort) + if m.kind == Some("udp") then "/udp" else ""
  }

  /** Whether the mapping is for one address only. */
  predicate ShowsAddress(ip: Option<string>) {
    match ip
    case None => false
    case Some(text) => text != "" && text != "0.0.0.0"
  }

  function ReportedBinding(m: Reported): Binding {
    if ShowsAddress(m.ip) then HostAddress(m.ip.value, Some(Decimal(m.publicPort)))
    else HostPort(Decimal(m.publicPort))
  }

  predicate Reportable(m: Reported) {
    && 1 <= m.publicPort <= 65535 && 1 <= m.privatePort <= 65535
    && (m.kind.None? || m.kind.value == "" || m.kind.value == "tcp" || m.kind.value == "udp")
  }

  lemma FormatIsText(m: Reported)
    requires Reportable(m)
    ensures FormatMapping(m) == Text(ReportedKey(m), ReportedBinding(m))
    ensures IsContainerPort(ReportedKey(m))
  {
    hide Decimal;
    var port := Decimal(m.privatePort);
    assert "/" + "udp" == "/udp";
    if m.kind == Some("udp") {
      WithProtocol(port, "udp", "/udp", "");
      assert port + "/" + "udp" == port + "/udp";
    } else {
      PlainPort(port);
      assert port + "" == port;
    }
  }

  /**
    What is printed for a mapping is read back as that mapping, with the same ports, protocol and
    address, exactly when no address is printed or the address is a dotted one.
  */
  lemma PrintedMappingsReadBack(m: Reported)
    requires Reportable(m)
    ensures (ParseElement(FormatMapping(m)) == Some((ReportedKey(m), ReportedBinding(m)))) <==>
            (ShowsAddress(m.ip) ==> IsAddress(m.ip.value))
  {
    hide Decimal, Dotted, ParseElement, Text, FormatMapping, ReportedKey, IsContainerPort, IsPort;
    FormatIsText(m);
    ElementGrammar(FormatMapping(m), ReportedKey(m), ReportedBinding(m));
    DecimalIsPort(m.publicPort);
  }

  lemma DecimalIsPort(n: nat)
    requires 1 <= n <= 65535
    ensures IsPort(Decimal(n))
  {
  }
}
