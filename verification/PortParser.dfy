/**
  The parser in the form it is written in: a text and a position that every step advances. An exception
  is the result `None`. Each method is proved against the function it implements.
*/
module PortParser {
  import opened Replies
  import opened PortText
  import opened PortMapping

  class Parser {
    var src: string
    var next: nat

    ghost predicate Valid()
      reads this
    {
      next <= |src|
    }

    /** The text still to be read. */
    function Rest(): string
      requires Valid()
      reads this
    {
      src[next..]
    }

    constructor (text: string)
      ensures Valid() && Rest() == text
    {
      src, next := text, 0;
    }

    /** `r` and the new position are what the parse step `p` says. */
    ghost predicate Agrees<T>(r: Option<T>, p: Parse<T>)
      requires Valid()
      reads this
    {
      match p
      case Fail => r.None?
      case Done(value, rest) => r == Some(value) && Rest() == rest
    }

    method PeekToken() returns (t: Token)
      requires Valid()
      ensures t == Peek(Rest())
    {
      hide MatchAddress, DigitRun;
      if next == |src| {
        return Token(EOF, "");
      }
      if src[next] == '/' {
        return Token(Slash, "/");
      }
      if src[next] == ':' {
        return Token(Colon, ":");
      }
      if src[next] == ',' {
        return Token(Comma, ",");
      }
      var rest := src[next..];
      var address := MatchAddress(rest, 3);
      MatchSound(rest, 3);
      if address.Some? {
        return Token(Address, src[next..next + address.value]);
      }
      var digits := DigitRun(rest);
      if digits > 0 {
        return Token(Numbers, src[next..next + digits]);
      }
      if |rest| >= 3 && (rest[..3] == "tcp" || rest[..3] == "udp") {
        return Token(Protocol, src[next..next + 3]);
      }
      t := Bad;
    }

    method GetToken() returns (t: Token)
      requires Valid()
      modifies this`next
      ensures Valid() && t == Peek(old(Rest()))
      ensures if t.Token? then |t.text| <= |old(Rest())| && Rest() == old(Rest())[|t.text|..] else next == old(next)
    {
      hide Peek;
      t := PeekToken();
      PeekSound(Rest());
      if t.Token? {
        next := next + |t.text|;
      }
    }

    /** Whether the next token has the expected kind; it is consumed. */
    method ExpectToken(kind: Kind) returns (text: Option<string>)
      requires Valid()
      modifies this`next
      ensures Valid()
      ensures var t := Peek(old(Rest()));
        if t.Token? && t.kind == kind
        then text == Some(t.text) && |t.text| <= |old(Rest())| && Rest() == old(Rest())[|t.text|..]
        else text == None
    {
      hide Peek;
      var t := GetToken();
      text := if t.Token? && t.kind == kind then Some(t.text) else None;
    }

    method ReadPortNumber() returns (r: Option<string>)
      requires Valid()
      modifies this`next
      ensures Valid() && Agrees(r, ParsePort(old(Rest())))
    {
      hide Peek;
      PeekSound(Rest());
      var t := GetToken();
      if t.Token? && t.kind == Numbers && 0 < Value(t.text) < 65536 {
        return Some(t.text);
      }
      r := None;
    }

    method ReadProtocolName() returns (r: Option<string>)
      requires Valid()
      modifies this`next
      ensures Valid() && Agrees(r, ParseProtocol(old(Rest())))
    {
      hide Peek;
      var t := GetToken();
      r := if t.Token? && t.kind == Protocol then Some(t.text) else None;
    }

    method ReadSuffix(port: string) returns (r: Option<string>)
      requires Valid()
      modifies this`next
      ensures Valid() && Agrees(r, ParseSuffix(port, old(Rest())))
    {
      hide Peek, ParseProtocol;
      PeekSound(Rest());
      var t := PeekToken();
      if t == Bad {
        return None;
      }
      if t.kind == Slash {
        t := GetToken();
        var protocol := ReadProtocolName();
        return if protocol.Some? then Some(port + "/" + protocol.value) else None;
      }
      r := Some(port);
    }

    method ReadContainerPort() returns (r: Option<string>)
      requires Valid()
      modifies this`next
      ensures Valid() && Agrees(r, ParseContainerPort(old(Rest())))
    {
      hide ParsePort, ParseSuffix;
      var port := ReadPortNumber();
      if port.None? {
        return None;
      }
      r := ReadSuffix(port.value);
    }

    /** What follows `ip:`; after anything but a number or a colon there is no result. */
    method ReadAfterAddress(ip: string) returns (r: Option<Entry>)
      requires Valid()
      modifies this`next
      ensures Valid() && Agrees(r, ParseAfterAddress(ip, old(Rest())))
    {
      hide Peek, ParsePort, PortMapping.ParseContainerPort;
      PeekSound(Rest());
      var t := PeekToken();
      if t == Bad {
        return None;
      }
      if t.kind == Numbers {
        var hostPort := ReadPortNumber();
        if hostPort.None? {
          return None;
        }
        PeekSound(Rest());
        var colon := ExpectToken(Colon);
        if colon.None? {
          return None;
        }
        var key := ReadContainerPort();
        return if key.Some? then Some(Some((key.value, HostAddress(ip, Some(hostPort.value))))) else None;
      }
      if t.kind == Colon {
        var colon := ExpectToken(Colon);
        var key := ReadContainerPort();
        return if key.Some? then Some(Some((key.value, HostAddress(ip, None)))) else None;
      }
      r := Some(None);
    }

    /** `ip:hostPort:containerPort` or `ip::containerPort`. */
    method ReadAddressMap() returns (r: Option<Entry>)
      requires Valid()
      modifies this`next
      ensures Valid() && Agrees(r, ParseAddressMap(old(Rest())))
    {
      hide Peek, ParseAfterAddress;
      PeekSound(Rest());
      var ip := ExpectToken(Address);
      if ip.None? {
        return None;
      }
      PeekSound(Rest());
      var colon := ExpectToken(Colon);
      if colon.None? {
        return None;
      }
      r := ReadAfterAddress(ip.value);
    }

    /** `hostPort:containerPort` or `containerPort`. */
    method ReadPortMap() returns (r: Option<Entry>)
      requires Valid()
      modifies this`next
      ensures Valid() && Agrees(r, ParsePortMap(old(Rest())))
    {
      hide Peek, ParsePort, PortMapping.ParseContainerPort, ParseSuffix;
      var port := ReadPortNumber();
      if port.None? {
        return None;
      }
      PeekSound(Rest());
      var t := PeekToken();
      if t == Token(Colon, ":") {
        t := GetToken();
        var key := ReadContainerPort();
        return if key.Some? then Some(Some((key.value, HostPort(port.value)))) else None;
      }
      var key := ReadSuffix(port.value);
      r := if key.Some? then Some(Some((key.value, Unbound))) else None;
    }

    method ReadElement() returns (r: Entry)
      requires Valid()
      modifies this`next
      ensures Valid() && r == ParseElement(old(Rest()))
    {
      hide Peek, ParseAddressMap, ParsePortMap;
      var t := PeekToken();
      var result: Option<Entry>;
      if t.Token? && t.kind == Address {
        result := ReadAddressMap();
      } else if t.Token? && t.kind == Numbers {
        result := ReadPortMap();
      } else {
        return None;
      }
      if result.None? {
        return None;
      }
      PeekSound(Rest());
      var end := ExpectToken(EOF);
      r := if end.Some? then result.value else None;
    }
  }

  /** The whole list: every element is parsed, then collected in order. */
  method ReadPortMappings(list: string) returns (r: Option<map<string, Binding>>)
    ensures r == ParsePortMappings(list)
  {
    hide ParseElement;
    var parts := Split(list);
    var entries: map<string, Binding> := map[];
    var failed := false;
    for i := 0 to |parts|
      invariant if failed then Collect(parts[..i]) == None else Collect(parts[..i]) == Some(entries)
    {
      assert parts[..i + 1][..i] == parts[..i];
      var parser := new Parser(parts[i]);
      var entry := parser.ReadElement();
      if entry.None? {
        failed := true;
      } else {
        entries := entries[entry.value.0 := entry.value.1];
      }
    }
    assert parts[..|parts|] == parts;
    r := if failed then None else Some(entries);
  }
}
