/** The SOCKS5 handshake (sections 3 to 6 of RFC 1928; crates/fwm-core/src/engine/socks.rs). */
module Socks {
  import opened Basics

  newtype byte = x: int | 0 <= x < 256

  /** A destination keeps the form it was asked for in. */
  datatype Host = V4(address: seq<byte>) | Name(name: seq<byte>) | V6(address: seq<byte>)

  datatype Destination = Destination(host: Host, port: nat)

  datatype Failure = EndOfStream | NotSocks5 | NoAcceptableMethod | BadRequest | NotConnect | BadName | BadAddressType | BadDestination

  const METHOD_CHOSEN: seq<byte> := [5, 0]
  const NO_METHOD: seq<byte> := [5, 255]

  function Reply(status: byte): seq<byte> {
    [5, status, 0, 1, 0, 0, 0, 0, 0, 0]
  }

  // ---------- UTF-8 ----------

  predicate Tail(b: byte) {
    0x80 <= b <= 0xBF
  }

  /** Bytes in the next character of a well-formed text, zero if there is none. */
  function CharLength(s: seq<byte>): (n: nat)
    ensures n <= |s|
  {
    if s == [] then 0
    else if s[0] <= 0x7F then 1
    else if |s| >= 2 && 0xC2 <= s[0] <= 0xDF && Tail(s[1]) then 2
    else if |s| >= 3 && Tail(s[2]) &&
            ((s[0] == 0xE0 && 0xA0 <= s[1] <= 0xBF) || (0xE1 <= s[0] <= 0xEC && Tail(s[1]))
             || (s[0] == 0xED && 0x80 <= s[1] <= 0x9F) || (0xEE <= s[0] <= 0xEF && Tail(s[1]))) then 3
    else if |s| >= 4 && Tail(s[2]) && Tail(s[3]) &&
            ((s[0] == 0xF0 && 0x90 <= s[1] <= 0xBF) || (0xF1 <= s[0] <= 0xF3 && Tail(s[1])) || (s[0] == 0xF4 && 0x80 <= s[1] <= 0x8F)) then 4
    else 0
  }

  predicate Utf8(s: seq<byte>)
    decreases |s|
  {
    s == [] || (CharLength(s) > 0 && Utf8(s[CharLength(s)..]))
  }

  // ---------- the handshake ----------

  datatype Outcome = Outcome(result: Result<Destination, Failure>, consumed: nat, output: seq<byte>)

  /** A connection: what is still to come from the client, and what it has been sent. */
  class Stream {
    var input: seq<byte>
    var pos: nat
    var output: seq<byte>

    ghost predicate Valid()
      reads this
    {
      pos <= |input|
    }

    constructor (input: seq<byte>)
      ensures Valid() && this.input == input && pos == 0 && output == []
    {
      this.input, pos, output := input, 0, [];
    }

    /** `read_exact`: everything that is there is used up when it is too little. */
    method Read(count: nat) returns (bytes: Option<seq<byte>>)
      requires Valid()
      modifies this`pos
      ensures Valid()
      ensures if old(pos) + count <= |input| then bytes == Some(input[old(pos)..old(pos) + count]) && pos == old(pos) + count
              else bytes == None && pos == |input|
    {
      if pos + count <= |input| {
        bytes := Some(input[pos..pos + count]);
        pos := pos + count;
      } else {
        bytes := None;
        pos := |input|;
      }
    }

    method Write(bytes: seq<byte>)
      modifies this`output
      ensures output == old(output) + bytes
    {
      output := output + bytes;
    }

    method Refuse(failure: Failure, status: byte) returns (result: Result<Destination, Failure>)
      modifies this`output
      ensures result == Err(failure) && output == old(output) + Reply(status)
    {
      Write(Reply(status));
      result := Err(failure);
    }

    method Handshake() returns (result: Result<Destination, Failure>)
      requires Valid()
      modifies this`pos, this`output
      ensures Valid()
      ensures var o := Parse(old(input[pos..])); result == o.result && pos == old(pos) + o.consumed && output == old(output) + o.output
    {
      hide ParseRequest;
      ghost var rest := input[pos..];
      var version := Read(1);
      if version.None? {
        return Err(EndOfStream);
      }
      if version.value[0] != 5 {
        return Err(NotSocks5);
      }
      var count := Read(1);
      if count.None? {
        return Err(EndOfStream);
      }
      var methods := Read(count.value[0] as nat);
      if methods.None? {
        return Err(EndOfStream);
      }
      assert methods.value == rest[2..2 + rest[1] as nat];
      if 0 !in methods.value {
        Write(NO_METHOD);
        return Err(NoAcceptableMethod);
      }
      Write(METHOD_CHOSEN);
      assert input[pos..] == rest[2 + rest[1] as nat..];
      result := Request();
    }

    method Request() returns (result: Result<Destination, Failure>)
      requires Valid()
      modifies this`pos, this`output
      ensures Valid()
      ensures var o := ParseRequest(old(input[pos..])); result == o.result && pos == old(pos) + o.consumed && output == old(output) + o.output
    {
      ghost var rest := input[pos..];
      var header := Read(4);
      if header.None? {
        return Err(EndOfStream);
      }
      assert header.value == rest[..4] && input[pos..] == rest[4..];
      if header.value[0] != 5 || header.value[2] != 0 {
        result := Refuse(BadRequest, 1);
        return;
      }
      if header.value[1] != 1 {
        result := Refuse(NotConnect, 7);
        return;
      }
      if header.value[3] == 1 {
        result := Address(4, bytes => V4(bytes));
      } else if header.value[3] == 3 {
        result := NamedAddress();
      } else if header.value[3] == 4 {
        result := Address(16, bytes => V6(bytes));
      } else {
        result := Refuse(BadAddressType, 8);
      }
    }

    method NamedAddress() returns (result: Result<Destination, Failure>)
      requires Valid()
      modifies this`pos, this`output
      ensures Valid()
      ensures var o := ParseName(old(input[pos..])); result == o.result && pos == old(pos) + o.consumed && output == old(output) + o.output
    {
      hide Utf8, ParsePort;
      ghost var rest := input[pos..];
      var count := Read(1);
      if count.None? {
        return Err(EndOfStream);
      }
      if count.value[0] == 0 {
        result := Refuse(BadName, 8);
        return;
      }
      var name := Read(count.value[0] as nat);
      if name.None? {
        return Err(EndOfStream);
      }
      assert name.value == rest[1..1 + rest[0] as nat];
      assert input[pos..] == rest[1 + rest[0] as nat..];
      if !Utf8(name.value) {
        result := Refuse(BadName, 8);
        return;
      }
      result := Port(Name(name.value));
    }

    method Address(count: nat, host: seq<byte> -> Host) returns (result: Result<Destination, Failure>)
      requires Valid()
      modifies this`pos, this`output
      ensures Valid()
      ensures var o := ParseAddress(old(input[pos..]), count, host); result == o.result && pos == old(pos) + o.consumed && output == old(output) + o.output
    {
      ghost var rest := input[pos..];
      var address := Read(count);
      if address.None? {
        return Err(EndOfStream);
      }
      assert address.value == rest[..count] && input[pos..] == rest[count..];
      result := Port(host(address.value));
    }

    method Port(host: Host) returns (result: Result<Destination, Failure>)
      requires Valid()
      modifies this`pos, this`output
      ensures Valid()
      ensures var o := ParsePort(old(input[pos..]), host); result == o.result && pos == old(pos) + o.consumed && output == old(output) + o.output
    {
      var bytes := Read(2);
      if bytes.None? {
        return Err(EndOfStream);
      }
      var port := bytes.value[0] as nat * 256 + bytes.value[1] as nat;
      if port == 0 || (host.Name? && 0 in host.name) {
        result := Refuse(BadDestination, 1);
        return;
      }
      result := Ok(Destination(host, port));
    }
  }

  // ---------- the same as a function of the bytes ----------

  function Short(input: seq<byte>): Outcome {
    Outcome(Err(EndOfStream), |input|, [])
  }

  /** The outcome of what comes after some bytes have been read. */
  function Later(consumed: nat, o: Outcome): Outcome {
    o.(consumed := consumed + o.consumed)
  }

  function Parse(input: seq<byte>): Outcome {
    if input == [] then Short(input)
    else if input[0] != 5 then Outcome(Err(NotSocks5), 1, [])
    else if |input| < 2 || |input| < 2 + input[1] as nat then Short(input)
    else if 0 !in input[2..2 + input[1] as nat] then Outcome(Err(NoAcceptableMethod), 2 + input[1] as nat, NO_METHOD)
    else
      var o := Later(2 + input[1] as nat, ParseRequest(input[2 + input[1] as nat..]));
      o.(output := METHOD_CHOSEN + o.output)
  }

  function ParseRequest(input: seq<byte>): Outcome {
    if |input| < 4 then Short(input)
    else if input[0] != 5 || input[2] != 0 then Outcome(Err(BadRequest), 4, Reply(1))
    else if input[1] != 1 then Outcome(Err(NotConnect), 4, Reply(7))
    else if input[3] == 1 then Later(4, ParseAddress(input[4..], 4, bytes => V4(bytes)))
    else if input[3] == 3 then Later(4, ParseName(input[4..]))
    else if input[3] == 4 then Later(4, ParseAddress(input[4..], 16, bytes => V6(bytes)))
    else Outcome(Err(BadAddressType), 4, Reply(8))
  }

  function ParseName(input: seq<byte>): Outcome {
    if input == [] then Short(input)
    else if input[0] == 0 then Outcome(Err(BadName), 1, Reply(8))
    else if |input| < 1 + input[0] as nat then Short(input)
    else if !Utf8(input[1..1 + input[0] as nat]) then Outcome(Err(BadName), 1 + input[0] as nat, Reply(8))
    else Later(1 + input[0] as nat, ParsePort(input[1 + input[0] as nat..], Name(input[1..1 + input[0] as nat])))
  }

  function ParseAddress(input: seq<byte>, count: nat, host: seq<byte> -> Host): Outcome {
    if |input| < count then Short(input) else Later(count, ParsePort(input[count..], host(input[..count])))
  }

  function ParsePort(input: seq<byte>, host: Host): Outcome {
    if |input| < 2 then Short(input)
    else
      var port := input[0] as nat * 256 + input[1] as nat;
      if port == 0 || (host.Name? && 0 in host.name) then Outcome(Err(BadDestination), 2, Reply(1))
      else Outcome(Ok(Destination(host, port)), 2, [])
  }

  // ---------- what a client sends ----------

  predicate Acceptable(d: Destination) {
    && 1 <= d.port <= 65535
    && match d.host
       case V4(address) => |address| == 4
       case V6(address) => |address| == 16
       case Name(name) => 1 <= |name| <= 255 && Utf8(name) && 0 !in name
  }

  function EncodeHost(host: Host): seq<byte>
    requires host.Name? ==> |host.name| <= 255
  {
    match host
    case V4(address) => [1] + address
    case Name(name) => [3, |name| as byte] + name
    case V6(address) => [4] + address
  }

  function EncodePort(port: nat): seq<byte>
    requires port <= 65535
  {
    [(port / 256) as byte, (port % 256) as byte]
  }

  function EncodeRequest(d: Destination): seq<byte>
    requires Acceptable(d)
  {
    [5, 1, 0] + EncodeHost(d.host) + EncodePort(d.port)
  }

  predicate Offer(methods: seq<byte>) {
    |methods| <= 255 && 0 in methods
  }

  /** The greeting with its list of methods, then a CONNECT. */
  function Encode(methods: seq<byte>, d: Destination): seq<byte>
    requires Offer(methods) && Acceptable(d)
  {
    [5, |methods| as byte] + methods + EncodeRequest(d)
  }

  // ---------- both directions ----------

  lemma PortRoundTrips(d: Destination, rest: seq<byte>)
    requires Acceptable(d)
    ensures ParsePort(EncodePort(d.port) + rest, d.host) == Outcome(Ok(d), 2, [])
  {
    var input := EncodePort(d.port) + rest;
    assert input[0] as nat * 256 + input[1] as nat == d.port;
  }

  lemma RequestRoundTrips(d: Destination, rest: seq<byte>)
    requires Acceptable(d)
    ensures ParseRequest(EncodeRequest(d) + rest) == Outcome(Ok(d), |EncodeRequest(d)|, [])
  {
    var input, port := EncodeRequest(d) + rest, EncodePort(d.port) + rest;
    PortRoundTrips(d, rest);
    match d.host {
      case V4(address) => assert input[4..] == address + port && (address + port)[..4] == address && (address + port)[4..] == port;
      case V6(address) => assert input[4..] == address + port && (address + port)[..16] == address && (address + port)[16..] == port;
      case Name(name) =>
        var named := [|name| as byte] + name + port;
        assert input[4..] == named && named[1..1 + |name|] == name && named[1 + |name|..] == port;
    }
  }

  /** Any encoded CONNECT, whatever follows it: the destination comes back, exactly its bytes are read and
      only the choice of method has been sent. */
  lemma EncodedIsAccepted(methods: seq<byte>, d: Destination, rest: seq<byte>)
    requires Offer(methods) && Acceptable(d)
    ensures Parse(Encode(methods, d) + rest) == Outcome(Ok(d), |Encode(methods, d)|, METHOD_CHOSEN)
  {
    var input := Encode(methods, d) + rest;
    assert input[2..2 + |methods|] == methods && input[2 + |methods|..] == EncodeRequest(d) + rest;
    RequestRoundTrips(d, rest);
    assert METHOD_CHOSEN + [] == METHOD_CHOSEN;
  }

  lemma AcceptedPort(input: seq<byte>, host: Host)
    requires ParsePort(input, host).result.Ok?
    ensures var d := ParsePort(input, host).result.value;
            d.host == host && 1 <= d.port <= 65535 && input[..2] == EncodePort(d.port) && (host.Name? ==> 0 !in host.name)
    ensures ParsePort(input, host).consumed == 2 && ParsePort(input, host).output == []
  {
    var d := ParsePort(input, host).result.value;
    assert d.port / 256 == input[0] as nat && d.port % 256 == input[1] as nat;
  }

  lemma AcceptedAddress(input: seq<byte>, count: nat, host: seq<byte> -> Host)
    requires ParseAddress(input, count, host).result.Ok? && forall bytes :: !host(bytes).Name?
    ensures var o := ParseAddress(input, count, host);
            && count + 2 <= |input| && o.result.value.host == host(input[..count]) && 1 <= o.result.value.port <= 65535
            && input[..count + 2] == input[..count] + EncodePort(o.result.value.port) && o.consumed == count + 2 && o.output == []
  {
    AcceptedPort(input[count..], host(input[..count]));
    assert input[..count + 2] == input[..count] + input[count..][..2];
  }

  lemma AcceptedName(input: seq<byte>)
    requires ParseName(input).result.Ok?
    ensures var o := ParseName(input);
            && o.result.value.host.Name? && Acceptable(o.result.value) && o.output == []
            && var name := o.result.value.host.name;
               |input| >= |name| + 3 && input[..|name| + 3] == [|name| as byte] + name + EncodePort(o.result.value.port) && o.consumed == |name| + 3
  {
    hide CharLength, Utf8;
    var count := input[0] as nat;
    AcceptedPort(input[1 + count..], Name(input[1..1 + count]));
    assert input[..count + 3] == [input[0]] + input[1..1 + count] + input[1 + count..][..2];
  }

  /** The request is the encoding of its destination. */
  ghost predicate Encodes(input: seq<byte>, o: Outcome) {
    && o.result.Ok? && Acceptable(o.result.value) && EncodeRequest(o.result.value) <= input
    && o.consumed == |EncodeRequest(o.result.value)| && o.output == []
  }

  lemma AcceptedV4(body: seq<byte>)
    requires ParseAddress(body, 4, bytes => V4(bytes)).result.Ok?
    ensures Encodes([5, 1, 0, 1] + body, Later(4, ParseAddress(body, 4, bytes => V4(bytes))))
  {
    var d := ParseAddress(body, 4, bytes => V4(bytes)).result.value;
    AcceptedAddress(body, 4, bytes => V4(bytes));
    BeginsWith([5, 1, 0, 1] + body, [5, 1, 0, 1], body, 6);
    assert EncodeRequest(d) == [5, 1, 0, 1] + body[..6];
  }

  lemma AcceptedV6(body: seq<byte>)
    requires ParseAddress(body, 16, bytes => V6(bytes)).result.Ok?
    ensures Encodes([5, 1, 0, 4] + body, Later(4, ParseAddress(body, 16, bytes => V6(bytes))))
  {
    var d := ParseAddress(body, 16, bytes => V6(bytes)).result.value;
    AcceptedAddress(body, 16, bytes => V6(bytes));
    BeginsWith([5, 1, 0, 4] + body, [5, 1, 0, 4], body, 18);
    assert EncodeRequest(d) == [5, 1, 0, 4] + body[..18];
  }

  lemma AcceptedNamed(body: seq<byte>)
    requires ParseName(body).result.Ok?
    ensures Encodes([5, 1, 0, 3] + body, Later(4, ParseName(body)))
  {
    hide CharLength, Utf8, ParseName;
    var d := ParseName(body).result.value;
    AcceptedName(body);
    BeginsWith([5, 1, 0, 3] + body, [5, 1, 0, 3], body, |d.host.name| + 3);
    assert EncodeRequest(d) == [5, 1, 0, 3] + body[..|d.host.name| + 3];
  }

  lemma AcceptedRequest(input: seq<byte>)
    requires ParseRequest(input).result.Ok?
    ensures Encodes(input, ParseRequest(input))
  {
    hide CharLength, Utf8, ParseName, ParseAddress, Encodes;
    var body := input[4..];
    assert input == [5, 1, 0, input[3]] + body;
    if input[3] == 1 {
      AcceptedV4(body);
    } else if input[3] == 3 {
      AcceptedNamed(body);
    } else {
      AcceptedV6(body);
    }
  }

  lemma BeginsWith(input: seq<byte>, head: seq<byte>, body: seq<byte>, count: nat)
    requires input == head + body && count <= |body|
    ensures head + body[..count] <= input
  {
  }

  /** Nothing else is accepted: a success means the input begins with an encoding of the result. */
  lemma AcceptedIsEncoded(input: seq<byte>)
    requires Parse(input).result.Ok?
    ensures exists methods :: Offer(methods) && Acceptable(Parse(input).result.value) && Encode(methods, Parse(input).result.value) <= input
              && Parse(input).consumed == |Encode(methods, Parse(input).result.value)| && Parse(input).output == METHOD_CHOSEN
  {
    hide ParseRequest, EncodeRequest;
    var count := input[1] as nat;
    var methods, request := input[2..2 + count], input[2 + count..];
    AcceptedRequest(request);
    var d := Parse(input).result.value;
    assert input == ([5, |methods| as byte] + methods) + request;
    BeginsWith(input, [5, |methods| as byte] + methods, request, |EncodeRequest(d)|);
    assert request[..|EncodeRequest(d)|] == EncodeRequest(d);
    assert Offer(methods) && Encode(methods, d) <= input;
    assert Parse(input).output == METHOD_CHOSEN + [] == METHOD_CHOSEN;
  }

  // ---------- what a client that is refused is told ----------

  /** The greeting up to and with its methods. */
  function Greeting(methods: seq<byte>): seq<byte>
    requires |methods| <= 255
  {
    [5, |methods| as byte] + methods
  }

  /** A client without the one method there is gets the answer of section 3, and no more. */
  lemma MethodIsRefused(methods: seq<byte>, rest: seq<byte>)
    requires |methods| <= 255 && 0 !in methods
    ensures Parse(Greeting(methods) + rest) == Outcome(Err(NoAcceptableMethod), |methods| + 2, [5, 0xFF])
  {
    var input := Greeting(methods) + rest;
    assert input[2..2 + |methods|] == methods;
  }

  lemma ToldOff(status: byte)
    ensures [5, 0] + Reply(status) == [5, 0, 5, status, 0, 1, 0, 0, 0, 0, 0, 0]
  {
  }

  lemma GreetingLength(methods: seq<byte>)
    requires |methods| <= 255
    ensures |Greeting(methods)| == |methods| + 2
  {
  }

  lemma ParsedRequest(methods: seq<byte>, request: seq<byte>)
    requires Offer(methods)
    ensures var o := ParseRequest(request);
            Parse(Greeting(methods) + request) == Outcome(o.result, |methods| + 2 + o.consumed, [5, 0] + o.output)
  {
    var input := Greeting(methods) + request;
    assert input[2..2 + |methods|] == methods && input[2 + |methods|..] == request;
  }

  /** The replies of section 6: 1 for a malformed request and for a port or name that cannot be reached, 7 for
      a command other than CONNECT, 8 for an address of another kind, and for a name that is none. */
  lemma RequestIsRefused(methods: seq<byte>, version: byte, command: byte, reserved: byte, kind: byte, rest: seq<byte>)
    requires Offer(methods)
    ensures var o, told := Parse(Greeting(methods) + ([version, command, reserved, kind] + rest)), |methods| + 6;
            && (version != 5 || reserved != 0 ==> o == Outcome(Err(BadRequest), told, [5, 0, 5, 1, 0, 1, 0, 0, 0, 0, 0, 0]))
            && (version == 5 && reserved == 0 && command != 1 ==>
                  o == Outcome(Err(NotConnect), told, [5, 0, 5, 7, 0, 1, 0, 0, 0, 0, 0, 0]))
            && (version == 5 && reserved == 0 && command == 1 && kind != 1 && kind != 3 && kind != 4 ==>
                  o == Outcome(Err(BadAddressType), told, [5, 0, 5, 8, 0, 1, 0, 0, 0, 0, 0, 0]))
  {
    var request := [version, command, reserved, kind] + rest;
    ParsedRequest(methods, request);
    ToldOff(1);
    ToldOff(7);
    ToldOff(8);
  }

  lemma ParsedName(name: seq<byte>, rest: seq<byte>)
    requires |name| <= 255 && (name == [] || !Utf8(name))
    ensures ParseName([|name| as byte] + name + rest) == Outcome(Err(BadName), 1 + |name|, Reply(8))
  {
    hide Utf8;
    var input := [|name| as byte] + name + rest;
    assert input[1..1 + |name|] == name;
  }

  /** What follows the header of a well-formed CONNECT. */
  lemma RequestOf(kind: byte, body: seq<byte>)
    ensures kind == 1 ==> ParseRequest([5, 1, 0, kind] + body) == Later(4, ParseAddress(body, 4, bytes => V4(bytes)))
    ensures kind == 3 ==> ParseRequest([5, 1, 0, kind] + body) == Later(4, ParseName(body))
    ensures kind == 4 ==> ParseRequest([5, 1, 0, kind] + body) == Later(4, ParseAddress(body, 16, bytes => V6(bytes)))
  {
    hide ParseName, ParseAddress;
    assert ([5, 1, 0, kind] + body)[4..] == body;
  }

  lemma NamedRequest(name: seq<byte>, rest: seq<byte>)
    requires |name| <= 255 && (name == [] || !Utf8(name))
    ensures ParseRequest([5, 1, 0, 3, |name| as byte] + name + rest) == Outcome(Err(BadName), 5 + |name|, Reply(8))
  {
    hide Utf8, ParseName, ParseRequest, Reply;
    var body := [|name| as byte] + name + rest;
    ParsedName(name, rest);
    RequestOf(3, body);
    assert [5, 1, 0, 3, |name| as byte] + name + rest == [5, 1, 0, 3] + body;
  }

  lemma NameIsRefused(methods: seq<byte>, name: seq<byte>, rest: seq<byte>)
    requires Offer(methods) && |name| <= 255 && (name == [] || !Utf8(name))
    ensures Parse(Greeting(methods) + ([5, 1, 0, 3, |name| as byte] + name + rest))
            == Outcome(Err(BadName), |methods| + 7 + |name|, [5, 0, 5, 8, 0, 1, 0, 0, 0, 0, 0, 0])
  {
    hide Utf8, Parse, ParseRequest, ParseName, Greeting, Reply;
    GreetingLength(methods);
    ParsedRequest(methods, [5, 1, 0, 3, |name| as byte] + name + rest);
    NamedRequest(name, rest);
    ToldOff(8);
  }

  lemma ParsedPort(host: Host, port: nat, rest: seq<byte>)
    requires port <= 65535 && (port == 0 || (host.Name? && 0 in host.name))
    ensures ParsePort(EncodePort(port) + rest, host) == Outcome(Err(BadDestination), 2, Reply(1))
  {
    var tail := EncodePort(port) + rest;
    assert tail[0] as nat * 256 + tail[1] as nat == port;
  }

  lemma ParsedHost(host: Host, port: nat, rest: seq<byte>)
    requires port <= 65535
    requires match host
             case V4(address) => |address| == 4
             case V6(address) => |address| == 16
             case Name(name) => 1 <= |name| <= 255 && Utf8(name)
    requires port == 0 || (host.Name? && 0 in host.name)
    ensures ParseRequest([5, 1, 0] + EncodeHost(host) + EncodePort(port) + rest)
            == Outcome(Err(BadDestination), 5 + |EncodeHost(host)|, Reply(1))
  {
    hide Utf8, ParsePort, EncodePort, ParseName, ParseAddress, ParseRequest, Reply, EncodeHost;
    var tail := EncodePort(port) + rest;
    ParsedPort(host, port, rest);
    assert [5, 1, 0] + EncodeHost(host) + EncodePort(port) + rest == [5, 1, 0] + EncodeHost(host) + tail;
    HostThen(host, tail);
  }

  /** A well-formed host leaves the rest to the port. */
  lemma HostThen(host: Host, tail: seq<byte>)
    requires match host
             case V4(address) => |address| == 4
             case V6(address) => |address| == 16
             case Name(name) => 1 <= |name| <= 255 && Utf8(name)
    ensures ParseRequest([5, 1, 0] + EncodeHost(host) + tail) == Later(3 + |EncodeHost(host)|, ParsePort(tail, host))
  {
    hide Utf8, ParsePort, ParseName, ParseAddress, ParseRequest;
    match host {
      case V4(address) =>
        RequestOf(1, address + tail);
        AddressThen(address, tail, 4, bytes => V4(bytes));
        assert [5, 1, 0] + EncodeHost(host) + tail == [5, 1, 0, 1] + (address + tail);
      case V6(address) =>
        RequestOf(4, address + tail);
        AddressThen(address, tail, 16, bytes => V6(bytes));
        assert [5, 1, 0] + EncodeHost(host) + tail == [5, 1, 0, 4] + (address + tail);
      case Name(name) =>
        RequestOf(3, [|name| as byte] + name + tail);
        NameThen(name, tail);
        assert [5, 1, 0] + EncodeHost(host) + tail == [5, 1, 0, 3] + ([|name| as byte] + name + tail);
    }
  }

  lemma AddressThen(address: seq<byte>, tail: seq<byte>, count: nat, host: seq<byte> -> Host)
    requires |address| == count
    ensures ParseAddress(address + tail, count, host) == Later(count, ParsePort(tail, host(address)))
  {
    assert (address + tail)[..count] == address && (address + tail)[count..] == tail;
  }

  lemma NameThen(name: seq<byte>, tail: seq<byte>)
    requires 1 <= |name| <= 255 && Utf8(name)
    ensures ParseName([|name| as byte] + name + tail) == Later(1 + |name|, ParsePort(tail, Name(name)))
  {
    hide Utf8, ParsePort;
    var named := [|name| as byte] + name + tail;
    assert named[1..1 + |name|] == name && named[1 + |name|..] == tail;
  }

  lemma DestinationIsRefused(methods: seq<byte>, host: Host, port: nat, rest: seq<byte>)
    requires Offer(methods) && port <= 65535
    requires match host
             case V4(address) => |address| == 4
             case V6(address) => |address| == 16
             case Name(name) => 1 <= |name| <= 255 && Utf8(name)
    requires port == 0 || (host.Name? && 0 in host.name)
    ensures Parse(Greeting(methods) + ([5, 1, 0] + EncodeHost(host) + EncodePort(port) + rest))
            == Outcome(Err(BadDestination), |methods| + 7 + |EncodeHost(host)|, [5, 0, 5, 1, 0, 1, 0, 0, 0, 0, 0, 0])
  {
    hide Utf8, Parse, ParsePort, ParseRequest, Greeting, Reply;
    var request := [5, 1, 0] + EncodeHost(host) + EncodePort(port) + rest;
    ParsedRequest(methods, request);
    GreetingLength(methods);
    ParsedHost(host, port, rest);
    ToldOff(1);
  }

  // ---------- what counts as text ----------

  /** A Unicode scalar value: no surrogate, and nothing beyond the last plane. */
  predicate Scalar(n: nat) {
    n < 0xD800 || 0xE000 <= n <= 0x10FFFF
  }

  function Continuation(n: nat): byte {
    (0x80 + n % 64) as byte
  }

  /** UTF-8 (section 3 of RFC 3629). */
  function EncodeChar(n: nat): (s: seq<byte>)
    requires Scalar(n)
    ensures 1 <= |s| <= 4
  {
    if n < 0x80 then [n as byte]
    else if n < 0x800 then [(0xC0 + n / 64) as byte, Continuation(n)]
    else if n < 0x1_0000 then [(0xE0 + n / 4096) as byte, Continuation(n / 64), Continuation(n)]
    else [(0xF0 + n / 262144) as byte, Continuation(n / 4096), Continuation(n / 64), Continuation(n)]
  }

  function EncodeText(text: seq<nat>): seq<byte>
    requires forall n :: n in text ==> Scalar(n)
  {
    if text == [] then [] else EncodeChar(text[0]) + EncodeText(text[1..])
  }

  lemma EncodedCharIsRead(n: nat, rest: seq<byte>)
    requires Scalar(n)
    ensures CharLength(EncodeChar(n) + rest) == |EncodeChar(n)|
  {
    assert (n / 64) / 64 == n / 4096 && (n / 4096) / 64 == n / 262144;
  }

  /** The scalar value at the beginning of a text. */
  function FirstChar(s: seq<byte>): nat
    requires CharLength(s) > 0
  {
    match CharLength(s)
    case 1 => s[0] as nat
    case 2 => (s[0] as nat - 0xC0) * 64 + (s[1] as nat - 0x80)
    case 3 => (s[0] as nat - 0xE0) * 4096 + (s[1] as nat - 0x80) * 64 + (s[2] as nat - 0x80)
    case _ => (s[0] as nat - 0xF0) * 262144 + (s[1] as nat - 0x80) * 4096 + (s[2] as nat - 0x80) * 64 + (s[3] as nat - 0x80)
  }

  lemma ReadCharIsEncoded(s: seq<byte>)
    requires CharLength(s) > 0
    ensures Scalar(FirstChar(s)) && EncodeChar(FirstChar(s)) == s[..CharLength(s)]
  {
    hide EncodeChar, Scalar;
    if s[0] <= 0x7F { OneByte(s[0]); }
    match CharLength(s) {
      case 1 => assert s[..1] == [s[0]];
      case 2 => TwoBytes(s[0], s[1]); assert s[..2] == [s[0], s[1]];
      case 3 => ThreeBytes(s[0], s[1], s[2]); assert s[..3] == [s[0], s[1], s[2]];
      case _ => FourBytes(s[0], s[1], s[2], s[3]); assert s[..4] == [s[0], s[1], s[2], s[3]];
    }
  }

  lemma OneByte(a: byte)
    requires a <= 0x7F
    ensures Scalar(a as nat) && EncodeChar(a as nat) == [a]
  {
  }

  lemma TwoBytes(a: byte, b: byte)
    requires 0xC2 <= a <= 0xDF && Tail(b)
    ensures var n := (a as nat - 0xC0) * 64 + (b as nat - 0x80); Scalar(n) && EncodeChar(n) == [a, b]
  {
    Digits(a as nat - 0xC0, b as nat - 0x80);
  }

  lemma ThreeBytes(a: byte, b: byte, c: byte)
    requires Tail(b) && Tail(c) && 0xE0 <= a <= 0xEF && (a == 0xE0 ==> 0xA0 <= b) && (a == 0xED ==> b <= 0x9F)
    ensures var n := (a as nat - 0xE0) * 4096 + (b as nat - 0x80) * 64 + (c as nat - 0x80); Scalar(n) && EncodeChar(n) == [a, b, c]
  {
    var n := (a as nat - 0xE0) * 4096 + (b as nat - 0x80) * 64 + (c as nat - 0x80);
    Digits(a as nat - 0xE0, b as nat - 0x80);
    Digits((a as nat - 0xE0) * 64 + (b as nat - 0x80), c as nat - 0x80);
    assert n / 4096 == (n / 64) / 64;
  }

  lemma FourBytes(a: byte, b: byte, c: byte, d: byte)
    requires Tail(b) && Tail(c) && Tail(d) && 0xF0 <= a <= 0xF4 && (a == 0xF0 ==> 0x90 <= b) && (a == 0xF4 ==> b <= 0x8F)
    ensures var n := (a as nat - 0xF0) * 262144 + (b as nat - 0x80) * 4096 + (c as nat - 0x80) * 64 + (d as nat - 0x80);
            Scalar(n) && EncodeChar(n) == [a, b, c, d]
  {
    var n := (a as nat - 0xF0) * 262144 + (b as nat - 0x80) * 4096 + (c as nat - 0x80) * 64 + (d as nat - 0x80);
    Digits(a as nat - 0xF0, b as nat - 0x80);
    Digits((a as nat - 0xF0) * 64 + (b as nat - 0x80), c as nat - 0x80);
    Digits((a as nat - 0xF0) * 4096 + (b as nat - 0x80) * 64 + (c as nat - 0x80), d as nat - 0x80);
    assert n / 4096 == (n / 64) / 64 && n / 262144 == (n / 4096) / 64;
  }

  lemma Digits(high: nat, low: nat)
    requires low < 64
    ensures (high * 64 + low) / 64 == high && (high * 64 + low) % 64 == low
  {
  }

  lemma {:induction false} EncodedTextIsText(text: seq<nat>)
    requires forall n :: n in text ==> Scalar(n)
    ensures Utf8(EncodeText(text))
  {
    if text != [] {
      var rest := EncodeText(text[1..]);
      EncodedTextIsText(text[1..]);
      EncodedCharIsRead(text[0], rest);
      hide CharLength, EncodeChar;
      assert (EncodeChar(text[0]) + rest)[|EncodeChar(text[0])|..] == rest;
    }
  }

  /** Exactly the encodings of sequences of scalar values pass as names. */
  lemma {:induction false} TextIsEncoded(s: seq<byte>)
    ensures Utf8(s) <==> exists text :: (forall n :: n in text ==> Scalar(n)) && EncodeText(text) == s
    decreases |s|
  {
    hide CharLength, EncodeChar, Scalar;
    if Utf8(s) {
      if s == [] {
        assert EncodeText([]) == s;
      } else {
        var k := CharLength(s);
        ReadCharIsEncoded(s);
        TextIsEncoded(s[k..]);
        var rest :| (forall n :: n in rest ==> Scalar(n)) && EncodeText(rest) == s[k..];
        var text := [FirstChar(s)] + rest;
        assert text[1..] == rest && EncodeText(text) == s[..k] + s[k..] == s;
      }
    }
    if text :| (forall n :: n in text ==> Scalar(n)) && EncodeText(text) == s {
      EncodedTextIsText(text);
    }
  }

  /** No encoding is the beginning of a longer one. */
  lemma EncodingsDoNotNest(methods: seq<byte>, d: Destination, offered: seq<byte>, other: Destination)
    requires Offer(methods) && Acceptable(d) && Offer(offered)
    requires Acceptable(other) && Encode(offered, other) <= Encode(methods, d)
    ensures |Encode(offered, other)| == |Encode(methods, d)|
  {
    hide Parse, Encode;
    var inner, whole := Encode(offered, other), Encode(methods, d);
    EncodedIsAccepted(methods, d, []);
    EncodedIsAccepted(offered, other, whole[|inner|..]);
    assert whole + [] == whole && inner + whole[|inner|..] == whole;
  }

  /** A client that has not finished is never taken for one that has. */
  lemma PrefixIsNotAccepted(methods: seq<byte>, d: Destination, input: seq<byte>)
    requires Offer(methods) && Acceptable(d) && input < Encode(methods, d)
    ensures Parse(input).result.Err?
  {
    if Parse(input).result.Ok? {
      AcceptedIsEncoded(input);
      var offered :| Offer(offered) && Encode(offered, Parse(input).result.value) <= input;
      EncodingsDoNotNest(methods, d, offered, Parse(input).result.value);
    }
  }
}
