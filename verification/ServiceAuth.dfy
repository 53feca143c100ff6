/** Signed service requests: the header codec, the signed payload and hexadecimal signatures. */
module ServiceAuth {
  import opened Common
  import Decimal

  datatype Direction = AgentToFactory | FactoryToAgent

  datatype SignedRequest = SignedRequest(keyId: string, timestamp: string, nonce: string, signature: string)

  function KeyId(d: Direction): string {
    match d case AgentToFactory => "ff-agent-to-ff-v1" case FactoryToAgent => "ff-ff-to-agent-v1"
  }

  // ---------------------------------------------------------------- the header

  function Format(r: SignedRequest): string {
    "HMAC-SHA256 keyId=" + r.keyId + ",timestamp=" + r.timestamp + ",nonce=" + r.nonce + ",signature=" + r.signature
  }

  /** The characters of the pattern class `\s`, which are also those that `trim` removes. */
  predicate IsSpace(c: char) {
    || '\t' <= c <= '\r' || c == ' ' || c == '\U{A0}' || c == '\U{1680}' || '\U{2000}' <= c <= '\U{200A}'
    || c == '\U{2028}' || c == '\U{2029}' || c == '\U{202F}' || c == '\U{205F}' || c == '\U{3000}' || c == '\U{FEFF}'
  }

  predicate AllSpaces(s: string) { forall i :: 0 <= i < |s| ==> IsSpace(s[i]) }

  function SkipSpaces(s: string): string { if s != [] && IsSpace(s[0]) then SkipSpaces(s[1..]) else s }

  function CommaAt(s: string): (i: nat)
    ensures i <= |s| && (i < |s| ==> s[i] == ',') && ',' !in s[..i]
  {
    if s == [] || s[0] == ',' then 0
    else
      var i := 1 + CommaAt(s[1..]);
      assert s[..i] == [s[0]] + s[1..][..i - 1];
      i
  }

  datatype Field = Field(value: string, rest: string)

  /** `name`, then a nonempty run of characters other than a comma. */
  function TakeField(s: string, name: string): Option<Field> {
    if !(name <= s) then None
    else
      var tail := s[|name|..];
      var i := CommaAt(tail);
      if i == 0 then None else Some(Field(tail[..i], tail[i..]))
  }

  /** The named fields one after the other, and nothing after the last. */
  function TakeFields(s: string, names: seq<string>): Option<seq<string>>
    decreases |names|
  {
    if names == [] then (if s == [] then Some([]) else None)
    else
      match TakeField(s, names[0])
      case None => None
      case Some(field) =>
        match TakeFields(field.rest, names[1..])
        case None => None
        case Some(values) => Some([field.value] + values)
  }

  const SCHEME := "HMAC-SHA256"
  const NAMES := ["keyId=", ",timestamp=", ",nonce=", ",signature="]

  function Parse(header: string): Option<SignedRequest> {
    if !(SCHEME <= header) then None
    else
      var tail := header[|SCHEME|..];
      var fields := SkipSpaces(tail);
      if fields == tail then None
      else
        match TakeFields(fields, NAMES)
        case None => None
        case Some(v) => if |v| == 4 then Some(SignedRequest(v[0], v[1], v[2], v[3])) else None
  }

  predicate FieldOk(s: string) { s != [] && ',' !in s }

  predicate FieldsOk(r: SignedRequest) { FieldOk(r.keyId) && FieldOk(r.timestamp) && FieldOk(r.nonce) && FieldOk(r.signature) }

  function JoinFields(names: seq<string>, values: seq<string>): string
    requires |names| == |values|
    decreases |names|
  {
    if names == [] then [] else names[0] + (values[0] + JoinFields(names[1..], values[1..]))
  }

  function Values(r: SignedRequest): seq<string> { [r.keyId, r.timestamp, r.nonce, r.signature] }

  function Spaced(spaces: string, r: SignedRequest): string { SCHEME + (spaces + JoinFields(NAMES, Values(r))) }

  /** What the header grammar means: the fields in order, at least one space, nothing else. */
  ghost predicate Denotes(header: string, r: SignedRequest) {
    FieldsOk(r) && exists spaces :: spaces != [] && AllSpaces(spaces) && header == Spaced(spaces, r)
  }

  lemma {:induction false} SkipAll(spaces: string, rest: string)
    requires AllSpaces(spaces) && (rest == [] || !IsSpace(rest[0]))
    ensures SkipSpaces(spaces + rest) == rest
    decreases |spaces|
  {
    if spaces == [] {
      assert spaces + rest == rest;
    } else {
      assert (spaces + rest)[1..] == spaces[1..] + rest;
      SkipAll(spaces[1..], rest);
    }
  }

  lemma {:induction false} SkippedAreSpaces(s: string)
    ensures exists spaces :: AllSpaces(spaces) && s == spaces + SkipSpaces(s)
    decreases |s|
  {
    if s != [] && IsSpace(s[0]) {
      SkippedAreSpaces(s[1..]);
      var rest :| AllSpaces(rest) && s[1..] == rest + SkipSpaces(s[1..]);
      assert s == ([s[0]] + rest) + SkipSpaces(s);
      assert AllSpaces([s[0]] + rest);
    } else {
      assert s == [] + SkipSpaces(s) && AllSpaces([]);
    }
  }

  lemma {:induction false} CommaAfter(value: string, rest: string)
    requires ',' !in value && (rest == [] || rest[0] == ',')
    ensures CommaAt(value + rest) == |value|
    decreases |value|
  {
    if value == [] {
      assert value + rest == rest;
    } else {
      assert (value + rest)[1..] == value[1..] + rest;
      CommaAfter(value[1..], rest);
    }
  }

  lemma TakesField(name: string, value: string, rest: string)
    requires FieldOk(value) && (rest == [] || rest[0] == ',')
    ensures TakeField(name + (value + rest), name) == Some(Field(value, rest))
  {
    var s := name + (value + rest);
    assert s[|name|..] == value + rest;
    CommaAfter(value, rest);
    assert (value + rest)[..|value|] == value && (value + rest)[|value|..] == rest;
  }

  lemma TakenField(s: string, name: string)
    requires TakeField(s, name).Some?
    ensures var f := TakeField(s, name).value; FieldOk(f.value) && s == name + (f.value + f.rest)
  {
    var tail := s[|name|..];
    assert s == name + tail;
    assert tail == tail[..CommaAt(tail)] + tail[CommaAt(tail)..];
  }

  predicate CommaNames(names: seq<string>) { forall i :: 0 <= i < |names| ==> names[i] != [] && names[i][0] == ',' }

  /** The first field and the others. */
  lemma TakesNext(names: seq<string>, values: seq<string>, rest: string)
    requires names != [] && |names| == |values|
    requires TakeField(names[0] + (values[0] + rest), names[0]) == Some(Field(values[0], rest))
    requires TakeFields(rest, names[1..]) == Some(values[1..])
    ensures TakeFields(names[0] + (values[0] + rest), names) == Some(values)
  {
    assert values == [values[0]] + values[1..];
  }

  lemma CommaTail(names: seq<string>)
    requires CommaNames(names) && names != []
    ensures CommaNames(names[1..])
  {
  }

  lemma CommaNext(names: seq<string>, values: seq<string>)
    requires |names| == |values| && CommaNames(names)
    ensures var rest := JoinFields(names, values); rest == [] || rest[0] == ','
  {
  }

  /** Taking fields finds exactly the values whose join is the text, if all names but the first start with a comma. */
  lemma {:induction false} TakesFields(names: seq<string>, values: seq<string>)
    requires |names| == |values| && (names != [] ==> CommaNames(names[1..]))
    requires forall i :: 0 <= i < |values| ==> FieldOk(values[i])
    ensures TakeFields(JoinFields(names, values), names) == Some(values)
    decreases |names|
  {
    if names != [] {
      var rest := JoinFields(names[1..], values[1..]);
      CommaNext(names[1..], values[1..]);
      TakesField(names[0], values[0], rest);
      if names[1..] != [] { CommaTail(names[1..]); }
      TakesFields(names[1..], values[1..]);
      TakesNext(names, values, rest);
    }
  }

  lemma {:induction false} TakenFields(s: string, names: seq<string>)
    requires TakeFields(s, names).Some?
    ensures var values := TakeFields(s, names).value;
            && |values| == |names| && s == JoinFields(names, values)
            && forall i :: 0 <= i < |values| ==> FieldOk(values[i])
    decreases |names|
  {
    if names != [] {
      TakenField(s, names[0]);
      var f := TakeField(s, names[0]).value;
      TakenFields(f.rest, names[1..]);
      var rest := TakeFields(f.rest, names[1..]).value;
      assert ([f.value] + rest)[1..] == rest;
    }
  }

  lemma FieldsAreText(r: SignedRequest)
    ensures JoinFields(NAMES, Values(r)) != [] && !IsSpace(JoinFields(NAMES, Values(r))[0])
    ensures CommaNames(NAMES[1..])
  {
    assert NAMES[1..] == [",timestamp=", ",nonce=", ",signature="];
    assert JoinFields(NAMES, Values(r))[0] == NAMES[0][0] == 'k';
  }

  /** Every denotation is parsed back. */
  lemma ParsesDenoted(spaces: string, r: SignedRequest)
    requires FieldsOk(r) && spaces != [] && AllSpaces(spaces)
    ensures Parse(Spaced(spaces, r)) == Some(r)
  {
    var fields := JoinFields(NAMES, Values(r));
    var header := SCHEME + (spaces + fields);
    assert header[|SCHEME|..] == spaces + fields;
    FieldsAreText(r);
    SkipAll(spaces, fields);
    assert |fields| < |spaces + fields|;
    TakesFields(NAMES, Values(r));
  }

  /** A header parses to a request exactly when it denotes that request: the grammar is unambiguous. */
  lemma ParseExactly(header: string, r: SignedRequest)
    ensures Parse(header) == Some(r) <==> Denotes(header, r)
  {
    if Denotes(header, r) {
      var spaces :| spaces != [] && AllSpaces(spaces) && header == Spaced(spaces, r);
      ParsesDenoted(spaces, r);
    }
    if Parse(header) == Some(r) {
      ParsedDenotes(header, r);
    }
  }

  lemma ParsedValues(header: string, r: SignedRequest)
    requires Parse(header) == Some(r)
    ensures SCHEME <= header && SkipSpaces(header[|SCHEME|..]) != header[|SCHEME|..]
    ensures TakeFields(SkipSpaces(header[|SCHEME|..]), NAMES) == Some(Values(r))
  {
    var v := TakeFields(SkipSpaces(header[|SCHEME|..]), NAMES).value;
    assert v == [v[0], v[1], v[2], v[3]];
  }

  lemma ParsedDenotes(header: string, r: SignedRequest)
    requires Parse(header) == Some(r)
    ensures Denotes(header, r)
  {
    ParsedValues(header, r);
    var tail := header[|SCHEME|..];
    var fields := SkipSpaces(tail);
    SkippedAreSpaces(tail);
    var spaces :| AllSpaces(spaces) && tail == spaces + fields;
    assert spaces == [] ==> tail == fields;
    TakenFields(fields, NAMES);
    var v := Values(r);
    assert FieldOk(v[0]) && FieldOk(v[1]) && FieldOk(v[2]) && FieldOk(v[3]);
    assert header == SCHEME + tail;
    assert header == Spaced(spaces, r);
  }

  lemma FormatIsSpaced(r: SignedRequest)
    ensures Format(r) == Spaced(" ", r)
  {
    var v := Values(r);
    assert JoinFields(NAMES[3..], v[3..]) == ",signature=" + (r.signature + []);
    assert JoinFields(NAMES[2..], v[2..]) == ",nonce=" + (r.nonce + JoinFields(NAMES[3..], v[3..])) by {
      assert NAMES[2..][1..] == NAMES[3..] && v[2..][1..] == v[3..];
    }
    assert JoinFields(NAMES[1..], v[1..]) == ",timestamp=" + (r.timestamp + JoinFields(NAMES[2..], v[2..])) by {
      assert NAMES[1..][1..] == NAMES[2..] && v[1..][1..] == v[2..];
    }
    assert r.signature + [] == r.signature;
  }

  /** Formatting and parsing round-trips exactly the requests whose fields are nonempty and comma-free. */
  lemma FormatParse(r: SignedRequest)
    ensures Parse(Format(r)) == Some(r) <==> FieldsOk(r)
  {
    FormatIsSpaced(r);
    if FieldsOk(r) {
      ParsesDenoted(" ", r);
    }
    ParseExactly(Format(r), r);
  }

  /** Two digits make a byte, the greater one first. */
  lemma {:induction false} UnhexExactly(s: string, i: nat)
    requires |s| % 2 == 0 && (forall j :: 0 <= j < |s| ==> IsHex(s[j])) && 2 * i + 1 < |s|
    ensures Unhex(s)[i] == 16 * HexValue(s[2 * i]) + HexValue(s[2 * i + 1])
    decreases |s|
  {
    if i > 0 {
      UnhexExactly(s[2..], i - 1);
    }
  }

  lemma JoinsWithLineFeeds(first: string, rest: seq<string>)
    ensures JoinLines([first]) == first
    ensures rest != [] ==> JoinLines([first] + rest) == first + "\n" + JoinLines(rest)
  {
    assert ([first] + rest)[1..] == rest;
  }

  /** White space, code point by code point. */
  lemma SpaceTable(c: char)
    ensures IsSpace(c) <==>
              (c as int) in {9, 10, 11, 12, 13, 32, 160, 5760, 8192, 8193, 8194, 8195, 8196, 8197, 8198, 8199, 8200, 8201, 8202,
                             8232, 8233, 8239, 8287, 12288, 65279}
  {
  }

  /** The digits in either case, the values that follow them, and the length of a signature. */
  lemma HexTable(c: char, s: string)
    ensures HexValue('0') == 0 && HexValue('9') == 9 && HexValue('a') == 10 && HexValue('f') == 15 && HexValue('A') == 10 && HexValue('F') == 15
    ensures IsHex(c) <==> c in "0123456789abcdefABCDEF"
    ensures IsHex(c) && c !in "9fF" ==> IsHex((c as int + 1) as char) && HexValue((c as int + 1) as char) == HexValue(c) + 1
    ensures SignatureShape(s) <==> |s| == 64 && forall i :: 0 <= i < |s| ==> IsHex(s[i])
  {
  }

  /** The two key ids, and one header written out. */
  lemma WireFormat()
    ensures KeyId(AgentToFactory) == "ff-agent-to-ff-v1" && KeyId(FactoryToAgent) == "ff-ff-to-agent-v1"
    ensures Format(SignedRequest("k", "1", "n", "s")) == "HMAC-SHA256 keyId=k,timestamp=1,nonce=n,signature=s"
  {
  }

  // ---------------------------------------------------------------- hexadecimal

  type Byte = b: int | 0 <= b < 256

  predicate IsHex(c: char) { '0' <= c <= '9' || 'a' <= c <= 'f' || 'A' <= c <= 'F' }

  function HexDigit(d: nat): (c: char)
    requires d < 16
    ensures IsHex(c) && HexValue(c) == d
  {
    if d < 10 then '0' + d as char else 'a' + (d - 10) as char
  }

  function HexValue(c: char): (d: nat)
    requires IsHex(c)
    ensures d < 16
  {
    if '0' <= c <= '9' then (c - '0') as nat
    else if 'a' <= c <= 'f' then 10 + (c - 'a') as nat
    else 10 + (c - 'A') as nat
  }

  function Hex(bytes: seq<Byte>): (s: string)
    ensures |s| == 2 * |bytes| && forall i :: 0 <= i < |s| ==> IsHex(s[i])
  {
    if bytes == [] then [] else [HexDigit(bytes[0] / 16), HexDigit(bytes[0] % 16)] + Hex(bytes[1..])
  }

  function Unhex(s: string): (bytes: seq<Byte>)
    requires |s| % 2 == 0 && forall i :: 0 <= i < |s| ==> IsHex(s[i])
    ensures |bytes| == |s| / 2
  {
    if s == [] then [] else [16 * HexValue(s[0]) + HexValue(s[1])] + Unhex(s[2..])
  }

  lemma {:induction false} UnhexHex(bytes: seq<Byte>)
    ensures Unhex(Hex(bytes)) == bytes
  {
    if bytes != [] {
      UnhexHex(bytes[1..]);
      var s := Hex(bytes);
      assert s[2..] == Hex(bytes[1..]);
      assert bytes == [bytes[0]] + bytes[1..];
    }
  }

  /** `/^[0-9a-f]{64}$/i` */
  predicate SignatureShape(s: string) { |s| == 64 && forall i :: 0 <= i < |s| ==> IsHex(s[i]) }

  // ---------------------------------------------------------------- the payload

  function JoinLines(lines: seq<string>): string {
    if lines == [] then [] else if |lines| == 1 then lines[0] else lines[0] + "\n" + JoinLines(lines[1..])
  }

  predicate OneLine(s: string) { '\n' !in s }

  /** Lines without newlines can be read back from their join: the signature covers each field separately. */
  lemma {:induction false} JoinInjective(a: seq<string>, b: seq<string>)
    requires |a| == |b| && JoinLines(a) == JoinLines(b)
    requires forall i :: 0 <= i < |a| ==> OneLine(a[i]) && OneLine(b[i])
    ensures a == b
    decreases |a|
  {
    if |a| >= 2 {
      var ja := JoinLines(a[1..]);
      var jb := JoinLines(b[1..]);
      FirstLine(a[0], ja, b[0], jb);
      JoinInjective(a[1..], b[1..]);
      assert a == [a[0]] + a[1..] && b == [b[0]] + b[1..];
    }
  }

  function LineEnd(s: string): nat { if s == [] || s[0] == '\n' then 0 else 1 + LineEnd(s[1..]) }

  lemma {:induction false} LineEnds(x: string, rest: string)
    requires OneLine(x)
    ensures LineEnd(x + ("\n" + rest)) == |x|
    decreases |x|
  {
    if x == [] {
      assert x + ("\n" + rest) == "\n" + rest;
    } else {
      assert (x + ("\n" + rest))[1..] == x[1..] + ("\n" + rest);
      LineEnds(x[1..], rest);
    }
  }

  lemma FirstLine(x: string, restX: string, y: string, restY: string)
    requires OneLine(x) && OneLine(y) && x + "\n" + restX == y + "\n" + restY
    ensures x == y && restX == restY
  {
    var s := x + "\n" + restX;
    assert s == x + ("\n" + restX) && s == y + ("\n" + restY);
    LineEnds(x, restX);
    LineEnds(y, restY);
    assert s[..|x|] == x && s[..|y|] == y;
    assert s[|x| + 1..] == restX && s[|y| + 1..] == restY;
  }
}
